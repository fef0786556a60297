/** The validated evidence of one run, the paths it can be cited by, and the catalog of claims built on it. */
module Evidence {
  import opened Common
  import opened RunContract
  import opened Grounding

  // -- dotted paths ----------------------------------------------------------

  function PathTo(prefix: string, key: string): string {
    if prefix == "" then key else prefix + "." + key
  }

  /** Every dotted path in a value, to inner nodes and to leaves. */
  function FlattenPaths(value: Json, prefix: string): set<string>
    decreases value
  {
    match value
    case Obj(fields) =>
      (set key | key in fields.Keys :: PathTo(prefix, key))
      + (set key, path | key in fields.Keys && path in FlattenPaths(fields[key], PathTo(prefix, key)) :: path)
    case _ => {}
  }

  function SplitDots(path: string): (segments: seq<string>)
    ensures segments != []
  {
    if path == "" then [""]
    else
      var rest := SplitDots(path[1..]);
      if path[0] == '.' then [""] + rest else [[path[0]] + rest[0]] + rest[1..]
  }

  predicate Resolves(value: Json, segments: seq<string>) {
    segments == []
    || (value.Obj? && segments[0] in value.fields && Resolves(value.fields[segments[0]], segments[1..]))
  }

  /** Whether a path resolves against a snapshot, one object key at a time. */
  predicate ResolveFieldPath(snapshot: Json, path: string) {
    Resolves(snapshot, SplitDots(path))
  }

  function JoinDots(segments: seq<string>): string
    requires segments != []
  {
    if |segments| == 1 then segments[0] else segments[0] + "." + JoinDots(segments[1..])
  }

  predicate PlainKey(key: string) {
    key != "" && '.' !in key
  }

  /** All keys, at every depth, can stand in a dotted path. */
  ghost predicate PlainKeys(value: Json)
    decreases value
  {
    value.Obj? ==> forall key :: key in value.fields ==> PlainKey(key) && PlainKeys(value.fields[key])
  }

  function Under(prefix: string, segments: seq<string>): string
    requires segments != []
  {
    PathTo(prefix, JoinDots(segments))
  }

  lemma UnderOneMore(prefix: string, key: string, segments: seq<string>)
    requires segments != [] && PathTo(prefix, key) != ""
    ensures Under(PathTo(prefix, key), segments) == Under(prefix, [key] + segments)
  {
    assert ([key] + segments)[1..] == segments;
    assert prefix + "." + key + "." + JoinDots(segments) == prefix + "." + (key + "." + JoinDots(segments));
  }

  lemma {:induction false} ResolvingPathsAreFlattened(value: Json, prefix: string, segments: seq<string>)
    requires segments != [] && PathTo(prefix, segments[0]) != "" && Resolves(value, segments)
    ensures Under(prefix, segments) in FlattenPaths(value, prefix)
    decreases value
  {
    var key := segments[0];
    if |segments| > 1 {
      ResolvingPathsAreFlattened(value.fields[key], PathTo(prefix, key), segments[1..]);
      assert segments == [key] + segments[1..];
      UnderOneMore(prefix, key, segments[1..]);
    }
  }

  lemma {:induction false} SplitOfPlain(segment: string, rest: string)
    requires '.' !in segment
    ensures SplitDots(segment) == [segment]
    ensures SplitDots(segment + "." + rest) == [segment] + SplitDots(rest)
  {
    if segment == "" {
      assert "" + "." + rest == "." + rest && ("." + rest)[1..] == rest;
    } else {
      SplitOfPlain(segment[1..], rest);
      assert (segment + "." + rest)[1..] == segment[1..] + "." + rest;
      assert [segment[0]] + segment[1..] == segment;
    }
  }

  /** The segments of a path with one more character in front. */
  function Prepend(c: char, segments: seq<string>): seq<string>
    requires segments != []
  {
    if c == '.' then [""] + segments else [[c] + segments[0]] + segments[1..]
  }

  lemma PrependGoesToTheFront(c: char, first: seq<string>, second: seq<string>)
    requires first != []
    ensures Prepend(c, first + second) == Prepend(c, first) + second
  {
    assert (first + second)[1..] == first[1..] + second;
  }

  /** A dot between two paths always separates their segments. */
  lemma {:induction false} SplitOfPath(path: string, rest: string)
    ensures SplitDots(path + "." + rest) == SplitDots(path) + SplitDots(rest)
  {
    var whole := path + "." + rest;
    if path == "" {
      assert whole == "." + rest && whole[1..] == rest;
    } else {
      SplitOfPath(path[1..], rest);
      assert whole[0] == path[0] && whole[1..] == path[1..] + "." + rest;
      assert SplitDots(whole) == Prepend(path[0], SplitDots(whole[1..]));
      assert SplitDots(path) == Prepend(path[0], SplitDots(path[1..]));
      PrependGoesToTheFront(path[0], SplitDots(path[1..]), SplitDots(rest));
    }
  }

  lemma {:induction false} JoinOfSplit(path: string)
    ensures JoinDots(SplitDots(path)) == path
  {
    if path != "" {
      JoinOfSplit(path[1..]);
      var rest, all := SplitDots(path[1..]), SplitDots(path);
      if path[0] == '.' {
        assert all[1..] == rest;
      } else if |rest| > 1 {
        assert all[1..] == rest[1..];
      }
      assert path == [path[0]] + path[1..];
    }
  }

  /** What the segments lead to. */
  function At(value: Json, segments: seq<string>): Json
    requires Resolves(value, segments)
  {
    if segments == [] then value else At(value.fields[segments[0]], segments[1..])
  }

  /** Every key of `value` leads somewhere in `here`, and what it leads to covers what is under that key. */
  ghost predicate Covers(here: Json, value: Json)
    decreases value
  {
    value.Obj? ==> forall key :: key in value.fields ==>
      Resolves(here, SplitDots(key)) && Covers(At(here, SplitDots(key)), value.fields[key])
  }

  /** The sections of a snapshot have names. */
  predicate NamedSections(snapshot: Json) {
    snapshot.Obj? && "" !in snapshot.fields
  }

  lemma {:induction false} ResolvesInSteps(value: Json, first: seq<string>, second: seq<string>)
    ensures Resolves(value, first + second) <==> Resolves(value, first) && Resolves(At(value, first), second)
    ensures Resolves(value, first + second) ==> At(value, first + second) == At(At(value, first), second)
  {
    if first == [] {
      assert first + second == second;
    } else {
      assert (first + second)[1..] == first[1..] + second;
      if value.Obj? && first[0] in value.fields {
        ResolvesInSteps(value.fields[first[0]], first[1..], second);
      }
    }
  }

  ghost predicate AllResolve(root: Json, paths: set<string>) {
    forall path :: path in paths ==> ResolveFieldPath(root, path)
  }

  /** Where a path leads when a key is put behind it. */
  lemma OneKeyFurther(root: Json, prefix: string, here: Json, key: string)
    requires if prefix == "" then here == root && key != ""
             else ResolveFieldPath(root, prefix) && At(root, SplitDots(prefix)) == here
    ensures ResolveFieldPath(root, PathTo(prefix, key)) <==> Resolves(here, SplitDots(key))
    ensures ResolveFieldPath(root, PathTo(prefix, key)) ==>
      At(root, SplitDots(PathTo(prefix, key))) == At(here, SplitDots(key))
  {
    if prefix != "" {
      SplitOfPath(prefix, key);
      ResolvesInSteps(root, SplitDots(prefix), SplitDots(key));
    }
  }

  lemma {:induction false} ListedPathsResolveIff(root: Json, prefix: string, here: Json, value: Json)
    requires if prefix == "" then here == root && NamedSections(value)
             else ResolveFieldPath(root, prefix) && At(root, SplitDots(prefix)) == here
    ensures AllResolve(root, FlattenPaths(value, prefix)) <==> Covers(here, value)
    decreases value
  {
    hide Resolves, At, SplitDots;
    if value.Obj? {
      forall key | key in value.fields
        ensures ResolveFieldPath(root, PathTo(prefix, key)) <==> Resolves(here, SplitDots(key))
        ensures Resolves(here, SplitDots(key)) ==>
          (AllResolve(root, FlattenPaths(value.fields[key], PathTo(prefix, key)))
           <==> Covers(At(here, SplitDots(key)), value.fields[key]))
      {
        OneKeyFurther(root, prefix, here, key);
        if Resolves(here, SplitDots(key)) {
          ListedPathsResolveIff(root, PathTo(prefix, key), At(here, SplitDots(key)), value.fields[key]);
        }
      }
      AllResolveByKey(root, prefix, value);
    }
  }

  lemma AllResolveByKey(root: Json, prefix: string, value: Json)
    requires value.Obj?
    ensures AllResolve(root, FlattenPaths(value, prefix)) <==> forall key :: key in value.fields ==>
      && ResolveFieldPath(root, PathTo(prefix, key))
      && AllResolve(root, FlattenPaths(value.fields[key], PathTo(prefix, key)))
  {
    hide ResolveFieldPath;
    if AllResolve(root, FlattenPaths(value, prefix)) {
      forall key | key in value.fields
        ensures ResolveFieldPath(root, PathTo(prefix, key))
        ensures AllResolve(root, FlattenPaths(value.fields[key], PathTo(prefix, key)))
      {
        assert key in value.fields.Keys;
        assert PathTo(prefix, key) in FlattenPaths(value, prefix);
      }
    }
  }

  lemma ResolvingPathsAreListed(snapshot: Json, path: string)
    requires NamedSections(snapshot) && ResolveFieldPath(snapshot, path)
    ensures path in FlattenPaths(snapshot, "")
  {
    JoinOfSplit(path);
    ResolvingPathsAreFlattened(snapshot, "", SplitDots(path));
  }

  /** The paths listed for citation are exactly those that resolve, if and only if the snapshot covers itself. */
  lemma ListedAreTheResolvingIff(snapshot: Json)
    requires NamedSections(snapshot)
    ensures (forall path :: path in FlattenPaths(snapshot, "") <==> ResolveFieldPath(snapshot, path))
      <==> Covers(snapshot, snapshot)
  {
    hide Covers, FlattenPaths, ResolveFieldPath;
    ListedPathsResolveIff(snapshot, "", snapshot, snapshot);
    forall path | ResolveFieldPath(snapshot, path) ensures path in FlattenPaths(snapshot, "") {
      ResolvingPathsAreListed(snapshot, path);
    }
  }

  lemma {:induction false} PlainKeysCoverThemselves(value: Json)
    requires PlainKeys(value)
    ensures Covers(value, value)
    decreases value
  {
    if value.Obj? {
      forall key | key in value.fields
        ensures Resolves(value, SplitDots(key)) && Covers(At(value, SplitDots(key)), value.fields[key])
      {
        SplitOfPlain(key, "");
        PlainKeysCoverThemselves(value.fields[key]);
      }
    }
  }

  /** The set a citation is checked against holds exactly the paths that resolve, when every key is plain. */
  lemma FlattenedIffResolves(snapshot: Json, path: string)
    requires PlainKeys(snapshot)
    ensures path in FlattenPaths(snapshot, "") <==> ResolveFieldPath(snapshot, path)
  {
    if snapshot.Obj? {
      PlainKeysCoverThemselves(snapshot);
      ListedAreTheResolvingIff(snapshot);
    }
  }

  // -- snapshots that are partly keyed by data -------------------------------

  /** Plain fields, some, with no further structure. */
  ghost predicate IsEntry(entry: Json) {
    && entry.Obj? && entry.fields != map[]
    && forall key :: key in entry.fields ==> PlainKey(key) && !entry.fields[key].Obj?
  }

  /** An object whose keys are data, with an entry under each. */
  ghost predicate Keyed(section: Json) {
    section.Obj? && forall key :: key in section.fields ==> IsEntry(section.fields[key])
  }

  /** Plain names throughout, except in objects that are keyed by data. */
  ghost predicate Tidy(value: Json)
    decreases value
  {
    value.Obj? ==>
      Keyed(value) || forall key :: key in value.fields ==> PlainKey(key) && Tidy(value.fields[key])
  }

  /** No key has a dot, at any depth. */
  ghost predicate NoDottedKeys(value: Json)
    decreases value
  {
    value.Obj? ==> forall key :: key in value.fields ==> '.' !in key && NoDottedKeys(value.fields[key])
  }

  lemma EntriesCoverThemselves(entry: Json)
    requires IsEntry(entry)
    ensures Covers(entry, entry) && NoDottedKeys(entry)
  {
    forall key | key in entry.fields
      ensures Resolves(entry, SplitDots(key)) && Covers(At(entry, SplitDots(key)), entry.fields[key])
    {
      SplitOfPlain(key, "");
    }
  }

  /** A data key with a dot leads past the entry of another one, or nowhere: never to fields of its own. */
  lemma DottedKeysLeadAstray(section: Json, id: string)
    requires Keyed(section) && id in section.fields && '.' in id
    ensures !(Resolves(section, SplitDots(id)) && Covers(At(section, SplitDots(id)), section.fields[id]))
  {
    var segments := SplitDots(id);
    SegmentsOfADottedId(id);
    if Resolves(section, segments) {
      var other := section.fields[segments[0]];
      var rest := segments[1..];
      assert Resolves(other, rest) && rest[0] == segments[1];
      assert !other.fields[segments[1]].Obj?;
      assert Resolves(other.fields[rest[0]], rest[1..]);
      assert rest[1..] == [];
      assert At(section, segments) == At(other, rest) == other.fields[rest[0]];
      var key :| key in section.fields[id].fields;
      SplitOfPlain(key, "");
    }
  }

  lemma {:induction false} SegmentsOfADottedId(id: string)
    requires '.' in id
    ensures |SplitDots(id)| >= 2
  {
    if id[0] != '.' {
      SegmentsOfADottedId(id[1..]);
    }
  }

  lemma KeyedSectionsCoverThemselvesIff(section: Json)
    requires Keyed(section)
    ensures Covers(section, section) <==> NoDottedKeys(section)
  {
    hide SplitDots;
    forall id | id in section.fields
      ensures NoDottedKeys(section.fields[id])
      ensures Resolves(section, SplitDots(id)) && Covers(At(section, SplitDots(id)), section.fields[id]) <==> '.' !in id
    {
      EntriesCoverThemselves(section.fields[id]);
      if '.' in id {
        DottedKeysLeadAstray(section, id);
      } else {
        SplitOfPlain(id, "");
      }
    }
  }

  lemma PlainKeysLeadToTheirValue(value: Json, key: string)
    requires value.Obj? && key in value.fields && '.' !in key
    ensures Resolves(value, SplitDots(key)) && At(value, SplitDots(key)) == value.fields[key]
  {
    SplitOfPlain(key, "");
  }

  lemma {:induction false} TidyValuesCoverThemselvesIff(value: Json)
    requires Tidy(value)
    ensures Covers(value, value) <==> NoDottedKeys(value)
    decreases value
  {
    hide Resolves, At, SplitDots, Keyed;
    if Keyed(value) {
      KeyedSectionsCoverThemselvesIff(value);
    } else if value.Obj? {
      forall key | key in value.fields
        ensures Resolves(value, SplitDots(key)) && At(value, SplitDots(key)) == value.fields[key]
        ensures Covers(value.fields[key], value.fields[key]) <==> NoDottedKeys(value.fields[key])
      {
        PlainKeysLeadToTheirValue(value, key);
        TidyValuesCoverThemselvesIff(value.fields[key]);
      }
    }
  }

  /** The paths listed for citation are exactly those that resolve, if and only if no data key has a dot. */
  lemma ListedAreTheResolvingIffNoDottedKey(snapshot: Json)
    requires NamedSections(snapshot) && Tidy(snapshot)
    ensures (forall path :: path in FlattenPaths(snapshot, "") <==> ResolveFieldPath(snapshot, path))
      <==> NoDottedKeys(snapshot)
  {
    hide FlattenPaths, ResolveFieldPath, Tidy, NoDottedKeys;
    TidyValuesCoverThemselvesIff(snapshot);
    ListedAreTheResolvingIff(snapshot);
  }

  lemma {:induction false} SegmentsHaveNoDots(path: string)
    ensures forall s :: s in SplitDots(path) ==> '.' !in s
  {
    if path != "" {
      SegmentsHaveNoDots(path[1..]);
    }
  }

  /** A key with a dot below a plain one is listed as a path that does not resolve. */
  lemma DottedKeysAreListedButDoNotResolve(parent: string, key: string, child: Json)
    requires PlainKey(parent) && '.' in key
    ensures var snapshot, path := Obj(map[parent := Obj(map[key := child])]), PathTo(parent, key);
      path in FlattenPaths(snapshot, "") && !ResolveFieldPath(snapshot, path)
  {
    var inner := Obj(map[key := child]);
    var snapshot := Obj(map[parent := inner]);
    assert key in inner.fields.Keys && PathTo(parent, key) in FlattenPaths(inner, parent);
    assert parent in snapshot.fields.Keys && PathTo("", parent) == parent && snapshot.fields[parent] == inner;
    SplitOfPlain(parent, key);
    SegmentsHaveNoDots(key);
    var rest := SplitDots(key);
    assert rest[0] in rest;
    assert !Resolves(inner, rest);
    assert SplitDots(PathTo(parent, key)) == [parent] + rest && ([parent] + rest)[1..] == rest;
  }

  // -- evidence --------------------------------------------------------------

  const DIAGNOSTICS_ARTIFACT_ID := "analysis-diagnostics"
  const DIAGNOSTICS_MEDIA_TYPE := "application/json"
  const REAL_DIAGNOSTICS_SCHEMA := "footballai.analysis-diagnostics/v2"
  const SYNTHETIC_DIAGNOSTICS_SCHEMA := "footballai.analysis-diagnostics/v1"

  datatype EvidenceArtifact = EvidenceArtifact(
    id: string, sha256: string, schemaVersion: Option<string>, verified: bool)

  /** Reading the diagnostics artifact: it may fail, and what was read may not be finite JSON. */
  datatype Reading = Unreadable | NotFiniteJson | Read(payload: Json)

  /** What the object storage answers while one snapshot is built. */
  datatype StorageAnswers = StorageAnswers(diagnosticsIntact: bool, reading: Reading, intact: string -> bool)

  /** How approved fields are taken from a payload of a given schema; `None` when core fields are missing. */
  type Approval = (string, Json) -> Option<map<string, Json>>

  datatype Diagnostics = Diagnostics(
    approved: map<string, Json>, schema: string, artifactId: string, sha256: string)

  datatype MissingEvidence =
    | NotRegistered | NotJsonType | TooLarge | FailedIntegrity | CouldNotBeRead | InvalidJson | NotAnObject
    | DifferentRun | UnknownSchema | SchemaMismatch | FieldsMissing

  /** `paths` is the set of paths of the finished snapshot. */
  datatype RunEvidence = RunEvidence(
    runId: string, artifacts: seq<EvidenceArtifact>, diagnostics: Option<Diagnostics>, paths: set<string>)

  function FirstWithId(artifacts: seq<ArtifactReference>, id: string): Option<ArtifactReference> {
    if artifacts == [] then None
    else if artifacts[0].artifactId == id then Some(artifacts[0])
    else FirstWithId(artifacts[1..], id)
  }

  function SchemaOf(payload: Json): Option<string>
    requires payload.Obj?
  {
    if "schema" in payload.fields && payload.fields["schema"].Str? then Some(payload.fields["schema"].s) else None
  }

  /** The strict validation of the registered diagnostics artifact. */
  function LoadDiagnostics(run: AnalysisRun, storage: StorageAnswers, maxBytes: int, approve: Approval)
    : Result<Diagnostics, MissingEvidence>
  {
    match FirstWithId(run.artifacts, DIAGNOSTICS_ARTIFACT_ID)
    case None => Err(NotRegistered)
    case Some(reference) =>
      if reference.mediaType != DIAGNOSTICS_MEDIA_TYPE then Err(NotJsonType)
      else if reference.sizeBytes > maxBytes then Err(TooLarge)
      else if !storage.diagnosticsIntact then Err(FailedIntegrity)
      else if storage.reading.Unreadable? then Err(CouldNotBeRead)
      else if storage.reading.NotFiniteJson? then Err(InvalidJson)
      else
        var payload := storage.reading.payload;
        if !payload.Obj? then Err(NotAnObject)
        else if "run_id" in payload.fields && payload.fields["run_id"] != Str(run.runId) then Err(DifferentRun)
        else
          var schema := SchemaOf(payload);
          if schema != Some(REAL_DIAGNOSTICS_SCHEMA) && schema != Some(SYNTHETIC_DIAGNOSTICS_SCHEMA) then
            Err(UnknownSchema)
          else if reference.schemaVersion.Some? && reference.schemaVersion != schema then Err(SchemaMismatch)
          else match approve(schema.value, payload)
            case None => Err(FieldsMissing)
            case Some(approved) => Ok(Diagnostics(approved, schema.value, reference.artifactId, reference.sha256))
  }

  function StampedArtifacts(artifacts: seq<ArtifactReference>, intact: string -> bool): seq<EvidenceArtifact> {
    if artifacts == [] then []
    else
      var a := artifacts[0];
      [EvidenceArtifact(a.artifactId, a.sha256, a.schemaVersion, intact(a.artifactId))]
      + StampedArtifacts(artifacts[1..], intact)
  }

  /** The snapshot of a run. `describe` stands for the layout of its other sections. */
  function BuildEvidence(
      run: AnalysisRun, storage: StorageAnswers, maxBytes: int, approve: Approval,
      describe: (AnalysisRun, Option<Diagnostics>) -> Json): RunEvidence
  {
    var loaded := LoadDiagnostics(run, storage, maxBytes, approve);
    var diagnostics := if loaded.Ok? then Some(loaded.value) else None;
    RunEvidence(
      run.runId, StampedArtifacts(run.artifacts, storage.intact), diagnostics,
      FlattenPaths(describe(run, diagnostics), ""))
  }

  function ArtifactOf(artifacts: seq<EvidenceArtifact>, id: string): Option<EvidenceArtifact> {
    if artifacts == [] then None
    else if artifacts[0].id == id then Some(artifacts[0])
    else ArtifactOf(artifacts[1..], id)
  }

  // -- the catalog -----------------------------------------------------------

  /** What a claim says, and the paths that back it; `diagnosticPaths` are cited to the artifact. */
  datatype ClaimSpec = ClaimSpec(id: string, text: string, paths: seq<string>, diagnosticPaths: seq<string>)

  function Cite(evidence: RunEvidence, path: string, fromDiagnostics: bool): Option<Citation> {
    if path !in evidence.paths then None
    else match evidence.diagnostics
      case Some(d) =>
        if fromDiagnostics
        then Some(Citation(evidence.runId, path, Some(d.artifactId), Some(d.schema), Some(d.sha256)))
        else Some(Citation(evidence.runId, path, None, None, None))
      case None => Some(Citation(evidence.runId, path, None, None, None))
  }

  function CiteAll(evidence: RunEvidence, paths: seq<string>, fromDiagnostics: bool): seq<Citation> {
    if paths == [] then []
    else
      (match Cite(evidence, paths[0], fromDiagnostics) case None => [] case Some(c) => [c])
      + CiteAll(evidence, paths[1..], fromDiagnostics)
  }

  function MakeClaim(evidence: RunEvidence, spec: ClaimSpec): Claim {
    Claim(spec.id, spec.text, CiteAll(evidence, spec.paths, false) + CiteAll(evidence, spec.diagnosticPaths, true))
  }

  /** A claim without text, or that nothing backs, is not offered. */
  function BuildCatalog(evidence: RunEvidence, specs: seq<ClaimSpec>): seq<Claim> {
    if specs == [] then []
    else
      var claim := MakeClaim(evidence, specs[0]);
      (if claim.text != "" && claim.citations != [] then [claim] else []) + BuildCatalog(evidence, specs[1..])
  }

  predicate ValidCitation(c: Citation, evidence: RunEvidence, runId: string) {
    && c.runId == runId
    && c.fieldPath in evidence.paths
    && match c.artifactId
       case None => true
       case Some(id) =>
         match ArtifactOf(evidence.artifacts, id)
         case None => false
         case Some(artifact) =>
           && artifact.verified
           && (c.schemaVersion.Some? ==> c.schemaVersion == artifact.schemaVersion)
           && (c.sourceSha256.Some? ==> c.sourceSha256 == Some(artifact.sha256))
  }

  method ValidateCitations(citations: seq<Citation>, evidence: RunEvidence, runId: string)
    returns (forged: Option<GroundingError>)
    ensures forged.None? <==> forall c :: c in citations ==> ValidCitation(c, evidence, runId)
  {
    for i := 0 to |citations|
      invariant forall k :: 0 <= k < i ==> ValidCitation(citations[k], evidence, runId)
    {
      if !ValidCitation(citations[i], evidence, runId) {
        assert citations[i] in citations;
        return Some(ForgedCitation);
      }
    }
    return None;
  }

  // -- every citation the catalog makes --------------------------------------

  lemma {:induction false} CitationsComeFromCite(
      evidence: RunEvidence, paths: seq<string>, fromDiagnostics: bool, c: Citation)
    requires c in CiteAll(evidence, paths, fromDiagnostics)
    ensures c.fieldPath in evidence.paths && Cite(evidence, c.fieldPath, fromDiagnostics) == Some(c)
  {
    if Cite(evidence, paths[0], fromDiagnostics) != Some(c) {
      CitationsComeFromCite(evidence, paths[1..], fromDiagnostics, c);
    }
  }

  lemma {:induction false} CatalogClaimsComeFromSpecs(evidence: RunEvidence, specs: seq<ClaimSpec>, claim: Claim)
    requires claim in BuildCatalog(evidence, specs)
    ensures claim.text != "" && claim.citations != []
    ensures exists spec :: spec in specs && claim == MakeClaim(evidence, spec)
  {
    if claim != MakeClaim(evidence, specs[0]) {
      CatalogClaimsComeFromSpecs(evidence, specs[1..], claim);
      var spec :| spec in specs[1..] && claim == MakeClaim(evidence, spec);
      assert spec in specs;
    } else {
      assert specs[0] in specs;
      if !(claim.text != "" && claim.citations != []) {
        CatalogClaimsComeFromSpecs(evidence, specs[1..], claim);
      }
    }
  }

  lemma {:induction false} StampedArtifactMatches(artifacts: seq<ArtifactReference>, intact: string -> bool, id: string)
    ensures match FirstWithId(artifacts, id)
      case None => ArtifactOf(StampedArtifacts(artifacts, intact), id) == None
      case Some(a) =>
        ArtifactOf(StampedArtifacts(artifacts, intact), id)
        == Some(EvidenceArtifact(id, a.sha256, a.schemaVersion, intact(id)))
  {
    if artifacts != [] {
      StampedArtifactMatches(artifacts[1..], intact, id);
      assert StampedArtifacts(artifacts, intact)[1..] == StampedArtifacts(artifacts[1..], intact);
    }
  }

  // -- what is loaded, stamped, cited and offered ----------------------------

  /** The first artifact with an id. */
  ghost predicate IsFirst(artifacts: seq<ArtifactReference>, i: nat, id: string) {
    i < |artifacts| && artifacts[i].artifactId == id && forall j :: 0 <= j < i ==> artifacts[j].artifactId != id
  }

  lemma {:induction false} FirstWithIdIs(artifacts: seq<ArtifactReference>, id: string, i: nat)
    requires IsFirst(artifacts, i, id)
    ensures FirstWithId(artifacts, id) == Some(artifacts[i])
  {
    if i > 0 {
      FirstWithIdIs(artifacts[1..], id, i - 1);
    }
  }

  lemma {:induction false} NoneWithId(artifacts: seq<ArtifactReference>, id: string)
    ensures FirstWithId(artifacts, id).None? <==> forall a :: a in artifacts ==> a.artifactId != id
  {
    if artifacts != [] {
      NoneWithId(artifacts[1..], id);
    }
  }

  /** Every reason why there are no diagnostics, in the order of the checks; without one they are those approved. */
  lemma DiagnosticsAreLoadedIff(
      run: AnalysisRun, storage: StorageAnswers, maxBytes: int, approve: Approval, i: nat)
    requires IsFirst(run.artifacts, i, "analysis-diagnostics")
    ensures var loaded, a := LoadDiagnostics(run, storage, maxBytes, approve), run.artifacts[i];
      var small := a.mediaType == "application/json" && a.sizeBytes <= maxBytes;
      && (loaded == Err(NotJsonType) <==> a.mediaType != "application/json")
      && (loaded == Err(TooLarge) <==> a.mediaType == "application/json" && a.sizeBytes > maxBytes)
      && (loaded == Err(FailedIntegrity) <==> small && !storage.diagnosticsIntact)
      && (loaded == Err(CouldNotBeRead) <==> small && storage.diagnosticsIntact && storage.reading == Unreadable)
      && (loaded == Err(InvalidJson) <==> small && storage.diagnosticsIntact && storage.reading == NotFiniteJson)
      && (loaded == Err(NotAnObject) <==>
            small && storage.diagnosticsIntact && storage.reading.Read? && !storage.reading.payload.Obj?)
      && loaded != Err(NotRegistered)
    ensures var loaded, a := LoadDiagnostics(run, storage, maxBytes, approve), run.artifacts[i];
      a.mediaType == "application/json" && a.sizeBytes <= maxBytes && storage.diagnosticsIntact
      && storage.reading.Read? && storage.reading.payload.Obj? ==>
        var fields := storage.reading.payload.fields;
        var ofThisRun := "run_id" !in fields || fields["run_id"] == Str(run.runId);
        var known := "schema" in fields && fields["schema"] in {
          Str("footballai.analysis-diagnostics/v2"), Str("footballai.analysis-diagnostics/v1")};
        && (loaded == Err(DifferentRun) <==> !ofThisRun)
        && (loaded == Err(UnknownSchema) <==> ofThisRun && !known)
        && (ofThisRun && known ==>
              var schema := fields["schema"].s;
              var fits := a.schemaVersion in {None, Some(schema)};
              var approved := approve(schema, storage.reading.payload);
              && (loaded == Err(SchemaMismatch) <==> !fits)
              && (loaded == Err(FieldsMissing) <==> fits && approved == None)
              && (fits && approved.Some? ==>
                    loaded == Ok(Diagnostics(approved.value, schema, "analysis-diagnostics", a.sha256))))
  {
    FirstWithIdIs(run.artifacts, DIAGNOSTICS_ARTIFACT_ID, i);
  }

  lemma UnregisteredDiagnosticsAreNotLoaded(
      run: AnalysisRun, storage: StorageAnswers, maxBytes: int, approve: Approval)
    ensures LoadDiagnostics(run, storage, maxBytes, approve) == Err(NotRegistered)
      <==> forall a :: a in run.artifacts ==> a.artifactId != "analysis-diagnostics"
  {
    NoneWithId(run.artifacts, DIAGNOSTICS_ARTIFACT_ID);
  }

  /** Each artifact is stamped in its place, as registered, with what its integrity check said. */
  lemma {:induction false} ArtifactsAreStampedInPlace(
      artifacts: seq<ArtifactReference>, intact: string -> bool, i: nat)
    requires i < |artifacts|
    ensures var stamped := StampedArtifacts(artifacts, intact);
      && |stamped| == |artifacts|
      && stamped[i] == EvidenceArtifact(
           artifacts[i].artifactId, artifacts[i].sha256, artifacts[i].schemaVersion, intact(artifacts[i].artifactId))
  {
    if |artifacts| > 1 {
      ArtifactsAreStampedInPlace(artifacts[1..], intact, if i > 0 then i - 1 else 0);
    }
  }

  lemma {:induction false} ArtifactOfIs(artifacts: seq<EvidenceArtifact>, i: nat)
    requires i < |artifacts| && forall j :: 0 <= j < i ==> artifacts[j].id != artifacts[i].id
    ensures ArtifactOf(artifacts, artifacts[i].id) == Some(artifacts[i])
  {
    if i > 0 {
      ArtifactOfIs(artifacts[1..], i - 1);
    }
  }

  lemma {:induction false} ArtifactsAreFoundIff(artifacts: seq<EvidenceArtifact>, id: string)
    ensures ArtifactOf(artifacts, id).Some? <==> exists j :: 0 <= j < |artifacts| && artifacts[j].id == id
  {
    if artifacts != [] {
      ArtifactsAreFoundIff(artifacts[1..], id);
      assert forall j :: 0 < j < |artifacts| ==> artifacts[j] == artifacts[1..][j - 1];
      if j :| 0 <= j < |artifacts[1..]| && artifacts[1..][j].id == id {
        assert artifacts[j + 1].id == id;
      }
    }
  }

  /**
   * A citation is accepted exactly when it is of this run and of a listed path, and the artifact it names, if any, was
   * stamped intact and has the schema and the digest it names, if any.
   */
  lemma CitationsAreValidIff(c: Citation, evidence: RunEvidence, runId: string)
    ensures c.runId != runId || c.fieldPath !in evidence.paths ==> !ValidCitation(c, evidence, runId)
    ensures c.runId == runId && c.fieldPath in evidence.paths && c.artifactId == None ==>
      ValidCitation(c, evidence, runId)
    ensures c.artifactId.Some? && (forall a :: a in evidence.artifacts ==> a.id != c.artifactId.value) ==>
      !ValidCitation(c, evidence, runId)
    ensures forall i ::
      0 <= i < |evidence.artifacts| && c.artifactId == Some(evidence.artifacts[i].id)
      && (forall j :: 0 <= j < i ==> evidence.artifacts[j].id != evidence.artifacts[i].id) ==>
        (ValidCitation(c, evidence, runId) <==>
          && c.runId == runId && c.fieldPath in evidence.paths && evidence.artifacts[i].verified
          && (c.schemaVersion == None || c.schemaVersion == evidence.artifacts[i].schemaVersion)
          && (c.sourceSha256 == None || c.sourceSha256 == Some(evidence.artifacts[i].sha256)))
  {
    forall i | 0 <= i < |evidence.artifacts| && c.artifactId == Some(evidence.artifacts[i].id)
        && (forall j :: 0 <= j < i ==> evidence.artifacts[j].id != evidence.artifacts[i].id)
      ensures ArtifactOf(evidence.artifacts, evidence.artifacts[i].id) == Some(evidence.artifacts[i])
    {
      ArtifactOfIs(evidence.artifacts, i);
    }
    if c.artifactId.Some? {
      ArtifactsAreFoundIff(evidence.artifacts, c.artifactId.value);
    }
  }

  /** One path yields one citation when it is listed, to the diagnostics artifact if it comes from there. */
  lemma OnePathIsCited(evidence: RunEvidence, path: string, fromDiagnostics: bool)
    ensures CiteAll(evidence, [path], fromDiagnostics) ==
      if path !in evidence.paths then []
      else if fromDiagnostics && evidence.diagnostics.Some? then
        var d := evidence.diagnostics.value;
        [Citation(evidence.runId, path, Some(d.artifactId), Some(d.schema), Some(d.sha256))]
      else [Citation(evidence.runId, path, None, None, None)]
  {
    assert CiteAll(evidence, [], fromDiagnostics) == [];
  }

  lemma {:induction false} PathsAreCitedInOrder(
      evidence: RunEvidence, first: seq<string>, second: seq<string>, fromDiagnostics: bool)
    ensures CiteAll(evidence, first + second, fromDiagnostics)
      == CiteAll(evidence, first, fromDiagnostics) + CiteAll(evidence, second, fromDiagnostics)
  {
    hide CiteAll;
    OneMorePath(evidence, first, fromDiagnostics);
    if first == [] {
      assert first + second == second;
    } else {
      PathsAreCitedInOrder(evidence, first[1..], second, fromDiagnostics);
      OneMorePath(evidence, first + second, fromDiagnostics);
      assert (first + second)[1..] == first[1..] + second;
    }
  }

  lemma OneMorePath(evidence: RunEvidence, paths: seq<string>, fromDiagnostics: bool)
    ensures paths == [] ==> CiteAll(evidence, paths, fromDiagnostics) == []
    ensures paths != [] ==>
      var cited := Cite(evidence, paths[0], fromDiagnostics);
      CiteAll(evidence, paths, fromDiagnostics)
      == (if cited.Some? then [cited.value] else []) + CiteAll(evidence, paths[1..], fromDiagnostics)
  {
    hide Cite;
  }

  /** A specification is offered exactly when it has a text and at least one of its paths is listed. */
  lemma OneSpecIsOffered(evidence: RunEvidence, spec: ClaimSpec)
    ensures BuildCatalog(evidence, [spec]) ==
      if spec.text != "" && (exists path :: path in spec.paths + spec.diagnosticPaths && path in evidence.paths)
      then [Claim(spec.id, spec.text,
        CiteAll(evidence, spec.paths, false) + CiteAll(evidence, spec.diagnosticPaths, true))]
      else []
  {
    SomePathIsCitedIff(evidence, spec.paths, false);
    SomePathIsCitedIff(evidence, spec.diagnosticPaths, true);
    assert BuildCatalog(evidence, []) == [];
  }

  lemma {:induction false} SomePathIsCitedIff(evidence: RunEvidence, paths: seq<string>, fromDiagnostics: bool)
    ensures CiteAll(evidence, paths, fromDiagnostics) != [] <==> exists path :: path in paths && path in evidence.paths
  {
    if paths != [] {
      SomePathIsCitedIff(evidence, paths[1..], fromDiagnostics);
      if path :| path in paths && path in evidence.paths {
        assert path == paths[0] || path in paths[1..];
      }
    }
  }

  lemma {:induction false} SpecsAreOfferedInOrder(
      evidence: RunEvidence, first: seq<ClaimSpec>, second: seq<ClaimSpec>)
    ensures BuildCatalog(evidence, first + second) == BuildCatalog(evidence, first) + BuildCatalog(evidence, second)
  {
    hide MakeClaim, BuildCatalog;
    if first == [] {
      assert first + second == second && BuildCatalog(evidence, []) == [] by { OneMoreSpec(evidence, first); }
    } else {
      SpecsAreOfferedInOrder(evidence, first[1..], second);
      assert (first + second)[1..] == first[1..] + second;
      OneMoreSpec(evidence, first);
      OneMoreSpec(evidence, first + second);
    }
  }

  lemma OneMoreSpec(evidence: RunEvidence, specs: seq<ClaimSpec>)
    ensures specs == [] ==> BuildCatalog(evidence, specs) == []
    ensures specs != [] ==>
      var claim := MakeClaim(evidence, specs[0]);
      BuildCatalog(evidence, specs)
      == (if claim.text != "" && claim.citations != [] then [claim] else []) + BuildCatalog(evidence, specs[1..])
  {
  }

  /** The evidence of a run: its id, its stamped artifacts, what was loaded, and the paths of what was described. */
  lemma EvidenceIsOfTheRun(
      run: AnalysisRun, storage: StorageAnswers, maxBytes: int, approve: Approval,
      describe: (AnalysisRun, Option<Diagnostics>) -> Json)
    ensures var evidence := BuildEvidence(run, storage, maxBytes, approve, describe);
      && evidence.runId == run.runId
      && |evidence.artifacts| == |run.artifacts|
      && (forall i :: 0 <= i < |run.artifacts| ==> evidence.artifacts[i] == EvidenceArtifact(
            run.artifacts[i].artifactId, run.artifacts[i].sha256, run.artifacts[i].schemaVersion,
            storage.intact(run.artifacts[i].artifactId)))
      && (evidence.diagnostics.Some? <==> LoadDiagnostics(run, storage, maxBytes, approve).Ok?)
      && (evidence.diagnostics.Some? ==>
            Ok(evidence.diagnostics.value) == LoadDiagnostics(run, storage, maxBytes, approve))
  {
    forall i | 0 <= i < |run.artifacts|
      ensures |StampedArtifacts(run.artifacts, storage.intact)| == |run.artifacts|
      ensures StampedArtifacts(run.artifacts, storage.intact)[i] == EvidenceArtifact(
        run.artifacts[i].artifactId, run.artifacts[i].sha256, run.artifacts[i].schemaVersion,
        storage.intact(run.artifacts[i].artifactId))
    {
      ArtifactsAreStampedInPlace(run.artifacts, storage.intact, i);
    }
  }

  /** Whether the diagnostics artifact can still be cited: registered with a schema, and intact when stamped. */
  predicate DiagnosticsCitable(run: AnalysisRun, storage: StorageAnswers) {
    match FirstWithId(run.artifacts, DIAGNOSTICS_ARTIFACT_ID)
    case None => false
    case Some(reference) => reference.schemaVersion.Some? && storage.intact(DIAGNOSTICS_ARTIFACT_ID)
  }

  lemma {:induction false} FirstHasItsId(artifacts: seq<ArtifactReference>, id: string)
    ensures FirstWithId(artifacts, id).Some? ==> FirstWithId(artifacts, id).value.artifactId == id
  {
    if artifacts != [] {
      FirstHasItsId(artifacts[1..], id);
    }
  }

  /** A citation of the catalog is valid exactly when it cites no artifact or the diagnostics artifact is citable. */
  lemma CitationIsValidIff(
      run: AnalysisRun, storage: StorageAnswers, maxBytes: int, approve: Approval,
      describe: (AnalysisRun, Option<Diagnostics>) -> Json, path: string, fromDiagnostics: bool)
    requires path in BuildEvidence(run, storage, maxBytes, approve, describe).paths
    ensures var evidence := BuildEvidence(run, storage, maxBytes, approve, describe);
      var c := Cite(evidence, path, fromDiagnostics).value;
      ValidCitation(c, evidence, run.runId) <==> (c.artifactId.None? || DiagnosticsCitable(run, storage))
  {
    StampedArtifactMatches(run.artifacts, storage.intact, DIAGNOSTICS_ARTIFACT_ID);
    FirstHasItsId(run.artifacts, DIAGNOSTICS_ARTIFACT_ID);
  }

  /** Some claim of the catalog cites an artifact. */
  ghost predicate CitesAnArtifact(catalog: seq<Claim>) {
    exists claim, c :: claim in catalog && c in claim.citations && c.artifactId.Some?
  }

  ghost predicate AllCitationsValid(catalog: seq<Claim>, evidence: RunEvidence, runId: string) {
    forall claim, c :: claim in catalog && c in claim.citations ==> ValidCitation(c, evidence, runId)
  }

  lemma CatalogCitationIsValidIff(
      run: AnalysisRun, storage: StorageAnswers, maxBytes: int, approve: Approval,
      describe: (AnalysisRun, Option<Diagnostics>) -> Json, specs: seq<ClaimSpec>, claim: Claim, c: Citation)
    requires claim in BuildCatalog(BuildEvidence(run, storage, maxBytes, approve, describe), specs)
    requires c in claim.citations
    ensures ValidCitation(c, BuildEvidence(run, storage, maxBytes, approve, describe), run.runId)
      <==> (c.artifactId.None? || DiagnosticsCitable(run, storage))
  {
    var evidence := BuildEvidence(run, storage, maxBytes, approve, describe);
    CatalogClaimsComeFromSpecs(evidence, specs, claim);
    var spec :| spec in specs && claim == MakeClaim(evidence, spec);
    var fromDiagnostics := c in CiteAll(evidence, spec.diagnosticPaths, true);
    CitationsComeFromCite(evidence, if fromDiagnostics then spec.diagnosticPaths else spec.paths, fromDiagnostics, c);
    CitationIsValidIff(run, storage, maxBytes, approve, describe, c.fieldPath, fromDiagnostics);
  }

  /**
   * Every citation of every claim passes validation against the same evidence, exactly when no claim cites the
   * diagnostics artifact, or that artifact is registered with a schema version and was intact when it was stamped.
   */
  lemma CatalogValidatesIff(
      run: AnalysisRun, storage: StorageAnswers, maxBytes: int, approve: Approval,
      describe: (AnalysisRun, Option<Diagnostics>) -> Json, specs: seq<ClaimSpec>)
    ensures var evidence := BuildEvidence(run, storage, maxBytes, approve, describe);
      var catalog := BuildCatalog(evidence, specs);
      AllCitationsValid(catalog, evidence, run.runId)
      <==> (!CitesAnArtifact(catalog) || DiagnosticsCitable(run, storage))
  {
    var evidence := BuildEvidence(run, storage, maxBytes, approve, describe);
    var catalog := BuildCatalog(evidence, specs);
    forall claim, c | claim in catalog && c in claim.citations
      ensures ValidCitation(c, evidence, run.runId) <==> (c.artifactId.None? || DiagnosticsCitable(run, storage))
    {
      CatalogCitationIsValidIff(run, storage, maxBytes, approve, describe, specs, claim, c);
    }
    if CitesAnArtifact(catalog) && !DiagnosticsCitable(run, storage) {
      var claim, c :| claim in catalog && c in claim.citations && c.artifactId.Some?;
      assert !ValidCitation(c, evidence, run.runId);
    }
  }
}
