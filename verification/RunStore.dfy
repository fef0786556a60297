/** Provider-neutral rules for how one stored attempt may change. */
module Lifecycle {
  import opened Common
  import opened RunContract

  /** The identity and provenance that an attempt fixes at creation. */
  datatype Field =
    | ContractVersionField | LogicalIdField | RunIdField | AttemptField | PreviousRunIdField | OriginField
    | InputField | CodeField | PipelineVersionField | ParametersField | ModelsField | CreatedAtField

  const IMMUTABLE_FIELDS: seq<Field> := [
    ContractVersionField, LogicalIdField, RunIdField, AttemptField, PreviousRunIdField, OriginField,
    InputField, CodeField, PipelineVersionField, ParametersField, ModelsField, CreatedAtField]

  predicate Differs(a: AnalysisRun, b: AnalysisRun, field: Field) {
    match field
    case ContractVersionField => a.contractVersion != b.contractVersion
    case LogicalIdField => a.logicalId != b.logicalId
    case RunIdField => a.runId != b.runId
    case AttemptField => a.attempt != b.attempt
    case PreviousRunIdField => a.previousRunId != b.previousRunId
    case OriginField => a.origin != b.origin
    case InputField => a.input != b.input
    case CodeField => a.code != b.code
    case PipelineVersionField => a.pipelineVersion != b.pipelineVersion
    case ParametersField => a.parameters != b.parameters
    case ModelsField => a.models != b.models
    case CreatedAtField => a.createdAt != b.createdAt
  }

  function Permitted(status: RunStatus): Option<set<RunStatus>> {
    match status
    case Queued => Some({Queued, Running, Failed, Cancelled})
    case Running => Some({Running, Succeeded, Partial, Failed, Cancelled})
    case _ => None
  }

  function ChangedFields(current: AnalysisRun, updated: AnalysisRun, fields: seq<Field>): seq<Field> {
    if fields == [] then []
    else (if Differs(current, updated, fields[0]) then [fields[0]] else [])
         + ChangedFields(current, updated, fields[1..])
  }

  datatype TransitionError = NotQueued | TerminalIsImmutable | NotPermitted | ProvenanceChanged

  function EnsureCreatable(run: AnalysisRun): Option<TransitionError> {
    if run.status.Queued? then None else Some(NotQueued)
  }

  function EnsureTransitionAllowed(current: AnalysisRun, updated: AnalysisRun): Option<TransitionError> {
    if current.status.Terminal() then Some(TerminalIsImmutable)
    else match Permitted(current.status)
      case None => Some(NotPermitted)
      case Some(next) =>
        if updated.status !in next then Some(NotPermitted)
        else if ChangedFields(current, updated, IMMUTABLE_FIELDS) != [] then Some(ProvenanceChanged)
        else None
  }

  // -- histories of one attempt ----------------------------------------------

  /** Everything that never changes after creation. */
  predicate SameProvenance(a: AnalysisRun, b: AnalysisRun) {
    && a.contractVersion == b.contractVersion && a.logicalId == b.logicalId && a.runId == b.runId
    && a.attempt == b.attempt && a.previousRunId == b.previousRunId && a.origin == b.origin
    && a.input == b.input && a.code == b.code && a.pipelineVersion == b.pipelineVersion
    && a.parameters == b.parameters && a.models == b.models && a.createdAt == b.createdAt
  }

  function Rank(status: RunStatus): nat {
    match status
    case Queued => 0
    case Running => 1
    case _ => 2
  }

  /** `later` can be `earlier` some saves on: same provenance, no step back, and nothing after the end. */
  predicate Succeeds(earlier: AnalysisRun, later: AnalysisRun) {
    && SameProvenance(earlier, later)
    && Rank(earlier.status) <= Rank(later.status)
    && (earlier.status.Terminal() ==> later == earlier)
  }

  lemma {:induction false} NoChangedFieldMeansNoDifference(
      current: AnalysisRun, updated: AnalysisRun, fields: seq<Field>)
    ensures ChangedFields(current, updated, fields) == [] <==>
      forall f :: f in fields ==> !Differs(current, updated, f)
  {
    if fields != [] {
      NoChangedFieldMeansNoDifference(current, updated, fields[1..]);
      assert fields == [fields[0]] + fields[1..];
    }
  }

  lemma EveryFieldIsListed(f: Field)
    ensures f in IMMUTABLE_FIELDS
  {
    match f {
      case ContractVersionField => assert IMMUTABLE_FIELDS[0] == f;
      case LogicalIdField => assert IMMUTABLE_FIELDS[1] == f;
      case RunIdField => assert IMMUTABLE_FIELDS[2] == f;
      case AttemptField => assert IMMUTABLE_FIELDS[3] == f;
      case PreviousRunIdField => assert IMMUTABLE_FIELDS[4] == f;
      case OriginField => assert IMMUTABLE_FIELDS[5] == f;
      case InputField => assert IMMUTABLE_FIELDS[6] == f;
      case CodeField => assert IMMUTABLE_FIELDS[7] == f;
      case PipelineVersionField => assert IMMUTABLE_FIELDS[8] == f;
      case ParametersField => assert IMMUTABLE_FIELDS[9] == f;
      case ModelsField => assert IMMUTABLE_FIELDS[10] == f;
      case CreatedAtField => assert IMMUTABLE_FIELDS[11] == f;
    }
  }

  /** The fields are all of the provenance, and nothing else. */
  lemma FieldsAreTheProvenance(a: AnalysisRun, b: AnalysisRun)
    ensures (forall f: Field :: !Differs(a, b, f)) <==> SameProvenance(a, b)
  {
    if forall f: Field :: !Differs(a, b, f) {
      assert !Differs(a, b, ContractVersionField) && !Differs(a, b, LogicalIdField) && !Differs(a, b, RunIdField);
      assert !Differs(a, b, AttemptField) && !Differs(a, b, PreviousRunIdField) && !Differs(a, b, OriginField);
      assert !Differs(a, b, InputField) && !Differs(a, b, CodeField) && !Differs(a, b, PipelineVersionField);
      assert !Differs(a, b, ParametersField) && !Differs(a, b, ModelsField) && !Differs(a, b, CreatedAtField);
    }
  }

  /** All but status, artifacts, stages, times and reasons is provenance. */
  lemma ProvenanceIsTheRest(a: AnalysisRun, b: AnalysisRun)
    ensures SameProvenance(a, b) <==> b == a.(
      status := b.status, artifacts := b.artifacts, stages := b.stages, startedAt := b.startedAt,
      completedAt := b.completedAt, failure := b.failure, partialReason := b.partialReason,
      cancellationReason := b.cancellationReason)
  {
  }

  /** The lifecycle rules accept a successor exactly when it keeps the provenance and moves to a permitted status. */
  lemma TransitionAllowedIff(current: AnalysisRun, updated: AnalysisRun)
    ensures EnsureTransitionAllowed(current, updated).None? <==>
      && !current.status.Terminal()
      && SameProvenance(current, updated)
      && (current.status.Queued? ==> !updated.status.Succeeded? && !updated.status.Partial?)
      && (current.status.Running? ==> !updated.status.Queued?)
  {
    NoChangedFieldMeansNoDifference(current, updated, IMMUTABLE_FIELDS);
    FieldsAreTheProvenance(current, updated);
    forall f: Field ensures f in IMMUTABLE_FIELDS {
      EveryFieldIsListed(f);
    }
  }
}

/** The local store: manifests, write-once artifact files, and sticky cancellation marks. */
module RunStore {
  import opened Common
  import opened RunContract
  import opened Lifecycle

  newtype Byte = b: int | 0 <= b < 256
  type Bytes = seq<Byte>
  type Digest = Bytes -> string

  datatype StoreError =
    | NotFound | AlreadyExists | NotQueuedAtCreation | TerminalManifest | StatusNotAllowed | ProvenanceConflict
    | ArtifactMismatch | NotRunning | UnsafePath | FileExists

  // -- artifact paths --------------------------------------------------------

  function SplitPath(path: string): (parts: seq<string>)
    ensures parts != []
  {
    if path == "" then [""]
    else
      var rest := SplitPath(path[1..]);
      if path[0] == '/' then [""] + rest else [[path[0]] + rest[0]] + rest[1..]
  }

  /** A normalized POSIX path that names something below the run's `artifacts` directory. */
  predicate SafeArtifactPath(path: string) {
    var parts := SplitPath(path);
    && '\\' !in path
    && |parts| >= 2
    && parts[0] == "artifacts"
    && forall p :: p in parts ==> p != "" && p != "." && p != ".."
  }

  // -- stored state ----------------------------------------------------------

  /** The files of a run, by path. A file is only ever created, never replaced. */
  type Files = map<string, Bytes>

  datatype Store = Store(runs: map<string, AnalysisRun>, files: map<string, Files>, cancelMarks: set<string>)

  function FilesOf(s: Store, runId: string): Files {
    if runId in s.files then s.files[runId] else map[]
  }

  predicate FileMatches(digest: Digest, files: Files, a: ArtifactReference) {
    && a.relativePath in files
    && |files[a.relativePath]| == a.sizeBytes
    && digest(files[a.relativePath]) == a.sha256
  }

  predicate VerifyArtifacts(digest: Digest, files: Files, artifacts: seq<ArtifactReference>) {
    forall a :: a in artifacts ==> FileMatches(digest, files, a)
  }

  /** The statuses a stored status may be replaced with, as the store spells them out itself. */
  const ALLOWED: map<RunStatus, set<RunStatus>> := map[
    Queued := {Queued, Running, Failed, Cancelled},
    Running := {Running, Succeeded, Partial, Failed, Cancelled}]

  const STORE_IMMUTABLE_FIELDS: set<Field> := {
    ContractVersionField, LogicalIdField, RunIdField, AttemptField, PreviousRunIdField, OriginField,
    InputField, CodeField, PipelineVersionField, ParametersField, ModelsField, CreatedAtField}

  function SaveRefusal(digest: Digest, s: Store, run: AnalysisRun): Option<StoreError> {
    if run.runId !in s.runs then Some(NotFound)
    else
      var current := s.runs[run.runId];
      if current.status.Terminal() then Some(TerminalManifest)
      else if current.status !in ALLOWED || run.status !in ALLOWED[current.status] then Some(StatusNotAllowed)
      else if exists f :: f in STORE_IMMUTABLE_FIELDS && Differs(current, run, f) then Some(ProvenanceConflict)
      else if (run.status.Succeeded? || run.status.Partial?)
              && !VerifyArtifacts(digest, FilesOf(s, run.runId), run.artifacts) then Some(ArtifactMismatch)
      else None
  }

  function CreateRefusal(s: Store, run: AnalysisRun): Option<StoreError> {
    if !run.status.Queued? then Some(NotQueuedAtCreation)
    else if run.runId in s.runs then Some(AlreadyExists)
    else None
  }

  function WithRun(s: Store, run: AnalysisRun): Store {
    s.(runs := s.runs[run.runId := run])
  }

  /** What the first half of an artifact write checks, before any byte is linked into place. */
  function WriteRefusal(s: Store, runId: string, path: string): Option<StoreError> {
    if runId !in s.runs then Some(NotFound)
    else if !s.runs[runId].status.Running? then Some(NotRunning)
    else if !SafeArtifactPath(path) then Some(UnsafePath)
    else None
  }

  /** The second half: exclusive creation. */
  function WithFile(s: Store, runId: string, path: string, content: Bytes): Store {
    s.(files := s.files[runId := FilesOf(s, runId)[path := content]])
  }

  function Marked(s: Store, runId: string): Store {
    if runId in s.runs && !s.runs[runId].status.Terminal() then s.(cancelMarks := s.cancelMarks + {runId}) else s
  }

  lemma SameStatusRules(status: RunStatus, next: RunStatus)
    ensures !status.Terminal() ==>
      Permitted(status).Some? && status in ALLOWED && (next in Permitted(status).value <==> next in ALLOWED[status])
  {
  }

  lemma SameFieldRules(a: AnalysisRun, b: AnalysisRun)
    ensures (exists f :: f in STORE_IMMUTABLE_FIELDS && Differs(a, b, f)) <==> !SameProvenance(a, b)
  {
    FieldsAreTheProvenance(a, b);
    forall f: Field ensures f in STORE_IMMUTABLE_FIELDS {
      match f
      case ContractVersionField => case LogicalIdField => case RunIdField => case AttemptField =>
      case PreviousRunIdField => case OriginField => case InputField => case CodeField =>
      case PipelineVersionField => case ParametersField => case ModelsField => case CreatedAtField =>
    }
  }

  /** The rules the store spells out are those of the shared lifecycle, apart from its artifact check. */
  lemma SaveFollowsTheLifecycle(digest: Digest, s: Store, run: AnalysisRun)
    requires run.runId in s.runs
    ensures
      SaveRefusal(digest, s, run).None? <==>
        && EnsureTransitionAllowed(s.runs[run.runId], run).None?
        && (run.status.Succeeded? || run.status.Partial? ==>
          VerifyArtifacts(digest, FilesOf(s, run.runId), run.artifacts))
  {
    var current := s.runs[run.runId];
    SameStatusRules(current.status, run.status);
    SameFieldRules(current, run);
    TransitionAllowedIff(current, run);
  }

  /** Creation adds one rule to the shared one: the namespace must be free. */
  lemma CreateFollowsTheLifecycle(s: Store, run: AnalysisRun)
    ensures CreateRefusal(s, run).None? <==> EnsureCreatable(run).None? && run.runId !in s.runs
  {
  }

  // -- what the store answers ------------------------------------------------

  /** Every answer to a save, in the order of the checks, with the artifacts read from the stored files. */
  lemma SavesAreAnsweredIff(digest: Digest, s: Store, run: AnalysisRun)
    ensures SaveRefusal(digest, s, run) == Some(NotFound) <==> run.runId !in s.runs
    ensures run.runId in s.runs ==>
      var refusal, current := SaveRefusal(digest, s, run), s.runs[run.runId];
      var ended := current.status in {Succeeded, Partial, Failed, Cancelled};
      var forbidden :=
        if current.status == Queued then run.status in {Succeeded, Partial} else run.status == Queued;
      var kept := SameProvenance(current, run);
      var damaged := run.status in {Succeeded, Partial} && exists a ::
        a in run.artifacts && !(
          && run.runId in s.files && a.relativePath in s.files[run.runId]
          && |s.files[run.runId][a.relativePath]| == a.sizeBytes
          && digest(s.files[run.runId][a.relativePath]) == a.sha256);
      && (refusal == Some(TerminalManifest) <==> ended)
      && (refusal == Some(StatusNotAllowed) <==> !ended && forbidden)
      && (refusal == Some(ProvenanceConflict) <==> !ended && !forbidden && !kept)
      && (refusal == Some(ArtifactMismatch) <==> !ended && !forbidden && kept && damaged)
      && (refusal == None <==> !ended && !forbidden && kept && !damaged)
  {
    if run.runId in s.runs {
      AllowedStatuses(s.runs[run.runId].status, run.status);
      SameFieldRules(s.runs[run.runId], run);
    }
  }

  lemma AllowedStatuses(status: RunStatus, next: RunStatus)
    ensures status in ALLOWED <==> status in {Queued, Running}
    ensures status == Queued ==> (next in ALLOWED[status] <==> next !in {Succeeded, Partial})
    ensures status == Running ==> (next in ALLOWED[status] <==> next != Queued)
  {
  }

  /** Every answer to the checks before an artifact is written. */
  lemma WritesAreAnsweredIff(s: Store, runId: string, path: string)
    ensures WriteRefusal(s, runId, path) == Some(NotFound) <==> runId !in s.runs
    ensures WriteRefusal(s, runId, path) == Some(NotRunning) <==> runId in s.runs && s.runs[runId].status != Running
    ensures WriteRefusal(s, runId, path) == Some(UnsafePath) <==>
      runId in s.runs && s.runs[runId].status == Running && !NamesAnArtifact(path)
    ensures WriteRefusal(s, runId, path) == None <==>
      runId in s.runs && s.runs[runId].status == Running && NamesAnArtifact(path)
  {
    hide SafeArtifactPath, NamesAnArtifact;
    SafePathsNameArtifacts(path);
  }

  predicate PlainName(name: string) {
    name != "" && name != "." && name != ".." && '/' !in name && '\\' !in name
  }

  function Slashed(names: seq<string>): string {
    if names == [] then "" else "/" + names[0] + Slashed(names[1..])
  }

  /** `artifacts`, followed by one or more names, none of them empty or a step to the same or an outer directory. */
  ghost predicate NamesAnArtifact(path: string) {
    exists names: seq<string> ::
      && names != [] && path == "artifacts" + Slashed(names)
      && forall name :: name in names ==> PlainName(name)
  }

  lemma {:induction false} PartsHaveNoSlash(path: string)
    ensures forall part :: part in SplitPath(path) ==> '/' !in part
    ensures '\\' !in path ==> forall part :: part in SplitPath(path) ==> '\\' !in part
    ensures path == SplitPath(path)[0] + Slashed(SplitPath(path)[1..])
  {
    if path != "" {
      PartsHaveNoSlash(path[1..]);
      var rest, all := SplitPath(path[1..]), SplitPath(path);
      if path[0] == '/' {
        assert all[1..] == rest;
        assert "/" + rest[0] + Slashed(rest[1..]) == "/" + path[1..];
      } else {
        assert all[1..] == rest[1..];
        assert [path[0]] + rest[0] + Slashed(rest[1..]) == [path[0]] + path[1..];
      }
      assert path == [path[0]] + path[1..];
    }
  }

  lemma {:induction false} NamesAreSplitAgain(first: string, names: seq<string>)
    requires '/' !in first && forall name :: name in names ==> '/' !in name
    ensures SplitPath(first + Slashed(names)) == [first] + names
    ensures '\\' !in first && (forall name :: name in names ==> '\\' !in name) ==> '\\' !in first + Slashed(names)
    decreases |names|, |first|
  {
    var path := first + Slashed(names);
    if first != "" {
      NamesAreSplitAgain(first[1..], names);
      assert path[1..] == first[1..] + Slashed(names);
      assert [first[0]] + first[1..] == first;
      assert ([first[1..]] + names)[1..] == names;
    } else if names != [] {
      NamesAreSplitAgain(names[0], names[1..]);
      assert path[1..] == names[0] + Slashed(names[1..]);
      assert [names[0]] + names[1..] == names;
    }
  }

  /** The paths that may be written are exactly those. */
  lemma SafePathsNameArtifacts(path: string)
    ensures SafeArtifactPath(path) <==> NamesAnArtifact(path)
  {
    var parts := SplitPath(path);
    PartsHaveNoSlash(path);
    if SafeArtifactPath(path) {
      forall name | name in parts[1..] ensures PlainName(name) {
        assert name in parts;
      }
    }
    if NamesAnArtifact(path) {
      var names: seq<string> :|
        && names != [] && path == "artifacts" + Slashed(names)
        && forall name :: name in names ==> PlainName(name);
      NamesAreSplitAgain("artifacts", names);
    }
  }

  // -- the store object ------------------------------------------------------

  class LocalAnalysisRunStore {
    const digest: Digest
    var runs: map<string, AnalysisRun>
    var files: map<string, Files>
    var cancelMarks: set<string>

    constructor (digest: Digest)
      ensures this.digest == digest && State() == Store(map[], map[], {})
    {
      this.digest := digest;
      runs, files, cancelMarks := map[], map[], {};
    }

    function State(): Store
      reads this
    {
      Store(runs, files, cancelMarks)
    }

    method Create(run: AnalysisRun) returns (refusal: Option<StoreError>)
      modifies this
      ensures refusal == CreateRefusal(old(State()), run)
      ensures refusal.None? <==> EnsureCreatable(run).None? && run.runId !in old(runs)
      ensures refusal == Some(NotQueuedAtCreation) <==> run.status != Queued
      ensures refusal == Some(AlreadyExists) <==> run.status == Queued && run.runId in old(runs)
      ensures State() == if refusal.None? then WithRun(old(State()), run) else old(State())
    {
      CreateFollowsTheLifecycle(State(), run);
      if !run.status.Queued? {
        return Some(NotQueuedAtCreation);
      }
      if run.runId in runs {
        return Some(AlreadyExists);
      }
      runs := runs[run.runId := run];
      return None;
    }

    method Load(runId: string) returns (run: Result<AnalysisRun, StoreError>)
      ensures run == if runId in runs then Ok(runs[runId]) else Err(NotFound)
    {
      if runId !in runs {
        return Err(NotFound);
      }
      return Ok(runs[runId]);
    }

    method Save(run: AnalysisRun) returns (refusal: Option<StoreError>)
      modifies this
      ensures refusal == SaveRefusal(digest, old(State()), run)
      ensures State() == if refusal.None? then WithRun(old(State()), run) else old(State())
    {
      if run.runId !in runs {
        return Some(NotFound);
      }
      var current := runs[run.runId];
      if current.status.Terminal() {
        return Some(TerminalManifest);
      }
      if current.status !in ALLOWED || run.status !in ALLOWED[current.status] {
        return Some(StatusNotAllowed);
      }
      if exists f :: f in STORE_IMMUTABLE_FIELDS && Differs(current, run, f) {
        return Some(ProvenanceConflict);
      }
      if run.status.Succeeded? || run.status.Partial? {
        var intact := ArtifactsAreIntact(run.runId, run.artifacts);
        if !intact {
          return Some(ArtifactMismatch);
        }
      }
      runs := runs[run.runId := run];
      return None;
    }

    /** Reads every registered file back, stopping at the first that is missing or differs. */
    method ArtifactsAreIntact(runId: string, artifacts: seq<ArtifactReference>) returns (intact: bool)
      ensures intact <==> VerifyArtifacts(digest, FilesOf(State(), runId), artifacts)
    {
      var stored := if runId in files then files[runId] else map[];
      for i := 0 to |artifacts|
        invariant forall k :: 0 <= k < i ==> FileMatches(digest, stored, artifacts[k])
      {
        var a := artifacts[i];
        assert a in artifacts;
        if a.relativePath !in stored {
          return false;
        }
        var content := stored[a.relativePath];
        if |content| != a.sizeBytes || digest(content) != a.sha256 {
          return false;
        }
      }
      return true;
    }

    method RequestCancellation(runId: string)
      modifies this
      ensures State() == Marked(old(State()), runId)
      ensures runs == old(runs) && files == old(files)
      ensures cancelMarks == old(cancelMarks)
        + if runId in runs && runs[runId].status in {Queued, Running} then {runId} else {}
    {
      if runId in runs && !runs[runId].status.Terminal() {
        cancelMarks := cancelMarks + {runId};
      }
    }

    method CancellationRequested(runId: string) returns (requested: bool)
      ensures requested <==> runId in cancelMarks
    {
      return runId in cancelMarks;
    }

    /** Writes bytes once. An existing file stays as it is, and the write is refused. */
    method WriteArtifact(
        runId: string, artifactId: string, name: string, category: ArtifactCategory, path: string,
        content: Bytes, mediaType: string, schemaVersion: Option<string>)
      returns (reference: Result<ArtifactReference, StoreError>)
      modifies this
      ensures reference.Ok? <==>
        WriteRefusal(old(State()), runId, path).None? && path !in FilesOf(old(State()), runId)
      ensures State() == if reference.Ok? then WithFile(old(State()), runId, path, content) else old(State())
      ensures reference.Ok? ==>
        && reference.value == ArtifactReference(
             artifactId, name, category, path, mediaType, digest(content), |content|, schemaVersion)
        && FileMatches(digest, FilesOf(State(), runId), reference.value)
    {
      if runId !in runs {
        return Err(NotFound);
      }
      if !runs[runId].status.Running? {
        return Err(NotRunning);
      }
      if !SafeArtifactPath(path) {
        return Err(UnsafePath);
      }
      var stored := if runId in files then files[runId] else map[];
      if path in stored {
        return Err(FileExists);
      }
      files := files[runId := stored[path := content]];
      return Ok(ArtifactReference(
        artifactId, name, category, path, mediaType, digest(content), |content|, schemaVersion));
    }
  }
}

/** Everything clients may do to one store, in any order and with writers caught half way. */
module StoreHistories {
  import opened Common
  import opened RunContract
  import opened Lifecycle
  import opened RunStore

  /** An artifact write that has passed its checks and has not linked its file yet. */
  datatype PendingWrite = PendingWrite(runId: string, path: string, content: Bytes)

  /** `loaded` is what each coordinator call read before it creates a retry from it. */
  datatype System = System(store: Store, pending: map<nat, PendingWrite>, loaded: map<nat, AnalysisRun>)

  datatype Event =
    | CreateFirst(logicalId: string, runId: string, origin: DataOrigin, input: InputReference,
        provenance: Provenance, stages: seq<Stage>, now: Instant)
    | LoadForRetry(caller: nat, runId: string)
    | CreateRetry(caller: nat, runId: string, provenance: Provenance, stages: seq<Stage>, now: Instant)
    | SaveRun(run: AnalysisRun)
    | BeginWrite(writer: nat, write: PendingWrite)
    | LinkFile(writer: nat)
    | AbandonWrite(writer: nat)
    | RequestCancellation(runId: string)

  const EMPTY: System := System(Store(map[], map[], {}), map[], map[])

  /** What one event does to the stored state. */
  datatype Effect =
    | NoEffect
    | Stores(run: AnalysisRun)
    | Links(runId: string, path: string, content: Bytes)
    | Marks(runId: string)

  function Creating(store: Store, created: Result<AnalysisRun, ContractError>): Effect {
    match created
    case Err(_) => NoEffect
    case Ok(run) => if CreateRefusal(store, run).None? then Stores(run) else NoEffect
  }

  /** A retry: from the attempt as it was loaded, with fresh queued stages. */
  function RetryOf(previous: AnalysisRun, runId: string, provenance: Provenance, stages: seq<Stage>, now: Instant)
    : Result<AnalysisRun, ContractError>
  {
    match RetryFrom(previous, runId, provenance, now)
    case Err(e) => Err(e)
    case Ok(retry) => WithStages(retry, stages)
  }

  function EffectOf(digest: Digest, s: System, e: Event): Effect {
    match e
    case CreateFirst(logicalId, runId, origin, input, provenance, stages, now) =>
      Creating(s.store, NewRun(logicalId, runId, origin, input, provenance, stages, now))
    case CreateRetry(caller, runId, provenance, stages, now) =>
      if caller in s.loaded then Creating(s.store, RetryOf(s.loaded[caller], runId, provenance, stages, now))
      else NoEffect
    case SaveRun(run) =>
      if SaveRefusal(digest, s.store, run).None? then Stores(run) else NoEffect
    case LinkFile(writer) =>
      if writer in s.pending && s.pending[writer].path !in FilesOf(s.store, s.pending[writer].runId)
      then Links(s.pending[writer].runId, s.pending[writer].path, s.pending[writer].content)
      else NoEffect
    case RequestCancellation(runId) => Marks(runId)
    case _ => NoEffect
  }

  function Apply(store: Store, effect: Effect): Store {
    match effect
    case NoEffect => store
    case Stores(run) => WithRun(store, run)
    case Links(runId, path, content) => WithFile(store, runId, path, content)
    case Marks(runId) => Marked(store, runId)
  }

  function PendingAfter(s: System, e: Event): map<nat, PendingWrite> {
    match e
    case BeginWrite(writer, w) =>
      if WriteRefusal(s.store, w.runId, w.path).None? then s.pending[writer := w] else s.pending
    case LinkFile(writer) => s.pending - {writer}
    case AbandonWrite(writer) => s.pending - {writer}
    case _ => s.pending
  }

  function LoadedAfter(s: System, e: Event): map<nat, AnalysisRun> {
    match e
    case LoadForRetry(caller, runId) =>
      if runId in s.store.runs then s.loaded[caller := s.store.runs[runId]] else s.loaded
    case _ => s.loaded
  }

  function Step(digest: Digest, s: System, e: Event): System {
    System(Apply(s.store, EffectOf(digest, s, e)), PendingAfter(s, e), LoadedAfter(s, e))
  }

  function Run(digest: Digest, s: System, events: seq<Event>): System {
    if events == [] then s else Step(digest, Run(digest, s, events[..|events| - 1]), events[|events| - 1])
  }

  // -- how two states of one history relate ----------------------------------

  ghost predicate FilesOnlyGrow(before: Files, after: Files) {
    forall p :: p in before ==> p in after && after[p] == before[p]
  }

  ghost predicate Evolves(before: System, after: System) {
    && (forall id :: id in before.store.runs ==>
          id in after.store.runs && Succeeds(before.store.runs[id], after.store.runs[id]))
    && (forall id :: FilesOnlyGrow(FilesOf(before.store, id), FilesOf(after.store, id)))
    && before.store.cancelMarks <= after.store.cancelMarks
  }

  /** Each run is stored under its own id, with an attempt number that fits its link. */
  ghost predicate WellStored(s: System) {
    forall id :: id in s.store.runs ==> s.store.runs[id].runId == id && ValidAttemptChain(s.store.runs[id])
  }

  /** Only valid records reach `save`: there is no other way to build one. */
  predicate ValidEvent(e: Event) {
    e.SaveRun? ==> ValidRun(e.run)
  }

  predicate Completed(run: AnalysisRun) {
    run.status.Succeeded? || run.status.Partial?
  }

  predicate CanBeRetried(run: AnalysisRun) {
    run.status.Failed? || run.status.Partial?
  }

  predicate SameAnalysis(a: AnalysisRun, b: AnalysisRun) {
    a.logicalId == b.logicalId && a.origin == b.origin && a.input == b.input
  }

  predicate RetriedFrom(run: AnalysisRun, previous: AnalysisRun) {
    && CanBeRetried(previous)
    && SameAnalysis(previous, run)
    && run.previousRunId == Some(previous.runId)
    && run.attempt == previous.attempt + 1
  }

  /** What every effect on the stored state respects; all that follows rests on this alone. */
  ghost predicate Legal(digest: Digest, s: System, effect: Effect) {
    match effect
    case Stores(run) =>
      && ValidAttemptChain(run)
      && (if run.runId in s.store.runs then
            && Succeeds(s.store.runs[run.runId], run)
            && !s.store.runs[run.runId].status.Terminal()
            && (Completed(run) ==>
                  && s.store.runs[run.runId].status.Running?
                  && VerifyArtifacts(digest, FilesOf(s.store, run.runId), run.artifacts))
          else
            && run.status.Queued?
            && (run.attempt == 1 || exists c :: c in s.loaded && RetriedFrom(run, s.loaded[c])))
    case Links(runId, path, _) => path !in FilesOf(s.store, runId)
    case _ => true
  }

  lemma SavingIsLegal(digest: Digest, s: System, run: AnalysisRun)
    requires WellStored(s) && ValidRun(run) && SaveRefusal(digest, s.store, run).None?
    ensures Legal(digest, s, Stores(run))
  {
    SaveFollowsTheLifecycle(digest, s.store, run);
    TransitionAllowedIff(s.store.runs[run.runId], run);
  }

  lemma RetryingIsLegal(digest: Digest, s: System, e: Event)
    requires e.CreateRetry?
    ensures Legal(digest, s, EffectOf(digest, s, e))
  {
    if e.caller in s.loaded {
      var created := RetryOf(s.loaded[e.caller], e.runId, e.provenance, e.stages, e.now);
      if created.Ok? {
        assert RetriedFrom(created.value, s.loaded[e.caller]);
      }
    }
  }

  lemma EveryEffectIsLegal(digest: Digest, s: System, e: Event)
    requires WellStored(s) && ValidEvent(e)
    ensures Legal(digest, s, EffectOf(digest, s, e))
  {
    match e {
      case SaveRun(run) =>
        if SaveRefusal(digest, s.store, run).None? {
          SavingIsLegal(digest, s, run);
        }
      case CreateRetry(_, _, _, _, _) =>
        RetryingIsLegal(digest, s, e);
      case _ =>
    }
  }

  lemma StepEvolves(digest: Digest, s: System, e: Event)
    requires WellStored(s) && ValidEvent(e)
    ensures Evolves(s, Step(digest, s, e))
    ensures WellStored(Step(digest, s, e))
  {
    EveryEffectIsLegal(digest, s, e);
    LegalEffectsEvolve(digest, s, EffectOf(digest, s, e), PendingAfter(s, e), LoadedAfter(s, e));
  }

  lemma StoringEvolves(
      digest: Digest, s: System, run: AnalysisRun, pending: map<nat, PendingWrite>, loaded: map<nat, AnalysisRun>)
    requires WellStored(s) && Legal(digest, s, Stores(run))
    ensures var s' := System(WithRun(s.store, run), pending, loaded); Evolves(s, s') && WellStored(s')
  {
  }

  lemma LegalEffectsEvolve(
      digest: Digest, s: System, effect: Effect, pending: map<nat, PendingWrite>, loaded: map<nat, AnalysisRun>)
    requires WellStored(s) && Legal(digest, s, effect)
    ensures var s' := System(Apply(s.store, effect), pending, loaded); Evolves(s, s') && WellStored(s')
  {
    if effect.Stores? {
      StoringEvolves(digest, s, effect.run, pending, loaded);
    }
  }

  lemma EvolvesIsTransitive(a: System, b: System, c: System)
    requires Evolves(a, b) && Evolves(b, c)
    ensures Evolves(a, c)
  {
    forall id | id in a.store.runs
      ensures id in c.store.runs && Succeeds(a.store.runs[id], c.store.runs[id])
    {
      assert Succeeds(a.store.runs[id], b.store.runs[id]) && Succeeds(b.store.runs[id], c.store.runs[id]);
    }
    forall id ensures FilesOnlyGrow(FilesOf(a.store, id), FilesOf(c.store, id)) {
      assert FilesOnlyGrow(FilesOf(a.store, id), FilesOf(b.store, id));
      assert FilesOnlyGrow(FilesOf(b.store, id), FilesOf(c.store, id));
    }
  }

  // -- whole histories -------------------------------------------------------

  ghost predicate ValidEvents(events: seq<Event>) {
    forall i :: 0 <= i < |events| ==> ValidEvent(events[i])
  }

  /** From any state to any later one: no record goes back, changes provenance, or loses a file or a mark. */
  lemma {:induction false} HistoryEvolves(digest: Digest, s: System, events: seq<Event>)
    requires WellStored(s) && ValidEvents(events)
    ensures Evolves(s, Run(digest, s, events)) && WellStored(Run(digest, s, events))
  {
    if events != [] {
      var earlier := events[..|events| - 1];
      HistoryEvolves(digest, s, earlier);
      StepEvolves(digest, Run(digest, s, earlier), events[|events| - 1]);
      EvolvesIsTransitive(s, Run(digest, s, earlier), Run(digest, s, events));
    }
  }

  ghost predicate StoredAs(digest: Digest, events: seq<Event>, id: string, which: AnalysisRun -> bool) {
    var runs := Run(digest, EMPTY, events).store.runs;
    id in runs && which(runs[id])
  }

  const IsCompleted: AnalysisRun -> bool := (run: AnalysisRun) => Completed(run)
  const IsRunning: AnalysisRun -> bool := (run: AnalysisRun) => run.status.Running?

  lemma LastStepCompletes(digest: Digest, events: seq<Event>, id: string)
    requires ValidEvents(events) && StoredAs(digest, events, id, IsCompleted)
    requires events != [] && !StoredAs(digest, events[..|events| - 1], id, IsCompleted)
    ensures StoredAs(digest, events[..|events| - 1], id, IsRunning)
  {
    HistoryEvolves(digest, EMPTY, events[..|events| - 1]);
    OnlyACheckedSaveCompletes(
      digest, Run(digest, EMPTY, events[..|events| - 1]), events[|events| - 1], id);
  }

  /** A run that is stored with published artifacts was stored running at an earlier moment. */
  lemma {:induction false} CompletionComesFromRunning(digest: Digest, events: seq<Event>, id: string) returns (n: nat)
    requires ValidEvents(events) && StoredAs(digest, events, id, IsCompleted)
    ensures n < |events| && StoredAs(digest, events[..n], id, IsRunning)
  {
    var earlier := events[..|events| - 1];
    if StoredAs(digest, earlier, id, IsCompleted) {
      n := CompletionComesFromRunning(digest, earlier, id);
      assert events[..n] == earlier[..n];
    } else {
      n := |events| - 1;
      LastStepCompletes(digest, events, id);
    }
  }

  /** Every record in a store passed the contract when it was built. */
  lemma {:induction false} EveryStoredRunIsValid(digest: Digest, events: seq<Event>, id: string)
    requires ValidEvents(events) && id in Run(digest, EMPTY, events).store.runs
    ensures ValidRun(Run(digest, EMPTY, events).store.runs[id])
  {
    var earlier, e := Run(digest, EMPTY, events[..|events| - 1]), events[|events| - 1];
    var effect := EffectOf(digest, earlier, e);
    if effect.Stores? && effect.run.runId == id {
      StoredRunsAreValid(digest, earlier, e);
    } else {
      EveryStoredRunIsValid(digest, events[..|events| - 1], id);
    }
  }

  lemma StoredRunsAreValid(digest: Digest, s: System, e: Event)
    requires ValidEvent(e) && EffectOf(digest, s, e).Stores?
    ensures ValidRun(EffectOf(digest, s, e).run)
  {
  }

  /** A record becomes completed only by a save over a running one, with its artifacts read back. */
  lemma OnlyACheckedSaveCompletes(digest: Digest, s: System, e: Event, id: string)
    requires WellStored(s) && ValidEvent(e)
    requires id in s.store.runs ==> !Completed(s.store.runs[id])
    requires id in Step(digest, s, e).store.runs && Completed(Step(digest, s, e).store.runs[id])
    ensures id in s.store.runs && s.store.runs[id].status.Running?
    ensures var store := Step(digest, s, e).store;
      VerifyArtifacts(digest, FilesOf(store, id), store.runs[id].artifacts)
  {
    EveryEffectIsLegal(digest, s, e);
    var effect := EffectOf(digest, s, e);
    assert effect.Stores? && effect.run.runId == id;
  }

  // -- published artifacts ---------------------------------------------------

  ghost predicate PublishedAreIntact(digest: Digest, s: System) {
    forall id :: id in s.store.runs && Completed(s.store.runs[id]) ==>
      VerifyArtifacts(digest, FilesOf(s.store, id), s.store.runs[id].artifacts)
  }

  lemma GrowingFilesStayIntact(digest: Digest, before: Files, after: Files, artifacts: seq<ArtifactReference>)
    requires FilesOnlyGrow(before, after) && VerifyArtifacts(digest, before, artifacts)
    ensures VerifyArtifacts(digest, after, artifacts)
  {
    forall a | a in artifacts ensures FileMatches(digest, after, a) {
      assert FileMatches(digest, before, a);
    }
  }

  lemma StepKeepsPublishedIntact(digest: Digest, s: System, e: Event)
    requires WellStored(s) && ValidEvent(e) && PublishedAreIntact(digest, s)
    ensures PublishedAreIntact(digest, Step(digest, s, e))
  {
    var s' := Step(digest, s, e);
    StepEvolves(digest, s, e);
    forall id | id in s'.store.runs && Completed(s'.store.runs[id])
      ensures VerifyArtifacts(digest, FilesOf(s'.store, id), s'.store.runs[id].artifacts)
    {
      if id in s.store.runs && Completed(s.store.runs[id]) {
        assert Succeeds(s.store.runs[id], s'.store.runs[id]);
        GrowingFilesStayIntact(
          digest, FilesOf(s.store, id), FilesOf(s'.store, id), s.store.runs[id].artifacts);
      } else {
        OnlyACheckedSaveCompletes(digest, s, e, id);
      }
    }
  }

  /** Whatever happened to the store since, the artifacts of a completed run still read back as registered. */
  lemma {:induction false} PublishedArtifactsStayIntact(digest: Digest, events: seq<Event>)
    requires ValidEvents(events)
    ensures PublishedAreIntact(digest, Run(digest, EMPTY, events))
  {
    if events != [] {
      var earlier := events[..|events| - 1];
      PublishedArtifactsStayIntact(digest, earlier);
      HistoryEvolves(digest, EMPTY, earlier);
      StepKeepsPublishedIntact(digest, Run(digest, EMPTY, earlier), events[|events| - 1]);
    }
  }

  /** Every registered artifact of a completed run is there, with its registered size and digest. */
  lemma PublishedArtifactsReadBack(digest: Digest, events: seq<Event>, id: string, a: ArtifactReference)
    requires ValidEvents(events)
    requires id in Run(digest, EMPTY, events).store.runs
    requires Run(digest, EMPTY, events).store.runs[id].status in {Succeeded, Partial}
    requires a in Run(digest, EMPTY, events).store.runs[id].artifacts
    ensures var files := Run(digest, EMPTY, events).store.files;
      && id in files && a.relativePath in files[id]
      && |files[id][a.relativePath]| == a.sizeBytes && digest(files[id][a.relativePath]) == a.sha256
  {
    PublishedArtifactsStayIntact(digest, events);
  }

  // -- what each event does --------------------------------------------------

  /** A first attempt is stored as given, when it meets the contract and its id is free. */
  lemma FirstAttemptsAreStored(digest: Digest, s: System, e: Event)
    requires e.CreateFirst?
    ensures var from := e.provenance;
      var record := AnalysisRun(
        e.logicalId, e.runId, 1, None, Queued, e.origin, e.input, from.code, from.pipelineVersion, from.parameters,
        from.models, [], e.stages, e.now, None, None, None, None, None, "footballai.analysis-run/v1");
      Step(digest, s, e).store ==
        if ValidRun(record) && e.runId !in s.store.runs
        then Store(s.store.runs[e.runId := record], s.store.files, s.store.cancelMarks) else s.store
  {
    hide ValidRun;
  }

  /** A retry is stored with the next number, linked to the failed or partial attempt that its caller loaded. */
  lemma RetriesAreStored(digest: Digest, s: System, e: Event)
    requires e.CreateRetry? && e.caller in s.loaded
    ensures var previous, from := s.loaded[e.caller], e.provenance;
      var record := AnalysisRun(
        previous.logicalId, e.runId, previous.attempt + 1, Some(previous.runId), Queued, previous.origin,
        previous.input, from.code, from.pipelineVersion, from.parameters, from.models, [], e.stages, e.now, None,
        None, None, None, None, "footballai.analysis-run/v1");
      Step(digest, s, e).store ==
        if previous.status in {Failed, Partial} && ValidRun(record) && e.runId !in s.store.runs
        then Store(s.store.runs[e.runId := record], s.store.files, s.store.cancelMarks) else s.store
  {
    var bare := RetryFrom(s.loaded[e.caller], e.runId, e.provenance, e.now);
    if bare.Ok? {
      var record := bare.value.(stages := e.stages);
      if ValidRun(record) {
        ValidWithoutStages(record);
      }
    } else if s.loaded[e.caller].status in {Failed, Partial} {
      var previous, from := s.loaded[e.caller], e.provenance;
      var record := AnalysisRun(
        previous.logicalId, e.runId, previous.attempt + 1, Some(previous.runId), Queued, previous.origin,
        previous.input, from.code, from.pipelineVersion, from.parameters, from.models, [], e.stages, e.now, None,
        None, None, None, None, CONTRACT_VERSION);
      if ValidRun(record) {
        ValidWithoutStages(record);
      }
    }
  }

  lemma ValidWithoutStages(run: AnalysisRun)
    requires ValidRun(run) && run.status.Queued?
    ensures ValidRun(run.(stages := []))
  {
  }

  /** Saves, links and cancellation requests change one thing each, and the other events nothing that is stored. */
  lemma OtherEventsAreStored(digest: Digest, s: System, e: Event)
    requires !e.CreateFirst? && !e.CreateRetry?
    ensures var Store(runs, files, marks) := s.store;
      Step(digest, s, e).store ==
        match e
        case SaveRun(run) =>
          if SaveRefusal(digest, s.store, run).None? then Store(runs[run.runId := run], files, marks) else s.store
        case LinkFile(writer) =>
          if writer !in s.pending then s.store
          else
            var PendingWrite(id, path, content) := s.pending[writer];
            if id !in files then Store(runs, files[id := map[path := content]], marks)
            else if path !in files[id] then Store(runs, files[id := files[id][path := content]], marks)
            else s.store
        case RequestCancellation(id) =>
          if id in runs && runs[id].status in {Queued, Running} then Store(runs, files, marks + {id}) else s.store
        case _ => s.store
  {
    hide SaveRefusal;
  }

  /** A writer is under way from its checks until it links its file or gives up. */
  lemma WritersAreUnderWay(digest: Digest, s: System, e: Event, writer: nat)
    ensures var after := Step(digest, s, e).pending;
      writer in after <==>
        || (e.BeginWrite? && e.writer == writer && WriteRefusal(s.store, e.write.runId, e.write.path).None?)
        || (writer in s.pending && e != LinkFile(writer) && e != AbandonWrite(writer))
    ensures var after := Step(digest, s, e).pending;
      writer in after ==>
        after[writer] ==
          if e.BeginWrite? && e.writer == writer && WriteRefusal(s.store, e.write.runId, e.write.path).None?
          then e.write else s.pending[writer]
  {
    hide WriteRefusal;
  }

  /** A caller holds the record it loaded last. */
  lemma CallersHoldWhatTheyLoaded(digest: Digest, s: System, e: Event, caller: nat)
    ensures var loads := e.LoadForRetry? && e.caller == caller && e.runId in s.store.runs;
      var after := Step(digest, s, e).loaded;
      && (caller in after <==> loads || caller in s.loaded)
      && (caller in after ==> after[caller] == if loads then s.store.runs[e.runId] else s.loaded[caller])
  {
  }

  // -- what every stored record says -----------------------------------------

  /** A stored record that ended says when and how, and one that has not says nothing about an end. */
  lemma StoredRecordsSayHowTheyEnded(digest: Digest, events: seq<Event>, id: string)
    requires ValidEvents(events) && id in Run(digest, EMPTY, events).store.runs
    ensures var run := Run(digest, EMPTY, events).store.runs[id];
      && (run.completedAt.Some? <==> run.status !in {Queued, Running})
      && (run.failure.Some? <==> run.status == Failed)
      && (run.partialReason.Some? <==> run.status == Partial)
      && (run.artifacts != [] <==> run.status in {Succeeded, Partial})
      && (run.status == Queued ==> run.startedAt.None?)
      && (run.status in {Running, Succeeded, Partial} ==> run.startedAt.Some?)
      && (run.startedAt.Some? ==> run.createdAt <= run.startedAt.value)
      && (run.completedAt.Some? ==> run.createdAt <= run.completedAt.value)
      && (run.startedAt.Some? && run.completedAt.Some? ==> run.startedAt.value <= run.completedAt.value)
  {
    EveryStoredRunIsValid(digest, events, id);
  }

  /** The stages of a stored record fit its status, and each stage fits its own. */
  lemma StoredStagesFitTheStatus(digest: Digest, events: seq<Event>, id: string, t: Stage)
    requires ValidEvents(events) && id in Run(digest, EMPTY, events).store.runs
    requires t in Run(digest, EMPTY, events).store.runs[id].stages
    ensures var run := Run(digest, EMPTY, events).store.runs[id];
      && (run.status == Queued ==> t.status == StageQueued)
      && (run.status == Succeeded && t.required ==> t.status == StageSucceeded)
      && (run.status in {Succeeded, Partial} ==> t.status !in {StageQueued, StageRunning})
      && (run.status in {Failed, Cancelled} ==> t.status != StageRunning)
      && (run.status == Partial ==> exists u ::
            u in run.stages && u.required && u.status in {StagePartial, StageFailed, StageCancelled, StageSkipped})
    ensures
      && (t.status == StageSucceeded ==> t.progress == 100.0)
      && (t.status == StageFailed ==> t.error.Some?)
      && (t.startedAt.Some? && t.finishedAt.Some? ==> t.startedAt.value <= t.finishedAt.value)
      && (t.finishedAt.Some? <==> t.status !in {StageQueued, StageRunning})
      && (t.status == StageRunning ==> t.startedAt.Some?)
      && (t.status == StageQueued ==> t.startedAt.None?)
      && 0.0 <= t.progress <= 100.0
  {
    EveryStoredRunIsValid(digest, events, id);
    var run := Run(digest, EMPTY, events).store.runs[id];
    StagesFitTheStatus(run, t);
  }

  lemma StagesFitTheStatus(run: AnalysisRun, t: Stage)
    requires ValidRun(run) && t in run.stages
    ensures ValidStage(t)
    ensures run.status == Queued ==> t.status == StageQueued
    ensures run.status == Succeeded && t.required ==> t.status == StageSucceeded
    ensures run.status in {Succeeded, Partial} ==> t.status !in {StageQueued, StageRunning}
    ensures run.status in {Failed, Cancelled} ==> t.status != StageRunning
    ensures run.status == Partial ==> exists u ::
      u in run.stages && u.required && u.status in {StagePartial, StageFailed, StageCancelled, StageSkipped}
  {
    assert RunContract.NotQueued(t.status) <==> !t.status.StageQueued?;
    assert RunContract.Active(t.status) <==> t.status.StageQueued? || t.status.StageRunning?;
    assert RunContract.InProgress(t.status) <==> t.status.StageRunning?;
  }

  /** Ids, names and paths of stored artifacts, and ids and names of stored stages, do not repeat; links lead home. */
  lemma StoredPartsAreDistinct(digest: Digest, events: seq<Event>, id: string)
    requires ValidEvents(events) && id in Run(digest, EMPTY, events).store.runs
    ensures var run := Run(digest, EMPTY, events).store.runs[id];
      && (forall i, j :: 0 <= i < j < |run.artifacts| ==>
            && run.artifacts[i].artifactId != run.artifacts[j].artifactId
            && run.artifacts[i].name != run.artifacts[j].name
            && run.artifacts[i].relativePath != run.artifacts[j].relativePath)
      && (forall i, j :: 0 <= i < j < |run.stages| ==>
            run.stages[i].id != run.stages[j].id && run.stages[i].name != run.stages[j].name)
      && (forall i, j :: 0 <= i < j < |run.models| ==> run.models[i].name != run.models[j].name)
      && (forall t, produced :: t in run.stages && produced in t.producedArtifactIds ==>
            t.attempt == run.attempt && exists a :: a in run.artifacts && a.artifactId == produced)
      && run.attempt >= 1 && (run.attempt == 1 <==> run.previousRunId == None)
      && run.previousRunId != Some(run.runId) && run.contractVersion == "footballai.analysis-run/v1"
  {
    EveryStoredRunIsValid(digest, events, id);
    PartsAreDistinct(Run(digest, EMPTY, events).store.runs[id]);
  }

  lemma PartsAreDistinct(run: AnalysisRun)
    requires ValidRun(run)
    ensures forall i, j :: 0 <= i < j < |run.artifacts| ==>
              && run.artifacts[i].artifactId != run.artifacts[j].artifactId
              && run.artifacts[i].name != run.artifacts[j].name
              && run.artifacts[i].relativePath != run.artifacts[j].relativePath
    ensures forall i, j :: 0 <= i < j < |run.stages| ==>
              run.stages[i].id != run.stages[j].id && run.stages[i].name != run.stages[j].name
    ensures forall i, j :: 0 <= i < j < |run.models| ==> run.models[i].name != run.models[j].name
    ensures forall t, produced :: t in run.stages && produced in t.producedArtifactIds ==>
              t.attempt == run.attempt && exists a :: a in run.artifacts && a.artifactId == produced
  {
    hide ValidLifecycle, ValidTimes, ValidStage, ValidAttemptChain;
    var ids, names, paths := ArtifactIds(run.artifacts), ArtifactNames(run.artifacts), ArtifactPaths(run.artifacts);
    assert Distinct(ids) && Distinct(names) && Distinct(paths);
    forall i, j | 0 <= i < j < |run.artifacts|
      ensures run.artifacts[i].artifactId != run.artifacts[j].artifactId
      ensures run.artifacts[i].name != run.artifacts[j].name
      ensures run.artifacts[i].relativePath != run.artifacts[j].relativePath
    {
      assert ids[i] != ids[j] && names[i] != names[j] && paths[i] != paths[j];
    }
    forall i, j | 0 <= i < j < |run.stages|
      ensures run.stages[i].id != run.stages[j].id && run.stages[i].name != run.stages[j].name
    {
      assert StageIds(run.stages)[i] != StageIds(run.stages)[j];
      assert StageNames(run.stages)[i] != StageNames(run.stages)[j];
    }
    forall i, j | 0 <= i < j < |run.models| ensures run.models[i].name != run.models[j].name {
      assert ModelNames(run.models)[i] != ModelNames(run.models)[j];
    }
    forall t, produced | t in run.stages && produced in t.producedArtifactIds
      ensures t.attempt == run.attempt && exists a :: a in run.artifacts && a.artifactId == produced
    {
      var i :| 0 <= i < |ids| && ids[i] == produced;
      assert run.artifacts[i] in run.artifacts;
    }
  }

  // -- the chain of attempts -------------------------------------------------

  /** A later attempt points at a stored one that it may have been retried from. */
  ghost predicate LinkedBack(store: Store, run: AnalysisRun) {
    run.attempt > 1 ==>
      && run.previousRunId.Some?
      && run.previousRunId.value in store.runs
      && var previous := store.runs[run.previousRunId.value];
         CanBeRetried(previous) && SameAnalysis(previous, run) && previous.attempt == run.attempt - 1
  }

  ghost predicate ChainInvariant(s: System) {
    && (forall id :: id in s.store.runs ==> LinkedBack(s.store, s.store.runs[id]))
    && (forall c :: c in s.loaded ==>
          s.loaded[c].runId in s.store.runs && Succeeds(s.loaded[c], s.store.runs[s.loaded[c].runId]))
  }

  lemma LinksSurvive(before: System, after: System, run: AnalysisRun)
    requires Evolves(before, after) && LinkedBack(before.store, run)
    ensures LinkedBack(after.store, run)
  {
    if run.attempt > 1 {
      assert Succeeds(before.store.runs[run.previousRunId.value], after.store.runs[run.previousRunId.value]);
    }
  }

  lemma SuccessorsKeepTheirLink(store: Store, earlier: AnalysisRun, later: AnalysisRun)
    requires Succeeds(earlier, later) && LinkedBack(store, earlier)
    ensures LinkedBack(store, later)
  {
  }

  lemma LoadedStaySucceeded(before: System, after: System, loaded: AnalysisRun)
    requires Evolves(before, after)
    requires loaded.runId in before.store.runs && Succeeds(loaded, before.store.runs[loaded.runId])
    ensures loaded.runId in after.store.runs && Succeeds(loaded, after.store.runs[loaded.runId])
  {
    assert Succeeds(before.store.runs[loaded.runId], after.store.runs[loaded.runId]);
  }

  lemma NewRecordsAreLinked(digest: Digest, s: System, run: AnalysisRun)
    requires ChainInvariant(s) && run.runId !in s.store.runs && Legal(digest, s, Stores(run))
    ensures LinkedBack(s.store, run)
  {
    if run.attempt > 1 {
      var c :| c in s.loaded && RetriedFrom(run, s.loaded[c]);
      assert Succeeds(s.loaded[c], s.store.runs[s.loaded[c].runId]);
    }
  }

  lemma StepKeepsLinks(digest: Digest, s: System, e: Event, id: string)
    requires WellStored(s) && ValidEvent(e) && ChainInvariant(s)
    requires id in Step(digest, s, e).store.runs
    ensures LinkedBack(Step(digest, s, e).store, Step(digest, s, e).store.runs[id])
  {
    var s' := Step(digest, s, e);
    StepEvolves(digest, s, e);
    EveryEffectIsLegal(digest, s, e);
    if id in s.store.runs {
      assert Succeeds(s.store.runs[id], s'.store.runs[id]);
      SuccessorsKeepTheirLink(s.store, s.store.runs[id], s'.store.runs[id]);
    } else {
      NewRecordsAreLinked(digest, s, s'.store.runs[id]);
    }
    LinksSurvive(s, s', s'.store.runs[id]);
  }

  lemma LoadedAreStored(s: System, e: Event, c: nat)
    requires WellStored(s) && ChainInvariant(s) && c in LoadedAfter(s, e)
    ensures var loaded := LoadedAfter(s, e)[c];
      loaded.runId in s.store.runs && Succeeds(loaded, s.store.runs[loaded.runId])
  {
  }

  lemma StepKeepsLoaded(digest: Digest, s: System, e: Event, c: nat)
    requires WellStored(s) && ValidEvent(e) && ChainInvariant(s)
    requires c in LoadedAfter(s, e)
    ensures var runs, loaded := Step(digest, s, e).store.runs, LoadedAfter(s, e)[c];
      loaded.runId in runs && Succeeds(loaded, runs[loaded.runId])
  {
    var s' := Step(digest, s, e);
    assert Evolves(s, s') by {
      StepEvolves(digest, s, e);
    }
    LoadedAreStored(s, e, c);
    LoadedStaySucceeded(s, s', LoadedAfter(s, e)[c]);
  }

  lemma StepKeepsChain(digest: Digest, s: System, e: Event)
    requires WellStored(s) && ValidEvent(e) && ChainInvariant(s)
    ensures ChainInvariant(Step(digest, s, e))
  {
    var s' := Step(digest, s, e);
    forall id | id in s'.store.runs ensures LinkedBack(s'.store, s'.store.runs[id]) {
      StepKeepsLinks(digest, s, e, id);
    }
    forall c | c in s'.loaded
      ensures s'.loaded[c].runId in s'.store.runs && Succeeds(s'.loaded[c], s'.store.runs[s'.loaded[c].runId])
    {
      StepKeepsLoaded(digest, s, e, c);
    }
  }

  lemma {:induction false} EveryHistoryKeepsChain(digest: Digest, events: seq<Event>)
    requires ValidEvents(events)
    ensures ChainInvariant(Run(digest, EMPTY, events))
  {
    if events != [] {
      var earlier := events[..|events| - 1];
      EveryHistoryKeepsChain(digest, earlier);
      HistoryEvolves(digest, EMPTY, earlier);
      StepKeepsChain(digest, Run(digest, EMPTY, earlier), events[|events| - 1]);
    }
  }

  /** The attempt reached by following the previous-attempt link this many times. */
  function Follow(runs: map<string, AnalysisRun>, id: string, hops: nat): Option<AnalysisRun>
    decreases hops
  {
    if id !in runs then None
    else if hops == 0 then Some(runs[id])
    else match runs[id].previousRunId
      case None => None
      case Some(previous) => Follow(runs, previous, hops - 1)
  }

  lemma {:induction false} HopsCountDown(s: System, id: string, hops: nat)
    requires WellStored(s) && ChainInvariant(s) && id in s.store.runs && hops < s.store.runs[id].attempt
    ensures
      var reached := Follow(s.store.runs, id, hops);
      && reached.Some?
      && reached.value.attempt == s.store.runs[id].attempt - hops
      && SameAnalysis(reached.value, s.store.runs[id])
      && (hops > 0 ==> CanBeRetried(reached.value))
    decreases hops
  {
    if hops > 0 {
      var previous := PreviousIsStored(s, id);
      HopsCountDown(s, previous, hops - 1);
    }
  }

  lemma PreviousIsStored(s: System, id: string) returns (previous: string)
    requires WellStored(s) && ChainInvariant(s) && id in s.store.runs && s.store.runs[id].attempt > 1
    ensures s.store.runs[id].previousRunId == Some(previous) && previous in s.store.runs
    ensures RetriedFrom(s.store.runs[id], s.store.runs[previous])
  {
    assert LinkedBack(s.store, s.store.runs[id]);
    previous := s.store.runs[id].previousRunId.value;
  }

  lemma {:induction false} ChainEndsAtTheFirst(s: System, id: string)
    requires WellStored(s) && ChainInvariant(s) && id in s.store.runs
    ensures Follow(s.store.runs, id, s.store.runs[id].attempt) == None
    decreases s.store.runs[id].attempt
  {
    if s.store.runs[id].attempt > 1 {
      assert LinkedBack(s.store, s.store.runs[id]);
      ChainEndsAtTheFirst(s, s.store.runs[id].previousRunId.value);
    }
  }

  /** In every reachable store, attempt n is n - 1 hops from attempt 1, through retryable attempts, without a cycle. */
  lemma AttemptChainIsComplete(digest: Digest, events: seq<Event>, id: string, hops: nat)
    requires ValidEvents(events)
    requires id in Run(digest, EMPTY, events).store.runs
    ensures
      var runs := Run(digest, EMPTY, events).store.runs;
      && (Follow(runs, id, hops).Some? <==> hops < runs[id].attempt)
      && (hops < runs[id].attempt ==>
        var reached := Follow(runs, id, hops).value;
        && reached.attempt == runs[id].attempt - hops
        && SameAnalysis(reached, runs[id])
        && (hops > 0 ==> CanBeRetried(reached)))
  {
    var s := Run(digest, EMPTY, events);
    EveryHistoryKeepsChain(digest, events);
    HistoryEvolves(digest, EMPTY, events);
    if hops < s.store.runs[id].attempt {
      HopsCountDown(s, id, hops);
    } else {
      ChainEndsAtTheFirst(s, id);
      NothingAfterTheEnd(s.store.runs, id, s.store.runs[id].attempt, hops);
    }
  }

  lemma {:induction false} NothingAfterTheEnd(runs: map<string, AnalysisRun>, id: string, n: nat, hops: nat)
    requires Follow(runs, id, n) == None && n <= hops
    ensures Follow(runs, id, hops) == None
    decreases n
  {
    if id in runs && n > 0 && runs[id].previousRunId.Some? {
      NothingAfterTheEnd(runs, runs[id].previousRunId.value, n - 1, hops - 1);
    }
  }
}
