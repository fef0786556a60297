/** The closed registry of read-only tools, bound to the claims of one request. */
module AgentTools {
  import opened Common
  import opened Grounding
  import opened Provider

  datatype ToolName =
    | GetRunStatus | GetTrackingDiagnostics | GetArtifactMetadata | GetModelProvenance | GetEvidenceLimitations

  const ALL_TOOLS: set<ToolName> := {
    GetRunStatus, GetTrackingDiagnostics, GetArtifactMetadata, GetModelProvenance, GetEvidenceLimitations}

  function ToolText(name: ToolName): string {
    match name
    case GetRunStatus => "get_run_status"
    case GetTrackingDiagnostics => "get_tracking_diagnostics"
    case GetArtifactMetadata => "get_artifact_metadata"
    case GetModelProvenance => "get_model_provenance"
    case GetEvidenceLimitations => "get_evidence_limitations"
  }

  datatype ToolCallStatus = Usable | NoEvidence | Rejected | FailedCall

  datatype ToolErrorCode =
    | UnknownTool | InvalidArguments | DuplicateCall | ToolFailed | InvalidToolOutput | CrossRunReference

  /** What a handler gives back. Nothing is assumed about it. */
  datatype HandlerResult = HandlerRaised | NotClaims | Returned(claims: seq<Claim>)

  /** A handler runs at most once in a request, so a function of the catalog is as general as any code. */
  type Handler = seq<Claim> -> HandlerResult

  datatype ToolSpec = ToolSpec(name: ToolName, claims: set<string>, handler: Handler)

  /** One finished call. `content` is what goes back to the model. */
  datatype ToolExecution = ToolExecution(
    tool: Option<ToolName>, status: ToolCallStatus, content: string, claims: seq<Claim>,
    error: Option<ToolErrorCode>)
  {
    predicate IsError() {
      error.Some?
    }
  }

  /** The text of a usable payload and of an error code. */
  datatype Encoding = Encoding(
    payload: (ToolName, ToolCallStatus, seq<Claim>) -> string, error: ToolErrorCode -> string)

  const MAX_ID_CHARS: nat := 64
  const MAX_TEXT_CHARS: nat := 4000

  predicate FitsPayload(c: Claim) {
    1 <= |c.id| <= MAX_ID_CHARS && 1 <= |c.text| <= MAX_TEXT_CHARS && c.citations != []
  }

  /** Only this tool's claims, exactly as the server built them for this request. */
  predicate Approved(spec: ToolSpec, byId: map<string, Claim>, claims: seq<Claim>) {
    forall c :: c in claims ==> IsServerClaim(spec, byId, c)
  }

  predicate IsServerClaim(spec: ToolSpec, byId: map<string, Claim>, c: Claim) {
    c.id in spec.claims && c.id in byId && byId[c.id] == c
  }

  predicate ValidInput(arguments: Arguments) {
    arguments.EmptyObject?
  }

  function RejectedCall(tool: Option<ToolName>, code: ToolErrorCode, status: ToolCallStatus, encoding: Encoding)
    : ToolExecution
  {
    ToolExecution(tool, status, encoding.error(code), [], Some(code))
  }

  /** What a valid, first call of a tool yields. */
  function RunTool(spec: ToolSpec, catalog: seq<Claim>, encoding: Encoding): ToolExecution {
    match spec.handler(catalog)
    case HandlerRaised => RejectedCall(Some(spec.name), ToolFailed, FailedCall, encoding)
    case NotClaims => RejectedCall(Some(spec.name), InvalidToolOutput, FailedCall, encoding)
    case Returned(claims) =>
      if !Approved(spec, ById(catalog), claims) || !(forall c :: c in claims ==> FitsPayload(c)) then
        RejectedCall(Some(spec.name), InvalidToolOutput, FailedCall, encoding)
      else
        var status := if claims != [] then Usable else NoEvidence;
        ToolExecution(Some(spec.name), status, encoding.payload(spec.name, status, claims), claims, None)
  }

  /** The spec of a name. The constructor makes names unique, so the first is the only one. */
  function FindSpec(specs: seq<ToolSpec>, name: string): Option<ToolSpec> {
    if specs == [] then None
    else if ToolText(specs[0].name) == name then Some(specs[0])
    else FindSpec(specs[1..], name)
  }

  /** The outcome of one call, and the tools called by then. */
  function Execution(
      specs: seq<ToolSpec>, catalog: seq<Claim>, encoding: Encoding, called: set<ToolName>, name: string,
      arguments: Arguments): (ToolExecution, set<ToolName>)
  {
    match FindSpec(specs, name)
    case None => (RejectedCall(None, UnknownTool, Rejected, encoding), called)
    case Some(spec) =>
      if !ValidInput(arguments) then (RejectedCall(Some(spec.name), InvalidArguments, Rejected, encoding), called)
      else if spec.name in called then (RejectedCall(Some(spec.name), DuplicateCall, Rejected, encoding), called)
      else (RunTool(spec, catalog, encoding), called + {spec.name})
  }

  function SpecNames(specs: seq<ToolSpec>): (names: seq<ToolName>)
    ensures |names| == |specs| && forall i :: 0 <= i < |names| ==> names[i] == specs[i].name
  {
    seq(|specs|, i requires 0 <= i < |specs| => specs[i].name)
  }

  predicate ExactlyTheApprovedTools(specs: seq<ToolSpec>) {
    |specs| == |ALL_TOOLS| && (set n | n in SpecNames(specs)) == ALL_TOOLS
  }

  class ToolRegistry {
    const specs: seq<ToolSpec>
    const catalog: seq<Claim>
    const encoding: Encoding
    var called: set<ToolName>

    constructor (catalog: seq<Claim>, specs: seq<ToolSpec>, encoding: Encoding)
      requires ExactlyTheApprovedTools(specs)
      ensures this.specs == specs && this.catalog == catalog && this.encoding == encoding && called == {}
    {
      this.specs, this.catalog, this.encoding, this.called := specs, catalog, encoding, {};
    }

    method Execute(name: string, arguments: Arguments) returns (execution: ToolExecution)
      modifies this
      ensures (execution, called) == Execution(specs, catalog, encoding, old(called), name, arguments)
    {
      var found := FindSpec(specs, name);
      if found.None? {
        return RejectedCall(None, UnknownTool, Rejected, encoding);
      }
      var spec := found.value;
      if !ValidInput(arguments) {
        return RejectedCall(Some(spec.name), InvalidArguments, Rejected, encoding);
      }
      if spec.name in called {
        return RejectedCall(Some(spec.name), DuplicateCall, Rejected, encoding);
      }
      called := called + {spec.name};
      match spec.handler(catalog) {
        case HandlerRaised =>
          return RejectedCall(Some(spec.name), ToolFailed, FailedCall, encoding);
        case NotClaims =>
          return RejectedCall(Some(spec.name), InvalidToolOutput, FailedCall, encoding);
        case Returned(claims) =>
          var byId := ById(catalog);
          for i := 0 to |claims|
            invariant forall k :: 0 <= k < i ==> IsServerClaim(spec, byId, claims[k]) && FitsPayload(claims[k])
          {
            var c := claims[i];
            assert c in claims;
            if !IsServerClaim(spec, byId, c) || !FitsPayload(c) {
              return RejectedCall(Some(spec.name), InvalidToolOutput, FailedCall, encoding);
            }
          }
          var status := if claims != [] then Usable else NoEvidence;
          return ToolExecution(Some(spec.name), status, encoding.payload(spec.name, status, claims), claims, None);
      }
    }
  }

  // -- what a call answers ---------------------------------------------------

  /** The server's own claim of its id, owned by the tool, and of a size that a payload may have. */
  ghost predicate IsPresentable(spec: ToolSpec, catalog: seq<Claim>, c: Claim) {
    && c.id in spec.claims && IsLast(catalog, c)
    && 1 <= |c.id| <= 64 && 1 <= |c.text| <= 4000 && c.citations != []
  }

  lemma {:induction false} FoundSpecsAreTheFirst(specs: seq<ToolSpec>, i: nat)
    requires i < |specs| && forall j :: 0 <= j < i ==> ToolText(specs[j].name) != ToolText(specs[i].name)
    ensures FindSpec(specs, ToolText(specs[i].name)) == Some(specs[i])
  {
    if i > 0 {
      FoundSpecsAreTheFirst(specs[1..], i - 1);
    }
  }

  /** Every outcome of a call, the claims and the text that go with it, and whether the tool counts as called. */
  lemma ExecutionsAreAnsweredIff(
      specs: seq<ToolSpec>, catalog: seq<Claim>, encoding: Encoding, called: set<ToolName>, arguments: Arguments,
      i: nat)
    requires i < |specs| && forall j :: 0 <= j < i ==> ToolText(specs[j].name) != ToolText(specs[i].name)
    ensures var spec := specs[i];
      var (execution, after) := Execution(specs, catalog, encoding, called, ToolText(spec.name), arguments);
      var runs := arguments == EmptyObject && spec.name !in called;
      var handled := spec.handler(catalog);
      var sound := handled.Returned? && forall c :: c in handled.claims ==> IsPresentable(spec, catalog, c);
      && execution.tool == Some(spec.name)
      && after == (if runs then called + {spec.name} else called)
      && (execution.error == Some(InvalidArguments) <==> arguments != EmptyObject)
      && (execution.error == Some(DuplicateCall) <==> arguments == EmptyObject && spec.name in called)
      && (execution.error == Some(ToolFailed) <==> runs && handled.HandlerRaised?)
      && (execution.error == Some(InvalidToolOutput) <==> runs && !handled.HandlerRaised? && !sound)
      && (execution.error == None <==> runs && sound)
      && (execution.error == None ==>
            && execution.claims == handled.claims
            && execution.status == (if handled.claims == [] then NoEvidence else Usable)
            && execution.content == encoding.payload(spec.name, execution.status, handled.claims))
      && (execution.error.Some? ==>
            && execution.claims == []
            && execution.status == (if runs then FailedCall else Rejected)
            && execution.content == encoding.error(execution.error.value))
  {
    var spec := specs[i];
    FoundSpecsAreTheFirst(specs, i);
    forall c: Claim ensures c.id in ById(catalog) && ById(catalog)[c.id] == c <==> IsLast(catalog, c) {
      ByIdHoldsTheLast(catalog, c);
    }
  }

  /** A name without a tool is rejected, and nothing is called. */
  lemma {:induction false} UnknownToolsAreRejected(
      specs: seq<ToolSpec>, catalog: seq<Claim>, encoding: Encoding, called: set<ToolName>, name: string,
      arguments: Arguments)
    requires forall spec :: spec in specs ==> ToolText(spec.name) != name
    ensures Execution(specs, catalog, encoding, called, name, arguments)
      == (ToolExecution(None, Rejected, encoding.error(UnknownTool), [], Some(UnknownTool)), called)
  {
    if specs != [] {
      UnknownToolsAreRejected(specs[1..], catalog, encoding, called, name, arguments);
    }
  }

  /** The names by which a model calls the tools. */
  lemma ToolNamesAre(name: ToolName)
    ensures ToolText(name) == "get_run_status" <==> name == GetRunStatus
    ensures ToolText(name) == "get_tracking_diagnostics" <==> name == GetTrackingDiagnostics
    ensures ToolText(name) == "get_artifact_metadata" <==> name == GetArtifactMetadata
    ensures ToolText(name) == "get_model_provenance" <==> name == GetModelProvenance
    ensures ToolText(name) == "get_evidence_limitations" <==> name == GetEvidenceLimitations
  {
  }

  // -- what a call can bring in ----------------------------------------------

  /** Whatever its handler does, a call returns claims of the request's catalog only, and none with an error. */
  lemma CallsReturnOnlyServerClaims(
      specs: seq<ToolSpec>, catalog: seq<Claim>, encoding: Encoding, called: set<ToolName>, name: string,
      arguments: Arguments, c: Claim)
    requires c in Execution(specs, catalog, encoding, called, name, arguments).0.claims
    ensures var execution := Execution(specs, catalog, encoding, called, name, arguments).0;
      && !execution.IsError()
      && c in catalog && c.id in ById(catalog) && ById(catalog)[c.id] == c
      && FindSpec(specs, name).Some? && c.id in FindSpec(specs, name).value.claims
      && FindSpec(specs, name).value.name !in called
  {
    ByIdFinds(catalog, c.id);
  }

  lemma {:induction false} FoundSpecsAreListed(specs: seq<ToolSpec>, name: string)
    ensures FindSpec(specs, name).Some? ==>
      FindSpec(specs, name).value.name in SpecNames(specs) && ToolText(FindSpec(specs, name).value.name) == name
  {
    if specs != [] {
      FoundSpecsAreListed(specs[1..], name);
      assert SpecNames(specs)[0] == specs[0].name;
      assert SpecNames(specs)[1..] == SpecNames(specs[1..]);
    }
  }

  /** A tool runs at most once in a request: after any call that ran it, the next one is a duplicate. */
  lemma ToolsRunAtMostOnce(
      specs: seq<ToolSpec>, catalog: seq<Claim>, encoding: Encoding, called: set<ToolName>, name: string,
      arguments: Arguments, again: Arguments)
    ensures var (first, after) := Execution(specs, catalog, encoding, called, name, arguments);
      var second := Execution(specs, catalog, encoding, after, name, again).0;
      && called <= after
      && (first.status != Rejected ==> second.status == Rejected && second.claims == [])
      && (after != called <==> first.status != Rejected)
  {
  }

  // -- the approved tools ----------------------------------------------------

  const OWNED: map<ToolName, set<string>> := map[
    GetRunStatus := {"output_nature", "run_status"},
    GetTrackingDiagnostics := {
      "diag_tracking", "diag_legacy_tracking", "diag_synthetic", "diag_assignment", "diag_duration", "diag_active",
      "diag_short_tracklets", "diag_insufficient", "diag_interpretation", "diag_ground_truth",
      "diag_reliability_scope"},
    GetArtifactMetadata := {"artifact_integrity"},
    GetModelProvenance := {"provenance", "model_references", "model_details", "source_duration"},
    GetEvidenceLimitations := {"missing_evidence", "no_missing_evidence", "boundaries"}]

  function OwnedClaims(catalog: seq<Claim>, owned: set<string>): seq<Claim> {
    if catalog == [] then []
    else
      OwnedClaims(catalog[..|catalog| - 1], owned)
      + if catalog[|catalog| - 1].id in owned then [catalog[|catalog| - 1]] else []
  }

  /** The tool through which a claim reaches the model; a claim without one is only cited by the server. */
  function OwnerOf(id: string): Option<ToolName> {
    match id
    case "output_nature" => Some(GetRunStatus)
    case "run_status" => Some(GetRunStatus)
    case "diag_tracking" => Some(GetTrackingDiagnostics)
    case "diag_legacy_tracking" => Some(GetTrackingDiagnostics)
    case "diag_synthetic" => Some(GetTrackingDiagnostics)
    case "diag_assignment" => Some(GetTrackingDiagnostics)
    case "diag_duration" => Some(GetTrackingDiagnostics)
    case "diag_active" => Some(GetTrackingDiagnostics)
    case "diag_short_tracklets" => Some(GetTrackingDiagnostics)
    case "diag_insufficient" => Some(GetTrackingDiagnostics)
    case "diag_interpretation" => Some(GetTrackingDiagnostics)
    case "diag_ground_truth" => Some(GetTrackingDiagnostics)
    case "diag_reliability_scope" => Some(GetTrackingDiagnostics)
    case "artifact_integrity" => Some(GetArtifactMetadata)
    case "provenance" => Some(GetModelProvenance)
    case "model_references" => Some(GetModelProvenance)
    case "model_details" => Some(GetModelProvenance)
    case "source_duration" => Some(GetModelProvenance)
    case "missing_evidence" => Some(GetEvidenceLimitations)
    case "no_missing_evidence" => Some(GetEvidenceLimitations)
    case "boundaries" => Some(GetEvidenceLimitations)
    case _ => None
  }

  /** Every claim reaches the model through its own tool, and through no other one. */
  lemma EveryClaimHasOneTool(id: string, name: ToolName)
    ensures name in OWNED
    ensures id in OWNED[name] <==> OwnerOf(id) == Some(name)
  {
  }

  /** A shipped tool hands its claims over in the order of the catalog. */
  lemma {:induction false} OwnedClaimsKeepTheirOrder(first: seq<Claim>, second: seq<Claim>, owned: set<string>)
    ensures OwnedClaims(first + second, owned) == OwnedClaims(first, owned) + OwnedClaims(second, owned)
    ensures |second| == 1 ==> OwnedClaims(second, owned) == if second[0].id in owned then second else []
  {
    hide OwnedClaims;
    OneMoreOwned(second, owned);
    if second == [] {
      assert first + second == first;
    } else {
      var n := |second| - 1;
      OwnedClaimsKeepTheirOrder(first, second[..n], owned);
      OneMoreOwned(first + second, owned);
      OneMoreOwned([], owned);
      assert (first + second)[..|first| + n] == first + second[..n];
    }
  }

  lemma OneMoreOwned(catalog: seq<Claim>, owned: set<string>)
    ensures catalog == [] ==> OwnedClaims(catalog, owned) == []
    ensures catalog != [] ==>
      var last := catalog[|catalog| - 1];
      OwnedClaims(catalog, owned) ==
        OwnedClaims(catalog[..|catalog| - 1], owned) + if last.id in owned then [last] else []
  {
  }

  function OwnedHandler(owned: set<string>): Handler {
    (catalog: seq<Claim>) => Returned(OwnedClaims(catalog, owned))
  }

  function ReadOnlyTool(name: ToolName): ToolSpec
    requires name in OWNED
  {
    ToolSpec(name, OWNED[name], OwnedHandler(OWNED[name]))
  }

  const READ_ONLY_TOOLS: seq<ToolSpec> := [
    ReadOnlyTool(GetRunStatus), ReadOnlyTool(GetTrackingDiagnostics), ReadOnlyTool(GetArtifactMetadata),
    ReadOnlyTool(GetModelProvenance), ReadOnlyTool(GetEvidenceLimitations)]

  lemma {:induction false} OwnedClaimsIff(catalog: seq<Claim>, owned: set<string>, c: Claim)
    ensures c in OwnedClaims(catalog, owned) <==> c in catalog && c.id in owned
    ensures |OwnedClaims(catalog, owned)| <= |catalog|
  {
    if catalog != [] {
      OwnedClaimsIff(catalog[..|catalog| - 1], owned, c);
      assert catalog == catalog[..|catalog| - 1] + [catalog[|catalog| - 1]];
    }
  }

  ghost predicate DistinctClaimIds(catalog: seq<Claim>) {
    forall i, j :: 0 <= i < j < |catalog| ==> catalog[i].id != catalog[j].id
  }

  lemma DistinctIdsFindThemselves(catalog: seq<Claim>, c: Claim)
    requires DistinctClaimIds(catalog) && c in catalog
    ensures c.id in ById(catalog) && ById(catalog)[c.id] == c
  {
    ByIdFinds(catalog, c.id);
    var found := ById(catalog)[c.id];
    var i :| 0 <= i < |catalog| && catalog[i] == c;
    var j :| 0 <= j < |catalog| && catalog[j] == found;
  }

  /** A shipped tool hands over all of its claims in the catalog, and its call succeeds when they fit the payload. */
  lemma ReadOnlyToolsSucceed(name: ToolName, catalog: seq<Claim>, encoding: Encoding, c: Claim)
    requires DistinctClaimIds(catalog) && forall x :: x in catalog ==> FitsPayload(x)
    ensures name in OWNED && !RunTool(ReadOnlyTool(name), catalog, encoding).IsError()
    ensures c in RunTool(ReadOnlyTool(name), catalog, encoding).claims <==> c in catalog && c.id in OWNED[name]
  {
    var claims := OwnedClaims(catalog, OWNED[name]);
    forall x ensures x in claims <==> x in catalog && x.id in OWNED[name] {
      OwnedClaimsIff(catalog, OWNED[name], x);
    }
    forall x | x in claims ensures x.id in ById(catalog) && ById(catalog)[x.id] == x {
      DistinctIdsFindThemselves(catalog, x);
    }
  }

  lemma {:induction false} OwnedIdsAreDistinct(catalog: seq<Claim>, owned: set<string>)
    requires DistinctClaimIds(catalog)
    ensures DistinctClaimIds(OwnedClaims(catalog, owned))
  {
    if catalog != [] {
      var earlier, last := catalog[..|catalog| - 1], catalog[|catalog| - 1];
      OwnedIdsAreDistinct(earlier, owned);
      forall c | c in OwnedClaims(earlier, owned) ensures c.id != last.id {
        OwnedClaimsIff(earlier, owned, c);
        var i :| 0 <= i < |earlier| && earlier[i] == c;
        assert catalog[i] == c;
      }
    }
  }

  lemma {:induction false} DistinctIdsFitInSet(claims: seq<Claim>, bound: set<string>)
    requires DistinctClaimIds(claims) && forall c :: c in claims ==> c.id in bound
    ensures |claims| <= |bound|
  {
    if claims != [] {
      DistinctIdsFitInSet(claims[1..], bound - {claims[0].id});
    }
  }

  lemma OwnedSetsAreSmall(name: ToolName)
    ensures name in OWNED && |OWNED[name]| <= 11
  {
  }

  /** Over claims with distinct ids, a shipped tool hands over no more claims than it owns: eleven at most. */
  lemma ReadOnlyToolsAnswerShortly(catalog: seq<Claim>, i: nat)
    requires DistinctClaimIds(catalog) && i < |READ_ONLY_TOOLS|
    ensures var handled := READ_ONLY_TOOLS[i].handler(catalog); handled.Returned? && |handled.claims| <= 11
  {
    var owned := OWNED[READ_ONLY_TOOLS[i].name];
    OwnedIdsAreDistinct(catalog, owned);
    forall c | c in OwnedClaims(catalog, owned) ensures c.id in owned {
      OwnedClaimsIff(catalog, owned, c);
    }
    DistinctIdsFitInSet(OwnedClaims(catalog, owned), owned);
    OwnedSetsAreSmall(READ_ONLY_TOOLS[i].name);
  }
}
