/** The bounded, schema-validated record of one agent request. */
module AgentTrace {
  import opened Common
  import opened Pricing
  import opened Grounding
  import opened Provider
  import opened AgentTools

  const MAX_TRACED_TOOL_CALLS: nat := 4
  const MAX_TRACED_TURNS: nat := 5
  const MAX_CLAIMS: nat := 32

  datatype StopReason =
    | Answered | UnsupportedQuestion | EvidenceNotAvailable | NoRelevantClaim | SelectionRejected | CitationRejected
    | CrossRunRejected | ToolBudgetExhausted | TurnBudgetExhausted | DeadlineExceeded | PromptBudgetExceeded
    | ModelTimeout | BudgetStop | ModelRefusal | ModelTruncated | MalformedResponse | ProviderErrorStop

  datatype StopDetail = NoDetail | FromProvider(kind: FailureKind) | FromTool(code: ToolErrorCode)

  datatype ModelMode = OfflineDemoFake | RealModel | NotInvoked

  datatype UsageSource = ProviderReported | UsageUnavailable | ScriptedConstant | NotCalled

  datatype TurnTrace = TurnTrace(turn: int, durationMs: real, usage: Option<TokenUsage>)

  datatype ToolCallTrace = ToolCallTrace(
    sequence: int, turn: int, tool: Option<ToolName>, status: ToolCallStatus, durationMs: real,
    claimIds: seq<string>, error: Option<ToolErrorCode>)

  datatype Trace = Trace(
    mode: ModelMode, termination: StopReason, detail: StopDetail, durationMs: real, modelTurns: nat,
    turns: seq<TurnTrace>, toolCalls: seq<ToolCallTrace>, toolCallsRefused: nat, returned: seq<string>,
    selected: seq<string>, rendered: seq<string>, selectedIdsRejected: nat, usage: TokenUsage,
    usageComplete: bool, usageSource: UsageSource, cost: Option<real>, costIsLowerBound: bool,
    validToolCalls: nat, invalidToolCalls: nat, modelCallMs: real, toolCallMs: real, peakPromptChars: nat)

  // -- schema bounds ---------------------------------------------------------

  predicate IsClaimIdChar(c: char) {
    'a' <= c <= 'z' || '0' <= c <= '9' || c == '_'
  }

  predicate ValidClaimId(id: string) {
    1 <= |id| <= 64 && 'a' <= id[0] <= 'z' && forall c :: c in id ==> IsClaimIdChar(c)
  }

  predicate ValidIds(ids: seq<string>) {
    |ids| <= MAX_CLAIMS && forall id :: id in ids ==> ValidClaimId(id)
  }

  predicate ValidTurn(t: TurnTrace) {
    1 <= t.turn <= MAX_TRACED_TURNS && t.durationMs >= 0.0
  }

  predicate ValidToolCall(c: ToolCallTrace) {
    && 1 <= c.sequence <= MAX_TRACED_TOOL_CALLS
    && 1 <= c.turn <= MAX_TRACED_TURNS
    && c.durationMs >= 0.0
    && ValidIds(c.claimIds)
  }

  predicate ValidTrace(t: Trace) {
    && t.durationMs >= 0.0
    && t.modelTurns <= MAX_TRACED_TURNS
    && |t.turns| <= MAX_TRACED_TURNS
    && |t.toolCalls| <= MAX_TRACED_TOOL_CALLS
    && ValidIds(t.returned) && ValidIds(t.selected) && ValidIds(t.rendered)
    && (t.cost.Some? ==> t.cost.value >= 0.0)
    && t.modelCallMs >= 0.0 && t.toolCallMs >= 0.0
  }

  // -- the facts of one request ----------------------------------------------

  datatype Facts = Facts(
    turns: seq<TurnTrace>, toolCalls: seq<ToolCallTrace>, returned: seq<string>, usage: TokenUsage,
    usageComplete: bool, costUsd: real)

  const NO_USAGE := TokenUsage(0, 0, 0, 0)
  const NOTHING: Facts := Facts([], [], [], NO_USAGE, true, 0.0)

  function Milliseconds(seconds: real): (ms: real)
    ensures ms >= 0.0
  {
    if seconds > 0.0 then seconds * 1000.0 else 0.0
  }

  function UsageOf(telemetry: Option<Telemetry>): Option<TokenUsage> {
    if telemetry.Some? then telemetry.value.usage else None
  }

  function Plus(a: TokenUsage, b: TokenUsage): TokenUsage {
    TokenUsage(a.input + b.input, a.output + b.output, a.cacheCreation + b.cacheCreation, a.cacheRead + b.cacheRead)
  }

  function NextTurn(facts: Facts, seconds: real, telemetry: Option<Telemetry>): TurnTrace {
    TurnTrace(|facts.turns| + 1, Milliseconds(seconds), UsageOf(telemetry))
  }

  function WithTurn(facts: Facts, price: Option<ModelPrice>, seconds: real, telemetry: Option<Telemetry>): Facts {
    var next := facts.(turns := facts.turns + [NextTurn(facts, seconds, telemetry)]);
    match UsageOf(telemetry)
    case None => next.(usageComplete := false)
    case Some(usage) => next.(
      usage := Plus(facts.usage, usage),
      costUsd := facts.costUsd + if price.Some? then RequestCost(price.value, usage) else 0.0)
  }

  function ClaimIdsOf(claims: seq<Claim>): (ids: seq<string>)
    ensures |ids| == |claims| && forall i :: 0 <= i < |ids| ==> ids[i] == claims[i].id
  {
    seq(|claims|, i requires 0 <= i < |claims| => claims[i].id)
  }

  /** Ids not seen before join at the end, once each. */
  function AddNew(seen: seq<string>, ids: seq<string>): seq<string> {
    if ids == [] then seen
    else
      var earlier := AddNew(seen, ids[..|ids| - 1]);
      if ids[|ids| - 1] in earlier then earlier else earlier + [ids[|ids| - 1]]
  }

  function NextToolCall(facts: Facts, seconds: real, execution: ToolExecution): ToolCallTrace {
    ToolCallTrace(
      |facts.toolCalls| + 1, |facts.turns|, execution.tool, execution.status, Milliseconds(seconds),
      ClaimIdsOf(execution.claims), execution.error)
  }

  /** The returned ids are noted first; the record of the call itself may then be refused by its schema. */
  function WithTool(facts: Facts, seconds: real, execution: ToolExecution): Facts {
    var noted := facts.(returned := AddNew(facts.returned, ClaimIdsOf(execution.claims)));
    var call := NextToolCall(facts, seconds, execution);
    if ValidToolCall(call) then noted.(toolCalls := facts.toolCalls + [call]) else noted
  }

  function CountStatus(calls: seq<ToolCallTrace>, rejected: bool): nat {
    if calls == [] then 0
    else CountStatus(calls[..|calls| - 1], rejected)
         + if calls[|calls| - 1].status.Rejected? == rejected then 1 else 0
  }

  function TurnMs(turns: seq<TurnTrace>): real {
    if turns == [] then 0.0 else TurnMs(turns[..|turns| - 1]) + turns[|turns| - 1].durationMs
  }

  function ToolMs(calls: seq<ToolCallTrace>): real {
    if calls == [] then 0.0 else ToolMs(calls[..|calls| - 1]) + calls[|calls| - 1].durationMs
  }

  function SourceOf(facts: Facts, mode: ModelMode): UsageSource {
    if facts.turns == [] then NotCalled
    else if mode.OfflineDemoFake? then ScriptedConstant
    else if facts.usageComplete then ProviderReported else UsageUnavailable
  }

  /** How a request ended, for the trace. */
  datatype Ending = Ending(
    termination: StopReason, detail: StopDetail, mode: ModelMode, seconds: real, selected: seq<string>,
    rendered: seq<string>, selectedIdsRejected: nat)

  function TraceOf(
      facts: Facts, price: Option<ModelPrice>, refused: nat, peakPromptChars: nat, ending: Ending): Trace
  {
    var cost := if facts.turns != [] && price.Some? && !ending.mode.OfflineDemoFake? then Some(facts.costUsd) else None;
    Trace(
      ending.mode, ending.termination, ending.detail, Milliseconds(ending.seconds), |facts.turns|, facts.turns,
      facts.toolCalls, refused, facts.returned, ending.selected, ending.rendered, ending.selectedIdsRejected,
      facts.usage, facts.usageComplete, SourceOf(facts, ending.mode), cost, cost.Some? && !facts.usageComplete,
      CountStatus(facts.toolCalls, false), CountStatus(facts.toolCalls, true), TurnMs(facts.turns),
      ToolMs(facts.toolCalls), peakPromptChars)
  }

  class TraceRecorder {
    const price: Option<ModelPrice>
    var turns: seq<TurnTrace>
    var toolCalls: seq<ToolCallTrace>
    var returned: seq<string>
    var usage: TokenUsage
    var usageComplete: bool
    var costUsd: real
    var toolCallsRefused: nat
    var peakPromptChars: nat

    constructor (price: Option<ModelPrice>)
      ensures this.price == price && State() == NOTHING && toolCallsRefused == 0 && peakPromptChars == 0
    {
      this.price := price;
      turns, toolCalls, returned, usage, usageComplete, costUsd := [], [], [], NO_USAGE, true, 0.0;
      toolCallsRefused, peakPromptChars := 0, 0;
    }

    function State(): Facts
      reads this
    {
      Facts(turns, toolCalls, returned, usage, usageComplete, costUsd)
    }

    /** False when the schema refuses the turn; then nothing was recorded. */
    method RecordTurn(seconds: real, telemetry: Option<Telemetry>) returns (recorded: bool)
      modifies this
      ensures recorded <==> ValidTurn(NextTurn(old(State()), seconds, telemetry))
      ensures State() == if recorded then WithTurn(old(State()), price, seconds, telemetry) else old(State())
      ensures toolCallsRefused == old(toolCallsRefused) && peakPromptChars == old(peakPromptChars)
    {
      var reported := if telemetry.Some? then telemetry.value.usage else None;
      var turn := TurnTrace(|turns| + 1, Milliseconds(seconds), reported);
      if !ValidTurn(turn) {
        return false;
      }
      turns := turns + [turn];
      if reported.None? {
        usageComplete := false;
        return true;
      }
      if price.Some? {
        costUsd := costUsd + RequestCost(price.value, reported.value);
      }
      usage := Plus(usage, reported.value);
      return true;
    }

    method RecordTool(seconds: real, execution: ToolExecution) returns (recorded: bool)
      modifies this
      ensures recorded <==> ValidToolCall(NextToolCall(old(State()), seconds, execution))
      ensures State() == WithTool(old(State()), seconds, execution)
      ensures toolCallsRefused == old(toolCallsRefused) && peakPromptChars == old(peakPromptChars)
    {
      var ids := ClaimIdsOf(execution.claims);
      for i := 0 to |ids|
        invariant returned == AddNew(old(returned), ids[..i])
        invariant turns == old(turns) && toolCalls == old(toolCalls) && usage == old(usage)
        invariant usageComplete == old(usageComplete) && costUsd == old(costUsd)
        invariant toolCallsRefused == old(toolCallsRefused) && peakPromptChars == old(peakPromptChars)
      {
        assert ids[..i + 1][..i] == ids[..i];
        if ids[i] !in returned {
          returned := returned + [ids[i]];
        }
      }
      assert ids[..|ids|] == ids;
      var call := ToolCallTrace(
        |toolCalls| + 1, |turns|, execution.tool, execution.status, Milliseconds(seconds), ids, execution.error);
      if !ValidToolCall(call) {
        return false;
      }
      toolCalls := toolCalls + [call];
      return true;
    }

    /** `None` when the schema refuses the trace. */
    method Build(ending: Ending) returns (trace: Option<Trace>)
      ensures var built := TraceOf(State(), price, toolCallsRefused, peakPromptChars, ending);
        trace == if ValidTrace(built) then Some(built) else None
    {
      var built := TraceOf(State(), price, toolCallsRefused, peakPromptChars, ending);
      return if ValidTrace(built) then Some(built) else None;
    }
  }

  // -- what the record always says -------------------------------------------

  function SumUsage(turns: seq<TurnTrace>): TokenUsage {
    if turns == [] then NO_USAGE
    else
      var earlier := SumUsage(turns[..|turns| - 1]);
      match turns[|turns| - 1].usage
      case None => earlier
      case Some(usage) => Plus(earlier, usage)
  }

  function SumCost(turns: seq<TurnTrace>, price: Option<ModelPrice>): real {
    if turns == [] || price.None? then 0.0
    else SumCost(turns[..|turns| - 1], price)
         + match turns[|turns| - 1].usage case None => 0.0 case Some(usage) => RequestCost(price.value, usage)
  }

  /** Totals are those of the recorded turns, numbers run from 1, and the returned ids are those of the calls. */
  ghost predicate Consistent(facts: Facts, price: Option<ModelPrice>) {
    && facts.usage == SumUsage(facts.turns)
    && facts.costUsd == SumCost(facts.turns, price)
    && (facts.usageComplete <==> forall t :: t in facts.turns ==> t.usage.Some?)
    && (forall i :: 0 <= i < |facts.turns| ==> facts.turns[i].turn == i + 1 && ValidTurn(facts.turns[i]))
    && (forall i :: 0 <= i < |facts.toolCalls| ==>
          facts.toolCalls[i].sequence == i + 1 && ValidToolCall(facts.toolCalls[i]))
    && Distinct(facts.returned)
    && (forall i, id :: 0 <= i < |facts.toolCalls| && id in facts.toolCalls[i].claimIds ==> id in facts.returned)
  }

  lemma {:induction false} AddNewIff(seen: seq<string>, ids: seq<string>)
    requires Distinct(seen)
    ensures Distinct(AddNew(seen, ids))
    ensures forall id :: id in AddNew(seen, ids) <==> id in seen || id in ids
  {
    if ids != [] {
      AddNewIff(seen, ids[..|ids| - 1]);
      assert ids == ids[..|ids| - 1] + [ids[|ids| - 1]];
    }
  }

  lemma NothingIsConsistent(price: Option<ModelPrice>)
    ensures Consistent(NOTHING, price)
  {
  }

  lemma SumsOfOneMoreTurn(turns: seq<TurnTrace>, t: TurnTrace, price: Option<ModelPrice>)
    ensures SumUsage(turns + [t]) == match t.usage case None => SumUsage(turns) case Some(u) => Plus(SumUsage(turns), u)
    ensures SumCost(turns + [t], price)
      == SumCost(turns, price) + if t.usage.Some? && price.Some? then RequestCost(price.value, t.usage.value) else 0.0
  {
    hide RequestCost, Plus;
    assert (turns + [t])[..|turns|] == turns;
  }

  lemma TurnsKeepConsistent(facts: Facts, price: Option<ModelPrice>, seconds: real, telemetry: Option<Telemetry>)
    requires Consistent(facts, price) && ValidTurn(NextTurn(facts, seconds, telemetry))
    ensures Consistent(WithTurn(facts, price, seconds, telemetry), price)
  {
    hide RequestCost, ValidToolCall, SumUsage, SumCost, Plus;
    var turn := NextTurn(facts, seconds, telemetry);
    SumsOfOneMoreTurn(facts.turns, turn, price);
    assert turn in facts.turns + [turn];
  }

  lemma ToolsKeepConsistent(facts: Facts, price: Option<ModelPrice>, seconds: real, execution: ToolExecution)
    requires Consistent(facts, price)
    ensures Consistent(WithTool(facts, seconds, execution), price)
  {
    hide ValidToolCall, ValidTurn, SumCost, SumUsage;
    AddNewIff(facts.returned, ClaimIdsOf(execution.claims));
  }

  /** A turn is refused only after the fifth; a call only after the fourth, or for its ids. */
  lemma RecordsAreAcceptedIff(
      facts: Facts, price: Option<ModelPrice>, seconds: real, telemetry: Option<Telemetry>, execution: ToolExecution)
    requires Consistent(facts, price)
    ensures ValidTurn(NextTurn(facts, seconds, telemetry)) <==> |facts.turns| < MAX_TRACED_TURNS
    ensures ValidToolCall(NextToolCall(facts, seconds, execution)) <==>
      && |facts.toolCalls| < MAX_TRACED_TOOL_CALLS
      && 1 <= |facts.turns| <= MAX_TRACED_TURNS
      && ValidIds(ClaimIdsOf(execution.claims))
  {
  }

  lemma {:induction false} EveryCallIsValidOrNot(calls: seq<ToolCallTrace>)
    ensures CountStatus(calls, false) + CountStatus(calls, true) == |calls|
  {
    if calls != [] {
      EveryCallIsValidOrNot(calls[..|calls| - 1]);
    }
  }

  lemma {:induction false} TotalsAreNonNegative(facts: Facts)
    requires forall t :: t in facts.turns ==> t.durationMs >= 0.0
    requires forall c :: c in facts.toolCalls ==> c.durationMs >= 0.0
    ensures TurnMs(facts.turns) >= 0.0 && ToolMs(facts.toolCalls) >= 0.0
    decreases |facts.turns| + |facts.toolCalls|
  {
    if facts.turns != [] {
      TotalsAreNonNegative(facts.(turns := facts.turns[..|facts.turns| - 1]));
    } else if facts.toolCalls != [] {
      TotalsAreNonNegative(facts.(toolCalls := facts.toolCalls[..|facts.toolCalls| - 1]));
    }
  }

  lemma {:induction false} SumCostIsNonNegative(turns: seq<TurnTrace>, price: Option<ModelPrice>)
    requires price.Some? ==> SanePrice(price.value)
    ensures SumCost(turns, price) >= 0.0
  {
    if turns != [] && price.Some? {
      SumCostIsNonNegative(turns[..|turns| - 1], price);
      if turns[|turns| - 1].usage.Some? {
        CostsAreNonNegative(price.value, turns[|turns| - 1].usage.value);
      }
    }
  }

  /** The finished trace fits its schema exactly when the three lists of claim ids do. */
  lemma TracesAreAcceptedIff(
      facts: Facts, price: Option<ModelPrice>, refused: nat, peakPromptChars: nat, ending: Ending)
    requires Consistent(facts, price) && (price.Some? ==> SanePrice(price.value))
    ensures ValidTrace(TraceOf(facts, price, refused, peakPromptChars, ending)) <==>
      ValidIds(facts.returned) && ValidIds(ending.selected) && ValidIds(ending.rendered)
  {
    hide ValidIds;
    TotalsAreNonNegative(facts);
    SumCostIsNonNegative(facts.turns, price);
    assert |facts.turns| > 0 ==> ValidTurn(facts.turns[|facts.turns| - 1]);
    assert |facts.toolCalls| > 0 ==> ValidToolCall(facts.toolCalls[|facts.toolCalls| - 1]);
  }

  // -- what a finished trace says of its turns and calls ---------------------

  /** The cost and the source of the usage, as the turns and the mode have it. */
  ghost predicate AccountsFor(trace: Trace, price: Option<ModelPrice>) {
    var called, scripted := trace.turns != [], trace.mode == OfflineDemoFake;
    var complete := forall t :: t in trace.turns ==> t.usage.Some?;
    && trace.cost == (if called && price.Some? && !scripted then Some(CostReported(trace.turns, price.value)) else None)
    && (trace.costIsLowerBound <==> trace.cost.Some? && !complete)
    && (trace.usageSource == NotCalled <==> !called)
    && (trace.usageSource == ScriptedConstant <==> called && scripted)
    && (trace.usageSource == ProviderReported <==> called && !scripted && complete)
    && (trace.usageSource == UsageUnavailable <==> called && !scripted && !complete)
    && trace.modelTurns == |trace.turns|
    && trace.modelCallMs == Total(TurnDurations(trace.turns))
    && trace.toolCallMs == Total(CallDurations(trace.toolCalls))
    && trace.usage.input as real == Total(Reported(trace.turns, (u: TokenUsage) => u.input))
    && trace.usage.output as real == Total(Reported(trace.turns, (u: TokenUsage) => u.output))
    && trace.usage.cacheCreation as real == Total(Reported(trace.turns, (u: TokenUsage) => u.cacheCreation))
    && trace.usage.cacheRead as real == Total(Reported(trace.turns, (u: TokenUsage) => u.cacheRead))
    && trace.invalidToolCalls == |set i | 0 <= i < |trace.toolCalls| && trace.toolCalls[i].status == Rejected|
    && trace.validToolCalls == |set i | 0 <= i < |trace.toolCalls| && trace.toolCalls[i].status != Rejected|
  }

  function Total(amounts: seq<real>): real {
    if amounts == [] then 0.0 else amounts[0] + Total(amounts[1..])
  }

  function TurnDurations(turns: seq<TurnTrace>): seq<real> {
    seq(|turns|, i requires 0 <= i < |turns| => turns[i].durationMs)
  }

  function CallDurations(calls: seq<ToolCallTrace>): seq<real> {
    seq(|calls|, i requires 0 <= i < |calls| => calls[i].durationMs)
  }

  /** One count of the reported usage of each turn. */
  function Reported(turns: seq<TurnTrace>, count: TokenUsage -> nat): seq<real> {
    seq(|turns|, i requires 0 <= i < |turns| =>
      if turns[i].usage.Some? then count(turns[i].usage.value) as real else 0.0)
  }

  lemma {:induction false} TotalOfOneMore(amounts: seq<real>, last: real)
    ensures Total(amounts + [last]) == Total(amounts) + last
  {
    if amounts == [] {
      assert amounts + [last] == [last] && [last][1..] == [];
    } else {
      TotalOfOneMore(amounts[1..], last);
      assert (amounts + [last])[1..] == amounts[1..] + [last];
    }
  }

  lemma {:induction false} TurnsTakeTheirTotal(turns: seq<TurnTrace>)
    ensures TurnMs(turns) == Total(TurnDurations(turns))
  {
    if turns != [] {
      var n := |turns| - 1;
      TurnsTakeTheirTotal(turns[..n]);
      assert TurnDurations(turns) == TurnDurations(turns[..n]) + [turns[n].durationMs];
      TotalOfOneMore(TurnDurations(turns[..n]), turns[n].durationMs);
    }
  }

  lemma {:induction false} CallsTakeTheirTotal(calls: seq<ToolCallTrace>)
    ensures ToolMs(calls) == Total(CallDurations(calls))
  {
    if calls != [] {
      var n := |calls| - 1;
      CallsTakeTheirTotal(calls[..n]);
      assert CallDurations(calls) == CallDurations(calls[..n]) + [calls[n].durationMs];
      TotalOfOneMore(CallDurations(calls[..n]), calls[n].durationMs);
    }
  }

  /** A count that adds up over usages adds up over turns. */
  lemma {:induction false} CountsAddUp(turns: seq<TurnTrace>, count: TokenUsage -> nat)
    requires count(NO_USAGE) == 0 && forall a, b :: count(Plus(a, b)) == count(a) + count(b)
    ensures count(SumUsage(turns)) as real == Total(Reported(turns, count))
  {
    hide Plus;
    if turns != [] {
      var n := |turns| - 1;
      var last := if turns[n].usage.Some? then count(turns[n].usage.value) as real else 0.0;
      CountsAddUp(turns[..n], count);
      assert Reported(turns, count) == Reported(turns[..n], count) + [last];
      TotalOfOneMore(Reported(turns[..n], count), last);
    }
  }

  lemma UsageAddsUp(turns: seq<TurnTrace>)
    ensures var usage := SumUsage(turns);
      && usage.input as real == Total(Reported(turns, (u: TokenUsage) => u.input))
      && usage.output as real == Total(Reported(turns, (u: TokenUsage) => u.output))
      && usage.cacheCreation as real == Total(Reported(turns, (u: TokenUsage) => u.cacheCreation))
      && usage.cacheRead as real == Total(Reported(turns, (u: TokenUsage) => u.cacheRead))
  {
    hide SumUsage, Reported, Total;
    CountsAddUp(turns, (u: TokenUsage) => u.input);
    CountsAddUp(turns, (u: TokenUsage) => u.output);
    CountsAddUp(turns, (u: TokenUsage) => u.cacheCreation);
    CountsAddUp(turns, (u: TokenUsage) => u.cacheRead);
  }

  function CostReported(turns: seq<TurnTrace>, price: ModelPrice): real {
    if turns == [] then 0.0
    else
      CostReported(turns[1..], price)
      + if turns[0].usage.Some? then RequestCost(price, turns[0].usage.value) else 0.0
  }

  lemma {:induction false} CostsFromEitherEnd(turns: seq<TurnTrace>, price: ModelPrice)
    ensures SumCost(turns, Some(price)) == CostReported(turns, price)
  {
    hide RequestCost;
    if |turns| > 1 {
      var n := |turns| - 1;
      var first: seq<TurnTrace>, inner := [turns[0]], turns[1..n];
      CostsFromEitherEnd(turns[..n], price);
      CostsFromEitherEnd(turns[1..], price);
      CostsFromEitherEnd(inner, price);
      assert turns[..n][1..] == inner && turns[1..][..n - 1] == inner;
    } else if |turns| == 1 {
      assert turns[..0] == [] && turns[1..] == [];
    }
  }

  function CallsThatAre(calls: seq<ToolCallTrace>, rejected: bool): set<int> {
    set i | 0 <= i < |calls| && calls[i].status.Rejected? == rejected
  }

  lemma {:induction false} StatusesAreCounted(calls: seq<ToolCallTrace>, rejected: bool)
    ensures CountStatus(calls, rejected) == |CallsThatAre(calls, rejected)|
  {
    if calls != [] {
      var n := |calls| - 1;
      StatusesAreCounted(calls[..n], rejected);
      assert CallsThatAre(calls, rejected)
          == CallsThatAre(calls[..n], rejected) + if calls[n].status.Rejected? == rejected then {n} else {};
    }
  }

  lemma TracesAccount(facts: Facts, price: Option<ModelPrice>, refused: nat, peakPromptChars: nat, ending: Ending)
    requires Consistent(facts, price)
    ensures AccountsFor(TraceOf(facts, price, refused, peakPromptChars, ending), price)
  {
    hide SumCost, CostReported, CountStatus, SumUsage, ValidTurn, ValidToolCall, Total, TurnMs, ToolMs, Reported,
      TurnDurations, CallDurations;
    var calls := facts.toolCalls;
    TurnsTakeTheirTotal(facts.turns);
    CallsTakeTheirTotal(calls);
    UsageAddsUp(facts.turns);
    StatusesAreCounted(calls, true);
    StatusesAreCounted(calls, false);
    assert CallsThatAre(calls, true) == set i | 0 <= i < |calls| && calls[i].status == Rejected;
    assert CallsThatAre(calls, false) == set i | 0 <= i < |calls| && calls[i].status != Rejected;
    if price.Some? {
      CostsFromEitherEnd(facts.turns, price.value);
    }
  }

  /** Returned ids stand in the order in which they were first returned. */
  lemma {:induction false} NewIdsJoinAtTheEnd(seen: seq<string>, first: seq<string>, second: seq<string>)
    ensures AddNew(seen, first + second) == AddNew(AddNew(seen, first), second)
    ensures |second| == 1 ==> AddNew(seen, second) == if second[0] in seen then seen else seen + second
  {
    hide AddNew;
    OneMoreId(AddNew(seen, first), second);
    OneMoreId(seen, second);
    if second == [] {
      assert first + second == first;
    } else {
      var n := |second| - 1;
      NewIdsJoinAtTheEnd(seen, first, second[..n]);
      OneMoreId(seen, first + second);
      OneMoreId(seen, []);
      assert (first + second)[..|first| + n] == first + second[..n];
    }
  }

  lemma OneMoreId(seen: seq<string>, ids: seq<string>)
    ensures ids == [] ==> AddNew(seen, ids) == seen
    ensures ids != [] ==>
      var earlier, last := AddNew(seen, ids[..|ids| - 1]), ids[|ids| - 1];
      AddNew(seen, ids) == if last in earlier then earlier else earlier + [last]
  {
  }

  /** What the record of a turn and of a call says, whatever came before. */
  lemma RecordsSay(
      facts: Facts, price: Option<ModelPrice>, seconds: real, telemetry: Option<Telemetry>, execution: ToolExecution)
    requires seconds >= 0.0 && Consistent(facts, price)
    ensures var next := WithTurn(facts, price, seconds, telemetry);
      && next.turns == facts.turns + [TurnTrace(|facts.turns| + 1, seconds * 1000.0,
           if telemetry.Some? && telemetry.value.usage.Some? then telemetry.value.usage else None)]
      && next.toolCalls == facts.toolCalls && next.returned == facts.returned
    ensures var next := WithTool(facts, seconds, execution);
      && next.turns == facts.turns
      && (ValidIds(ClaimIdsOf(execution.claims)) && 1 <= |facts.turns| <= 5 && |facts.toolCalls| < 4 ==>
            next.toolCalls == facts.toolCalls + [ToolCallTrace(
              |facts.toolCalls| + 1, |facts.turns|, execution.tool, execution.status, seconds * 1000.0,
              ClaimIdsOf(execution.claims), execution.error)])
      && forall id :: id in next.returned <==> id in facts.returned || id in ClaimIdsOf(execution.claims)
  {
    hide RequestCost, SumUsage, SumCost;
    AddNewIff(facts.returned, ClaimIdsOf(execution.claims));
  }
}
