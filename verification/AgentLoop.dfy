/** The bounded agent: an arbitrary model drives it, and only claims that its tools returned can be shown. */
module AgentLoop {
  import opened Common
  import opened Pricing
  import opened Provider
  import opened Grounding
  import opened Evidence
  import opened AgentTools
  import opened AgentTrace
  import opened AgentMonitor
  import Budget
  import Interleavings

  datatype Limits = Limits(
    maxToolCalls: int, maxModelTurns: int, modelTimeoutSeconds: real, totalTimeoutSeconds: real)
  {
    /** A configuration can tighten the budgets, never loosen them. */
    predicate Valid() {
      && 0 <= maxToolCalls <= MAX_TRACED_TOOL_CALLS
      && 1 <= maxModelTurns <= MAX_TRACED_TURNS
      && 0.0 < modelTimeoutSeconds <= 20.0
      && 0.0 < totalTimeoutSeconds <= 45.0
    }
  }

  datatype Settings = Settings(maxPromptChars: nat, maxOutputTokens: nat)

  /** What the provider hands over, or what the adapter raises. */
  datatype ModelAnswer =
    | Response(raw: RawMessage, telemetry: Option<Telemetry>, decode: SelectionDecoder)
    | Raises(error: ModelError)

  /** The model is anything at all: its answer may depend on every request so far. */
  type Model = seq<Request> -> ModelAnswer

  /** Every reply comes through the strict parser. */
  function OutcomeOf(answer: ModelAnswer): Budget.Outcome {
    match answer
    case Raises(error) => Budget.Outcome.Raised(error)
    case Response(raw, telemetry, decode) =>
      match ParseAgentMessage(raw, telemetry, decode)
      case Ok(reply) => Budget.Replied(reply)
      case Err(kind) => Budget.Outcome.Raised(Failure(kind, telemetry))
  }

  /** How the loop ended: a selection to ground, a typed reason, or an exception from the trace. */
  datatype Stop =
    | Selection(claimIds: seq<string>)
    | Ended(reason: StopReason, detail: StopDetail)
    | Escaped

  /** The reasons that the loop itself can end with, before anything is grounded. */
  predicate LoopReason(reason: StopReason) {
    match reason
    case CrossRunRejected => true
    case ToolBudgetExhausted => true
    case TurnBudgetExhausted => true
    case DeadlineExceeded => true
    case PromptBudgetExceeded => true
    case ModelTimeout => true
    case BudgetStop => true
    case ModelRefusal => true
    case ModelTruncated => true
    case MalformedResponse => true
    case ProviderErrorStop => true
    case _ => false
  }

  datatype TurnResult = Turn(reply: Reply) | TurnStopped(stop: Stop)

  function FailureStop(kind: FailureKind): StopReason {
    match kind
    case Refusal => ModelRefusal
    case Truncated => ModelTruncated
    case InvalidResponse => MalformedResponse
    case BudgetExhausted => BudgetStop
    case _ => ProviderErrorStop
  }

  predicate ReferencesARun(arguments: Arguments) {
    arguments.Fields? && arguments.namesARun
  }

  // -- sizes and counts of a conversation ------------------------------------

  function ResultChars(results: seq<ToolResult>): nat {
    if results == [] then 0 else ResultChars(results[..|results| - 1]) + |results[|results| - 1].content|
  }

  function ContentChars(content: Content): nat {
    match content
    case Text(text) => |text|
    case Results(results) => ResultChars(results)
    case Blocks(_) => 0
  }

  /** Server-written characters, in the shape in which the guard counts bytes. */
  const CHARS: Budget.ByteCounts := Budget.ByteCounts((s: string) => |s|, (c: Content) => ContentChars(c))

  function Histories(asked: seq<Request>): (histories: seq<seq<Message>>)
    ensures |histories| == |asked| && forall i :: 0 <= i < |asked| ==> histories[i] == asked[i].messages
  {
    seq(|asked|, i requires 0 <= i < |asked| => asked[i].messages)
  }

  /** How many of the requests made the loop record a turn. */
  function CountRecorded(model: Model, asked: seq<Request>): nat {
    if asked == [] then 0
    else CountRecorded(model, asked[..|asked| - 1])
         + if Interleavings.RecordsTurn(OutcomeOf(model(asked))) then 1 else 0
  }

  /** The history before turn `t`: the question, and `t` rounds of calls and their results. */
  ghost predicate GoodHistory(messages: seq<Message>, t: nat) {
    |messages| == 2 * t + 1 && RolesAlternate(messages) && CallsAreAnswered(messages)
  }

  ghost predicate WithinPrompt(request: Request, settings: Settings) {
    Budget.ServerBytes(request, CHARS) <= settings.maxPromptChars && request.maxOutputTokens == settings.maxOutputTokens
  }

  /** What every conversation of the loop looks like, however far it got. */
  ghost predicate GoodConversation(asked: seq<Request>, settings: Settings) {
    && (forall i :: 0 <= i < |asked| ==> GoodHistory(asked[i].messages, i) && WithinPrompt(asked[i], settings))
    && (forall i :: 0 <= i < |asked| - 1 ==> asked[i].messages <= asked[i + 1].messages)
  }

  lemma GoodConversationsConform(asked: seq<Request>, settings: Settings)
    requires GoodConversation(asked, settings)
    ensures Conforms(Histories(asked))
  {
    var histories := Histories(asked);
    if asked != [] {
      assert GoodHistory(asked[|asked| - 1].messages, |asked| - 1);
    }
    forall i | 0 <= i < |histories| - 1 ensures histories[i] <= histories[i + 1] {
      assert asked[i].messages <= asked[i + 1].messages;
    }
  }

  // -- what the loop retrieved -----------------------------------------------

  /** Only the server's own claims, and only ids that a tool call returned. */
  ghost predicate ServerClaimsOnly(retrieved: map<string, Claim>, catalog: seq<Claim>, returned: seq<string>) {
    forall id :: id in retrieved ==>
      id in returned && id in ById(catalog) && retrieved[id] == ById(catalog)[id]
  }

  function Retrieve(retrieved: map<string, Claim>, claims: seq<Claim>): map<string, Claim> {
    if claims == [] then retrieved
    else Retrieve(retrieved, claims[..|claims| - 1])[claims[|claims| - 1].id := claims[|claims| - 1]]
  }

  lemma {:induction false} RetrieveIff(retrieved: map<string, Claim>, claims: seq<Claim>, id: string)
    ensures id in Retrieve(retrieved, claims) <==> id in retrieved || exists c :: c in claims && c.id == id
    ensures id in Retrieve(retrieved, claims) ==>
      || (id in retrieved && Retrieve(retrieved, claims)[id] == retrieved[id])
      || (Retrieve(retrieved, claims)[id] in claims && Retrieve(retrieved, claims)[id].id == id)
  {
    if claims != [] {
      var earlier, last := claims[..|claims| - 1], claims[|claims| - 1];
      RetrieveIff(retrieved, earlier, id);
      assert claims == earlier + [last];
      assert last in claims;
    }
  }

  lemma RetrievingKeepsServerClaims(
      retrieved: map<string, Claim>, catalog: seq<Claim>, facts: Facts, execution: ToolExecution, seconds: real)
    requires ServerClaimsOnly(retrieved, catalog, facts.returned) && Distinct(facts.returned)
    requires forall c :: c in execution.claims ==> c.id in ById(catalog) && ById(catalog)[c.id] == c
    ensures ServerClaimsOnly(
      Retrieve(retrieved, execution.claims), catalog, WithTool(facts, seconds, execution).returned)
  {
    var ids := ClaimIdsOf(execution.claims);
    AddNewIff(facts.returned, ids);
    forall id | id in Retrieve(retrieved, execution.claims)
      ensures id in WithTool(facts, seconds, execution).returned && id in ById(catalog)
        && Retrieve(retrieved, execution.claims)[id] == ById(catalog)[id]
    {
      RetrieveIff(retrieved, execution.claims, id);
      if c :| c in execution.claims && c.id == id {
        var i :| 0 <= i < |execution.claims| && execution.claims[i] == c;
        assert ids[i] == id && ids[i] in ids;
      }
    }
  }

  // -- when the trace cannot be refused --------------------------------------

  /** No handler returns more claims than a trace can list. The registry itself does not check that. */
  ghost predicate ShortAnswers(specs: seq<ToolSpec>, catalog: seq<Claim>) {
    forall i :: 0 <= i < |specs| && specs[i].handler(catalog).Returned? ==>
      |specs[i].handler(catalog).claims| <= MAX_CLAIMS
  }

  ghost predicate TraceableCatalog(catalog: seq<Claim>) {
    && (forall c :: c in catalog ==> ValidClaimId(c.id))
    && |set c | c in catalog :: c.id| <= MAX_CLAIMS
  }

  ghost predicate Traceable(specs: seq<ToolSpec>, catalog: seq<Claim>) {
    ShortAnswers(specs, catalog) && TraceableCatalog(catalog)
  }

  lemma {:induction false} FoundSpecsAnswerShortly(specs: seq<ToolSpec>, catalog: seq<Claim>, name: string)
    requires ShortAnswers(specs, catalog) && FindSpec(specs, name).Some?
    ensures var handled := FindSpec(specs, name).value.handler(catalog);
      handled.Returned? ==> |handled.claims| <= MAX_CLAIMS
  {
    if ToolText(specs[0].name) != name {
      assert forall i :: 0 <= i < |specs[1..]| ==> specs[1..][i] == specs[i + 1];
      FoundSpecsAnswerShortly(specs[1..], catalog, name);
    }
  }

  /** The record of a call can list what the call returned. */
  predicate FitsTheTrace(execution: ToolExecution) {
    ValidIds(ClaimIdsOf(execution.claims))
  }

  ghost predicate AllFitTheTrace(executions: seq<ToolExecution>) {
    forall i :: 0 <= i < |executions| ==> FitsTheTrace(executions[i])
  }

  /** With short answers, what a call returns always fits the record of the call. */
  lemma CallsFitTheTrace(
      specs: seq<ToolSpec>, catalog: seq<Claim>, encoding: Encoding, called: set<ToolName>, name: string,
      arguments: Arguments)
    requires Traceable(specs, catalog)
    ensures FitsTheTrace(Execution(specs, catalog, encoding, called, name, arguments).0)
  {
    var execution := Execution(specs, catalog, encoding, called, name, arguments).0;
    if execution.claims != [] {
      FoundSpecsAnswerShortly(specs, catalog, name);
    }
    forall c | c in execution.claims ensures ValidClaimId(c.id) {
      CallsReturnOnlyServerClaims(specs, catalog, encoding, called, name, arguments, c);
    }
    var ids := ClaimIdsOf(execution.claims);
    forall id | id in ids ensures ValidClaimId(id) {
      var i :| 0 <= i < |ids| && ids[i] == id;
      assert execution.claims[i] in execution.claims;
    }
  }

  // -- one round -------------------------------------------------------------

  lemma {:induction false} MessageBytesOfRound(messages: seq<Message>, call: Message, results: Message)
    requires call.role == ASSISTANT && results.role == USER
    ensures Budget.MessageBytes(messages + [call, results], CHARS)
         == Budget.MessageBytes(messages, CHARS) + ContentChars(results.content)
  {
    var all := messages + [call, results];
    assert all[..|all| - 1] == messages + [call];
    assert (messages + [call])[..|messages|] == messages;
  }

  /** A round of calls and their results keeps the history well formed. */
  lemma RoundKeepsHistory(messages: seq<Message>, t: nat, reply: Reply, results: seq<ToolResult>)
    requires GoodHistory(messages, t) && WellFormedReply(reply)
    requires AnsweredIds(results) == CallIds(reply.toolCalls)
    requires forall r :: r in results ==> r.kind == TOOL_RESULT
    ensures GoodHistory(
      messages + [Message(ASSISTANT, Blocks(reply.content)), Message(USER, Results(results))], t + 1)
  {
    var all := messages + [Message(ASSISTANT, Blocks(reply.content)), Message(USER, Results(results))];
    assert AnswersExactly(all[2 * t + 2].content, CallsMade(all[2 * t + 1].content));
    forall k | 0 < k < |all| && k % 2 == 0
      ensures OnlyResults(all[k].content) && AnswersExactly(all[k].content, CallsMade(all[k - 1].content))
    {
      if k < |messages| {
        assert all[k] == messages[k] && all[k - 1] == messages[k - 1];
      } else {
        assert k == 2 * t + 2;
      }
    }
  }

  ghost predicate ReturnedAreKnown(returned: seq<string>, catalog: seq<Claim>) {
    forall id :: id in returned ==> id in ById(catalog)
  }

  lemma ToolKeepsReturnedKnown(facts: Facts, seconds: real, execution: ToolExecution, catalog: seq<Claim>)
    requires ReturnedAreKnown(facts.returned, catalog) && Distinct(facts.returned)
    requires forall c :: c in execution.claims ==> c.id in ById(catalog)
    ensures ReturnedAreKnown(WithTool(facts, seconds, execution).returned, catalog)
  {
    var ids := ClaimIdsOf(execution.claims);
    AddNewIff(facts.returned, ids);
    forall id | id in ids ensures id in ById(catalog) {
      var i :| 0 <= i < |ids| && ids[i] == id;
      assert execution.claims[i] in execution.claims;
    }
  }

  // -- the conversation as a function of the model ---------------------------

  /** Everything a conversation depends on, apart from its limits and the clock. */
  datatype Setting = Setting(
    model: Model, specs: seq<ToolSpec>, encoding: Encoding, catalog: seq<Claim>, userMessage: string)

  /** The calls of one turn, in order, and the tools called by then. */
  function RunAll(setting: Setting, called: set<ToolName>, calls: seq<ToolCall>): (seq<ToolExecution>, set<ToolName>) {
    if calls == [] then ([], called)
    else
      var (earlier, before), last := RunAll(setting, called, calls[..|calls| - 1]), calls[|calls| - 1];
      var (execution, after) := Execution(
        setting.specs, setting.catalog, setting.encoding, before, last.name, last.arguments);
      (earlier + [execution], after)
  }

  function ResultsOf(calls: seq<ToolCall>, executions: seq<ToolExecution>): seq<ToolResult> {
    seq(if |calls| <= |executions| then |calls| else 0, i requires 0 <= i < |calls| && i < |executions| =>
      ToolResult(TOOL_RESULT, calls[i].callId, executions[i].content, executions[i].IsError()))
  }

  function RetrieveAll(retrieved: map<string, Claim>, executions: seq<ToolExecution>): map<string, Claim> {
    if executions == [] then retrieved
    else Retrieve(RetrieveAll(retrieved, executions[..|executions| - 1]), executions[|executions| - 1].claims)
  }

  function CallsOfLastReply(setting: Setting, asked: seq<Request>): seq<ToolCall> {
    var outcome := OutcomeOf(setting.model(asked));
    if outcome.Replied? then outcome.reply.toolCalls else []
  }

  /** The tools called, and the claims retrieved, once the calls of every reply so far have run. */
  function CalledAfter(setting: Setting, asked: seq<Request>): set<ToolName> {
    if asked == [] then {}
    else RunAll(setting, CalledAfter(setting, asked[..|asked| - 1]), CallsOfLastReply(setting, asked)).1
  }

  function RetrievedAfter(setting: Setting, asked: seq<Request>): map<string, Claim> {
    if asked == [] then map[]
    else
      var earlier := asked[..|asked| - 1];
      RetrieveAll(
        RetrievedAfter(setting, earlier),
        RunAll(setting, CalledAfter(setting, earlier), CallsOfLastReply(setting, asked)).0)
  }

  /** The history after those calls: the reply's full content, unchanged, and all its results in one message. */
  function HistoryAfter(setting: Setting, asked: seq<Request>): seq<Message> {
    if asked == [] then [Message(USER, Text(setting.userMessage))]
    else
      var earlier, outcome := asked[..|asked| - 1], OutcomeOf(setting.model(asked));
      if !outcome.Replied? then asked[|asked| - 1].messages
      else
        var calls := outcome.reply.toolCalls;
        var executions := RunAll(setting, CalledAfter(setting, earlier), calls).0;
        asked[|asked| - 1].messages
        + [Message(ASSISTANT, Blocks(outcome.reply.content)), Message(USER, Results(ResultsOf(calls, executions)))]
  }

  /** Every request shows the model exactly the history that its own earlier replies made. */
  ghost predicate FollowsTheModel(setting: Setting, asked: seq<Request>) {
    forall i :: 0 <= i < |asked| ==> asked[i].messages == HistoryAfter(setting, asked[..i])
  }

  /** The last reply is a final one, with these ids. */
  ghost predicate IsTheSelection(setting: Setting, asked: seq<Request>, claimIds: seq<string>) {
    var outcome := OutcomeOf(setting.model(asked));
    outcome.Replied? && outcome.reply.toolCalls == [] && outcome.reply.claimIds == claimIds
  }

  /** How many calls the replies so far asked for. */
  function CallsSoFar(setting: Setting, asked: seq<Request>): nat {
    if asked == [] then 0
    else CallsSoFar(setting, asked[..|asked| - 1]) + |CallsOfLastReply(setting, asked)|
  }

  /** What the calls of the last reply do when they run. */
  function LastExecutions(setting: Setting, asked: seq<Request>): seq<ToolExecution>
    requires asked != []
  {
    RunAll(setting, CalledAfter(setting, asked[..|asked| - 1]), CallsOfLastReply(setting, asked)).0
  }

  /** The trace can list what every call of every reply returns. */
  ghost predicate RoundsFit(setting: Setting, asked: seq<Request>) {
    forall i :: 0 < i <= |asked| ==> AllFitTheTrace(LastExecutions(setting, asked[..i]))
  }

  ghost predicate EarlierRoundsFit(setting: Setting, asked: seq<Request>) {
    asked != [] ==> RoundsFit(setting, asked[..|asked| - 1])
  }

  lemma FittingRoundsFitEarlier(setting: Setting, asked: seq<Request>)
    requires RoundsFit(setting, asked)
    ensures EarlierRoundsFit(setting, asked)
  {
    if asked != [] {
      RoundsFitOneMore(setting, asked);
    }
  }

  /** The calls of the last reply are run: it has some, none names a run, and they are within the limits. */
  predicate LetThrough(setting: Setting, limits: Limits, asked: seq<Request>) {
    && asked != []
    && OutcomeOf(setting.model(asked)).Replied?
    && var calls := CallsOfLastReply(setting, asked);
       && calls != []
       && (forall call :: call in calls ==> !ReferencesARun(call.arguments))
       && CallsSoFar(setting, asked[..|asked| - 1]) + |calls| <= limits.maxToolCalls
       && |asked| < limits.maxModelTurns
  }

  lemma RoundsFitOneMore(setting: Setting, asked: seq<Request>)
    requires asked != []
    ensures RoundsFit(setting, asked) <==>
      RoundsFit(setting, asked[..|asked| - 1]) && AllFitTheTrace(LastExecutions(setting, asked))
  {
    hide LastExecutions, AllFitTheTrace;
    var earlier := asked[..|asked| - 1];
    forall i | 0 < i <= |earlier| ensures earlier[..i] == asked[..i] {
    }
    assert asked[..|asked|] == asked;
    if RoundsFit(setting, asked) {
      forall i | 0 < i <= |earlier| ensures AllFitTheTrace(LastExecutions(setting, earlier[..i])) {
        assert earlier[..i] == asked[..i];
      }
    }
    if RoundsFit(setting, earlier) && AllFitTheTrace(LastExecutions(setting, asked)) {
      forall i | 0 < i <= |asked| ensures AllFitTheTrace(LastExecutions(setting, asked[..i])) {
        if i < |asked| {
          assert earlier[..i] == asked[..i];
        }
      }
    }
  }

  lemma NextRequestFollows(setting: Setting, asked: seq<Request>, request: Request)
    requires FollowsTheModel(setting, asked) && request.messages == HistoryAfter(setting, asked)
    ensures FollowsTheModel(setting, asked + [request])
  {
    hide HistoryAfter;
    var all := asked + [request];
    forall i | 0 <= i < |all| ensures all[i].messages == HistoryAfter(setting, all[..i]) {
      assert all[..i] == asked[..i];
      assert asked[..|asked|] == asked;
    }
  }

  lemma ResultsAnswerTheCalls(calls: seq<ToolCall>, executions: seq<ToolExecution>)
    requires |calls| == |executions|
    ensures AnsweredIds(ResultsOf(calls, executions)) == CallIds(calls)
    ensures forall x :: x in ResultsOf(calls, executions) ==> x.kind == TOOL_RESULT
  {
  }

  lemma {:induction false} EveryCallIsExecuted(setting: Setting, called: set<ToolName>, calls: seq<ToolCall>)
    ensures |RunAll(setting, called, calls).0| == |calls|
  {
    if calls != [] {
      EveryCallIsExecuted(setting, called, calls[..|calls| - 1]);
    }
  }

  /** What the first calls of a turn do does not depend on the calls after them. */
  lemma {:induction false} FirstCallsRunFirst(setting: Setting, called: set<ToolName>, calls: seq<ToolCall>, i: nat)
    requires i <= |calls|
    ensures |RunAll(setting, called, calls).0| == |calls|
    ensures RunAll(setting, called, calls[..i]).0 == RunAll(setting, called, calls).0[..i]
  {
    hide Execution;
    EveryCallIsExecuted(setting, called, calls);
    if i == |calls| {
      assert calls[..i] == calls;
    } else {
      var earlier := calls[..|calls| - 1];
      FirstCallsRunFirst(setting, called, earlier, i);
      assert earlier[..i] == calls[..i];
    }
  }

  /** One more call of a turn. */
  lemma OneMoreCall(
      setting: Setting, called: set<ToolName>, calls: seq<ToolCall>, i: nat, execution: ToolExecution,
      after: set<ToolName>, retrieved: map<string, Claim>)
    requires i < |calls|
    requires (execution, after) == Execution(
      setting.specs, setting.catalog, setting.encoding, RunAll(setting, called, calls[..i]).1, calls[i].name,
      calls[i].arguments)
    ensures var (executions, before) := RunAll(setting, called, calls[..i]);
      && RunAll(setting, called, calls[..i + 1]) == (executions + [execution], after)
      && RetrieveAll(retrieved, executions + [execution])
           == Retrieve(RetrieveAll(retrieved, executions), execution.claims)
      && |executions| == i
      && ResultsOf(calls[..i + 1], executions + [execution]) == ResultsOf(calls[..i], executions)
           + [ToolResult(TOOL_RESULT, calls[i].callId, execution.content, execution.IsError())]
  {
    hide Execution, Retrieve;
    assert calls[..i + 1][..i] == calls[..i];
    EveryCallIsExecuted(setting, called, calls[..i]);
    var executions := RunAll(setting, called, calls[..i]).0;
    assert (executions + [execution])[..i] == executions;
  }

  lemma NoCallsYet(setting: Setting, called: set<ToolName>, retrieved: map<string, Claim>)
    ensures RunAll(setting, called, []) == ([], called)
    ensures ResultsOf([], []) == [] && RetrieveAll(retrieved, []) == retrieved
  {
  }

  lemma RoundIsTaken(setting: Setting, asked: seq<Request>, reply: Reply)
    requires asked != [] && OutcomeOf(setting.model(asked)) == Budget.Replied(reply)
    ensures var earlier := asked[..|asked| - 1];
      var (executions, after) := RunAll(setting, CalledAfter(setting, earlier), reply.toolCalls);
      && CalledAfter(setting, asked) == after
      && LastExecutions(setting, asked) == executions
      && CallsSoFar(setting, asked) == CallsSoFar(setting, earlier) + |reply.toolCalls|
      && RetrievedAfter(setting, asked) == RetrieveAll(RetrievedAfter(setting, earlier), executions)
      && HistoryAfter(setting, asked) == asked[|asked| - 1].messages
           + [Message(ASSISTANT, Blocks(reply.content)), Message(USER, Results(ResultsOf(reply.toolCalls, executions)))]
  {
    hide OutcomeOf, RunAll, RetrieveAll, ResultsOf;
  }

  // -- how a conversation ends, and what its trace holds by then --------------

  /** What bounds a conversation, apart from the model: its limits, the clock, and the reading it starts from. */
  datatype Bounds = Bounds(
    limits: Limits, settings: Settings, fixedChars: nat, price: Option<ModelPrice>, clock: nat -> real, start: nat,
    deadline: real)

  /** The clock is read before each request, when it is sent, when its reply is there, and around each call. */
  function ReadingBefore(setting: Setting, bounds: Bounds, asked: seq<Request>): nat {
    bounds.start + 3 * |asked| + 2 * CallsSoFar(setting, asked)
  }

  function TimeLeft(setting: Setting, bounds: Bounds, asked: seq<Request>): real {
    bounds.deadline - bounds.clock(ReadingBefore(setting, bounds, asked))
  }

  /** How long the last request took. */
  function LastTook(setting: Setting, bounds: Bounds, asked: seq<Request>): real
    requires asked != []
  {
    var sent := ReadingBefore(setting, bounds, asked[..|asked| - 1]) + 1;
    bounds.clock(sent + 1) - bounds.clock(sent)
  }

  predicate LastIsLate(setting: Setting, bounds: Bounds, asked: seq<Request>)
    requires asked != []
  {
    OutcomeOf(setting.model(asked)).Replied? && LastTook(setting, bounds, asked) > asked[|asked| - 1].timeoutSeconds
  }

  /** Every request may take what is left of the time for the question, and never more than one model call may. */
  ghost predicate TimedRequests(setting: Setting, bounds: Bounds, asked: seq<Request>) {
    forall t :: 0 <= t < |asked| ==> TimedRequest(setting, bounds, asked[..t], asked[t])
  }

  ghost predicate TimedRequest(setting: Setting, bounds: Bounds, earlier: seq<Request>, request: Request) {
    var left := TimeLeft(setting, bounds, earlier);
    left > 0.0
    && request.timeoutSeconds ==
         if bounds.limits.modelTimeoutSeconds <= left then bounds.limits.modelTimeoutSeconds else left
  }

  /** The calls of the last reply have run, and the next request is due. */
  ghost predicate GoesOn(setting: Setting, bounds: Bounds, asked: seq<Request>) {
    asked != [] ==>
      && !LastIsLate(setting, bounds, asked)
      && LetThrough(setting, bounds.limits, asked)
      && RoundsFit(setting, asked)
  }

  function PromptChars(setting: Setting, bounds: Bounds, asked: seq<Request>): nat {
    bounds.fixedChars + Budget.MessageBytes(HistoryAfter(setting, asked), CHARS)
  }

  /** How a request that brought no usable reply ends the question. */
  function FailedTurn(outcome: Budget.Outcome): Stop {
    match outcome
    case Raised(Failure(kind, _)) => Ended(FailureStop(kind), FromProvider(kind))
    case Raised(Defect) => Ended(ProviderErrorStop, FromProvider(Unknown))
    case _ => Ended(ModelTimeout, FromProvider(TimedOut))
  }

  /** Why the calls of a reply may not run, in the order of the checks. */
  function RefusedCalls(calls: seq<ToolCall>, callsSoFar: nat, limits: Limits, finalTurn: bool): Option<Stop> {
    if exists call :: call in calls && ReferencesARun(call.arguments) then
      Some(Ended(CrossRunRejected, FromTool(CrossRunReference)))
    else if callsSoFar > limits.maxToolCalls then Some(Ended(ToolBudgetExhausted, NoDetail))
    else if finalTurn then Some(Ended(TurnBudgetExhausted, NoDetail))
    else None
  }

  /** How a conversation ends whose last request was the last of `asked`. */
  ghost function HowItEnds(setting: Setting, bounds: Bounds, asked: seq<Request>): Stop {
    if GoesOn(setting, bounds, asked) then
      if |asked| >= bounds.limits.maxModelTurns then Ended(TurnBudgetExhausted, NoDetail)
      else if TimeLeft(setting, bounds, asked) <= 0.0 then Ended(DeadlineExceeded, NoDetail)
      else Ended(PromptBudgetExceeded, FromProvider(PromptBudget))
    else
      var outcome := OutcomeOf(setting.model(asked));
      if !outcome.Replied? || LastIsLate(setting, bounds, asked) then FailedTurn(outcome)
      else if outcome.reply.toolCalls == [] then Selection(outcome.reply.claimIds)
      else
        match RefusedCalls(
          outcome.reply.toolCalls, CallsSoFar(setting, asked), bounds.limits, |asked| == bounds.limits.maxModelTurns)
        case Some(stop) => stop
        case None => Escaped
  }

  /** No further request may be sent: it is not due, or there is no turn, no time or no room for it. */
  ghost predicate IsOver(setting: Setting, bounds: Bounds, asked: seq<Request>) {
    GoesOn(setting, bounds, asked) ==>
      || |asked| >= bounds.limits.maxModelTurns
      || TimeLeft(setting, bounds, asked) <= 0.0
      || PromptChars(setting, bounds, asked) > bounds.settings.maxPromptChars
  }

  ghost predicate NamesARun(calls: seq<ToolCall>) {
    exists call :: call in calls && call.arguments.Fields? && call.arguments.namesARun
  }

  /** The last request brought a reply in time. */
  ghost predicate RepliedInTime(setting: Setting, bounds: Bounds, asked: seq<Request>) {
    && asked != [] && OutcomeOf(setting.model(asked)).Replied?
    && LastTook(setting, bounds, asked) <= asked[|asked| - 1].timeoutSeconds
  }

  /** The last request failed, in this way. */
  ghost predicate LastFailed(setting: Setting, asked: seq<Request>, kind: FailureKind) {
    asked != [] && exists telemetry ::
      OutcomeOf(setting.model(asked)) == Budget.Outcome.Raised(Failure(kind, telemetry))
  }

  ghost predicate LastTimedOut(setting: Setting, asked: seq<Request>) {
    asked != [] && exists kind, telemetry ::
      OutcomeOf(setting.model(asked)) == Budget.Outcome.Raised(Timeout(kind, telemetry))
  }

  /** Why a conversation that is over ended, for every reason, in the order of the checks. */
  lemma LimitsEndItIff(setting: Setting, bounds: Bounds, asked: seq<Request>)
    requires |asked| <= bounds.limits.maxModelTurns && 1 <= bounds.limits.maxModelTurns
    ensures var stop := HowItEnds(setting, bounds, asked);
      && (stop == Ended(DeadlineExceeded, NoDetail) <==>
            GoesOn(setting, bounds, asked) && TimeLeft(setting, bounds, asked) <= 0.0)
      && (stop == Ended(PromptBudgetExceeded, FromProvider(PromptBudget)) <==>
            GoesOn(setting, bounds, asked) && TimeLeft(setting, bounds, asked) > 0.0)
      && (IsOver(setting, bounds, asked) && stop == Ended(PromptBudgetExceeded, FromProvider(PromptBudget)) ==>
            PromptChars(setting, bounds, asked) > bounds.settings.maxPromptChars)
  {
    hide OutcomeOf, TimeLeft, PromptChars, RoundsFit, CallsSoFar, LastTook, CallsOfLastReply;
  }

  lemma FailuresEndItIff(setting: Setting, bounds: Bounds, asked: seq<Request>, kind: FailureKind)
    requires |asked| <= bounds.limits.maxModelTurns && 1 <= bounds.limits.maxModelTurns
    ensures var stop := HowItEnds(setting, bounds, asked);
      && (stop == Ended(ModelTimeout, FromProvider(TimedOut)) <==>
            || LastTimedOut(setting, asked)
            || (asked != [] && OutcomeOf(setting.model(asked)).Replied? && !RepliedInTime(setting, bounds, asked)))
      && (stop == Ended(ModelRefusal, FromProvider(Refusal)) <==> LastFailed(setting, asked, Refusal))
      && (stop == Ended(ModelTruncated, FromProvider(Truncated)) <==> LastFailed(setting, asked, Truncated))
      && (stop == Ended(MalformedResponse, FromProvider(InvalidResponse)) <==>
            LastFailed(setting, asked, InvalidResponse))
      && (stop == Ended(BudgetStop, FromProvider(BudgetExhausted)) <==> LastFailed(setting, asked, BudgetExhausted))
      && (stop == Ended(ProviderErrorStop, FromProvider(kind)) <==>
            || (LastFailed(setting, asked, kind)
                && kind !in {Refusal, Truncated, InvalidResponse, BudgetExhausted})
            || (asked != [] && OutcomeOf(setting.model(asked)) == Budget.Outcome.Raised(Defect) && kind == Unknown))
  {
    hide OutcomeOf, TimeLeft, PromptChars, RoundsFit, CallsSoFar, LastTook, CallsOfLastReply, RefusedCalls;
    if asked != [] && OutcomeOf(setting.model(asked)).Replied? && RepliedInTime(setting, bounds, asked) {
      RefusalsAreNoFailures(OutcomeOf(setting.model(asked)).reply.toolCalls, CallsSoFar(setting, asked), bounds.limits);
    }
  }

  lemma RefusalsAreNoFailures(calls: seq<ToolCall>, callsSoFar: nat, limits: Limits)
    ensures forall finalTurn :: RefusedCalls(calls, callsSoFar, limits, finalTurn).Some? ==>
      var stop := RefusedCalls(calls, callsSoFar, limits, finalTurn).value;
      stop.Ended? && !stop.detail.FromProvider?
  {
  }

  lemma RepliesEndItIff(setting: Setting, bounds: Bounds, asked: seq<Request>)
    requires |asked| <= bounds.limits.maxModelTurns && 1 <= bounds.limits.maxModelTurns
    ensures var stop, calls := HowItEnds(setting, bounds, asked), CallsOfLastReply(setting, asked);
      var inTime := RepliedInTime(setting, bounds, asked);
      && (stop.Selection? <==> inTime && calls == [])
      && (stop.Selection? ==> stop.claimIds == OutcomeOf(setting.model(asked)).reply.claimIds)
      && (stop == Ended(CrossRunRejected, FromTool(CrossRunReference)) <==> inTime && NamesARun(calls))
      && (stop == Ended(ToolBudgetExhausted, NoDetail) <==>
            inTime && calls != [] && !NamesARun(calls) && CallsSoFar(setting, asked) > bounds.limits.maxToolCalls)
      && (stop == Ended(TurnBudgetExhausted, NoDetail) <==>
            && inTime && calls != [] && !NamesARun(calls)
            && CallsSoFar(setting, asked) <= bounds.limits.maxToolCalls
            && |asked| == bounds.limits.maxModelTurns)
      && (stop == Escaped <==>
            && inTime && calls != [] && !NamesARun(calls)
            && CallsSoFar(setting, asked) <= bounds.limits.maxToolCalls
            && |asked| < bounds.limits.maxModelTurns && !RoundsFit(setting, asked))
  {
    hide OutcomeOf, TimeLeft, PromptChars, RoundsFit, LastTook;
    if asked != [] && OutcomeOf(setting.model(asked)).Replied? {
      assert NamesARun(CallsOfLastReply(setting, asked)) <==>
        exists call :: call in CallsOfLastReply(setting, asked) && ReferencesARun(call.arguments);
    }
  }

  /** The turn that a request leaves in the trace, if any. */
  function TurnNoted(facts: Facts, price: Option<ModelPrice>, seconds: real, outcome: Budget.Outcome): Facts {
    match outcome
    case Replied(reply) => WithTurn(facts, price, seconds, reply.telemetry)
    case Raised(Defect) => WithTurn(facts, price, seconds, None)
    case Raised(Timeout(_, telemetry)) => WithTurn(facts, price, seconds, telemetry)
    case Raised(Failure(kind, telemetry)) =>
      if kind == NotConfigured || kind == BudgetExhausted then facts else WithTurn(facts, price, seconds, telemetry)
  }

  /** The calls that a reply leaves in the trace: the first is sent at reading `first`, and each takes two. */
  function CallsNoted(facts: Facts, clock: nat -> real, first: nat, executions: seq<ToolExecution>): Facts {
    if executions == [] then facts
    else
      var n := |executions| - 1;
      WithTool(
        CallsNoted(facts, clock, first, executions[..n]), clock(first + 2 * n + 1) - clock(first + 2 * n),
        executions[n])
  }

  function LastNoted(setting: Setting, bounds: Bounds, asked: seq<Request>): Facts
    requires asked != []
    decreases |asked|, 0
  {
    TurnNoted(
      FactsBefore(setting, bounds, asked[..|asked| - 1]), bounds.price, LastTook(setting, bounds, asked),
      OutcomeOf(setting.model(asked)))
  }

  /** The trace before the next request, when all replies so far made calls that have run. */
  function FactsBefore(setting: Setting, bounds: Bounds, asked: seq<Request>): Facts
    decreases |asked|, 1
  {
    if asked == [] then NOTHING
    else
      var earlier := asked[..|asked| - 1];
      CallsNoted(
        LastNoted(setting, bounds, asked), bounds.clock, ReadingBefore(setting, bounds, earlier) + 3,
        LastExecutions(setting, asked))
  }

  /** The trace at the end of the conversation. */
  ghost function FactsAtEnd(setting: Setting, bounds: Bounds, asked: seq<Request>): Facts {
    if GoesOn(setting, bounds, asked) then FactsBefore(setting, bounds, asked) else LastNoted(setting, bounds, asked)
  }

  /** The prompt of the last request that was sent. */
  function PeakBefore(setting: Setting, bounds: Bounds, asked: seq<Request>): nat {
    if asked == [] then 0 else PromptChars(setting, bounds, asked[..|asked| - 1])
  }

  /** A prompt that was too long to be sent is noted too. */
  ghost function PeakAtEnd(setting: Setting, bounds: Bounds, asked: seq<Request>): nat {
    if HowItEnds(setting, bounds, asked) == Ended(PromptBudgetExceeded, FromProvider(PromptBudget))
      && GoesOn(setting, bounds, asked)
    then PromptChars(setting, bounds, asked) else PeakBefore(setting, bounds, asked)
  }

  /** How many calls the last reply made that were not let through. */
  ghost function RefusedAtEnd(setting: Setting, bounds: Bounds, asked: seq<Request>): nat {
    if GoesOn(setting, bounds, asked) || LastIsLate(setting, bounds, asked) then 0
    else |CallsOfLastReply(setting, asked)|
  }

  lemma TimedRequestsOneMore(setting: Setting, bounds: Bounds, asked: seq<Request>, request: Request)
    requires TimedRequests(setting, bounds, asked) && TimedRequest(setting, bounds, asked, request)
    ensures TimedRequests(setting, bounds, asked + [request])
  {
    hide TimedRequest;
    var all := asked + [request];
    forall t | 0 <= t < |all| ensures TimedRequest(setting, bounds, all[..t], all[t]) {
      if t < |asked| {
        assert all[..t] == asked[..t];
      } else {
        assert all[..t] == asked;
      }
    }
  }

  /** What the calls of a reply that are let through add: two readings for each, and the calls in the trace. */
  lemma CallsAreNoted(setting: Setting, bounds: Bounds, asked: seq<Request>, reply: Reply)
    requires asked != [] && OutcomeOf(setting.model(asked)) == Budget.Replied(reply)
    requires !LastIsLate(setting, bounds, asked) && LetThrough(setting, bounds.limits, asked)
    ensures var earlier := asked[..|asked| - 1];
      && ReadingBefore(setting, bounds, asked) == ReadingBefore(setting, bounds, earlier) + 3 + 2 * |reply.toolCalls|
      && FactsBefore(setting, bounds, asked) == CallsNoted(
           LastNoted(setting, bounds, asked), bounds.clock, ReadingBefore(setting, bounds, earlier) + 3,
           LastExecutions(setting, asked))
    ensures if RoundsFit(setting, asked) then GoesOn(setting, bounds, asked)
            else HowItEnds(setting, bounds, asked) == Escaped && IsOver(setting, bounds, asked)
  {
    hide LastIsLate, RoundsFit, LastNoted, CallsNoted, LastExecutions, OutcomeOf, CallsSoFar, LetThrough, RefusedCalls;
    LetThroughIsNotRefused(setting, bounds.limits, asked, reply);
    CallsOfAReply(setting, asked, reply);
  }

  lemma CallsOfAReply(setting: Setting, asked: seq<Request>, reply: Reply)
    requires asked != [] && OutcomeOf(setting.model(asked)) == Budget.Replied(reply)
    ensures CallsOfLastReply(setting, asked) == reply.toolCalls
    ensures CallsSoFar(setting, asked) == CallsSoFar(setting, asked[..|asked| - 1]) + |reply.toolCalls|
  {
  }

  lemma LetThroughIsNotRefused(setting: Setting, limits: Limits, asked: seq<Request>, reply: Reply)
    requires asked != [] && OutcomeOf(setting.model(asked)) == Budget.Replied(reply)
    ensures LetThrough(setting, limits, asked) <==>
      && reply.toolCalls != [] && |asked| < limits.maxModelTurns
      && RefusedCalls(reply.toolCalls, CallsSoFar(setting, asked), limits, false).None?
    ensures |asked| <= limits.maxModelTurns ==>
      (LetThrough(setting, limits, asked) <==>
        && reply.toolCalls != []
        && RefusedCalls(
             reply.toolCalls, CallsSoFar(setting, asked), limits, |asked| == limits.maxModelTurns).None?)
  {
    hide OutcomeOf;
  }

  /** What a conversation comes to that ends with a reply that was not late. */
  ghost predicate EndsWithReply(setting: Setting, bounds: Bounds, asked: seq<Request>, stop: Stop, refused: nat)
    requires asked != []
  {
    && HowItEnds(setting, bounds, asked) == stop
    && FactsAtEnd(setting, bounds, asked) == LastNoted(setting, bounds, asked)
    && RefusedAtEnd(setting, bounds, asked) == refused
    && PeakAtEnd(setting, bounds, asked) == PeakBefore(setting, bounds, asked)
    && IsOver(setting, bounds, asked)
  }

  /** Out of time, or out of room for the prompt. */
  lemma LimitsEndIt(setting: Setting, bounds: Bounds, asked: seq<Request>)
    requires GoesOn(setting, bounds, asked) && |asked| < bounds.limits.maxModelTurns
    requires
      TimeLeft(setting, bounds, asked) <= 0.0 || PromptChars(setting, bounds, asked) > bounds.settings.maxPromptChars
    ensures IsOver(setting, bounds, asked) && RefusedAtEnd(setting, bounds, asked) == 0
    ensures FactsAtEnd(setting, bounds, asked) == FactsBefore(setting, bounds, asked)
    ensures
      if TimeLeft(setting, bounds, asked) <= 0.0 then
        && HowItEnds(setting, bounds, asked) == Ended(DeadlineExceeded, NoDetail)
        && PeakAtEnd(setting, bounds, asked) == PeakBefore(setting, bounds, asked)
      else
        && HowItEnds(setting, bounds, asked) == Ended(PromptBudgetExceeded, FromProvider(PromptBudget))
        && PeakAtEnd(setting, bounds, asked) == PromptChars(setting, bounds, asked)
  {
    hide GoesOn, FactsBefore, PeakBefore, TimeLeft, PromptChars;
  }

  lemma SelectionsEndIt(setting: Setting, bounds: Bounds, asked: seq<Request>, reply: Reply)
    requires asked != [] && OutcomeOf(setting.model(asked)) == Budget.Replied(reply)
    requires reply.toolCalls == [] && !LastIsLate(setting, bounds, asked)
    ensures EndsWithReply(setting, bounds, asked, Selection(reply.claimIds), 0)
  {
    hide OutcomeOf, LastNoted, PeakBefore, LastIsLate;
  }

  lemma RefusalsEndIt(setting: Setting, bounds: Bounds, asked: seq<Request>, reply: Reply, stop: Stop)
    requires asked != [] && OutcomeOf(setting.model(asked)) == Budget.Replied(reply)
    requires reply.toolCalls != [] && !LastIsLate(setting, bounds, asked) && |asked| <= bounds.limits.maxModelTurns
    requires RefusedCalls(
      reply.toolCalls, CallsSoFar(setting, asked), bounds.limits, |asked| == bounds.limits.maxModelTurns) == Some(stop)
    ensures EndsWithReply(setting, bounds, asked, stop, |reply.toolCalls|)
  {
    hide OutcomeOf, LastNoted, PeakBefore, LastIsLate, LetThrough, RoundsFit;
    LetThroughIsNotRefused(setting, bounds.limits, asked, reply);
  }

  /** The loop is over when every turn has gone on; that never happens, because the last turn lets no calls through. */
  lemma TheLastTurnEndsIt(setting: Setting, bounds: Bounds, asked: seq<Request>)
    requires GoesOn(setting, bounds, asked) && |asked| >= bounds.limits.maxModelTurns
    ensures HowItEnds(setting, bounds, asked) == Ended(TurnBudgetExhausted, NoDetail)
    ensures FactsAtEnd(setting, bounds, asked) == FactsBefore(setting, bounds, asked)
    ensures RefusedAtEnd(setting, bounds, asked) == 0
    ensures PeakAtEnd(setting, bounds, asked) == PeakBefore(setting, bounds, asked)
    ensures IsOver(setting, bounds, asked)
  {
    hide GoesOn, FactsBefore, PeakBefore;
  }

  lemma NothingOnRecord(setting: Setting, bounds: Bounds)
    ensures ReadingBefore(setting, bounds, []) == bounds.start && GoesOn(setting, bounds, [])
    ensures TimedRequests(setting, bounds, []) && FactsBefore(setting, bounds, []) == NOTHING
    ensures PeakBefore(setting, bounds, []) == 0
  {
  }

  lemma NoCallsNoted(facts: Facts, clock: nat -> real, first: nat)
    ensures CallsNoted(facts, clock, first, []) == facts
  {
  }

  lemma OneMoreCallNoted(facts: Facts, clock: nat -> real, first: nat, executions: seq<ToolExecution>, e: ToolExecution)
    ensures var n := |executions|;
      CallsNoted(facts, clock, first, executions + [e])
      == WithTool(
           CallsNoted(facts, clock, first, executions), clock(first + 2 * n + 1) - clock(first + 2 * n), e)
  {
    hide WithTool;
    assert (executions + [e])[..|executions|] == executions;
  }

  class ReadOnlyAgent {
    const model: Model
    const clock: nat -> real
    const limits: Limits
    const settings: Settings
    const specs: seq<ToolSpec>
    const encoding: Encoding
    const systemInstructions: string
    const definitions: string
    var readings: nat
    /** The requests of the current question, as the model received them. */
    var asked: seq<Request>
    /** The last reply came after the timeout of its request, and was discarded. */
    ghost var late: bool

    constructor (
        model: Model, clock: nat -> real, limits: Limits, settings: Settings, specs: seq<ToolSpec>,
        encoding: Encoding, systemInstructions: string, definitions: string)
      requires limits.Valid() && ExactlyTheApprovedTools(specs)
      ensures Valid() && this.model == model && this.clock == clock && this.limits == limits
      ensures this.settings == settings && this.specs == specs && this.encoding == encoding
      ensures this.systemInstructions == systemInstructions && this.definitions == definitions
    {
      this.model, this.clock, this.limits, this.settings := model, clock, limits, settings;
      this.specs, this.encoding, this.systemInstructions, this.definitions :=
        specs, encoding, systemInstructions, definitions;
      readings, asked, late := 0, [], false;
    }

    predicate Valid() {
      limits.Valid() && ExactlyTheApprovedTools(specs)
    }

    function BoundsFor(price: Option<ModelPrice>, start: nat, deadline: real): Bounds {
      Bounds(limits, settings, |systemInstructions| + |definitions|, price, clock, start, deadline)
    }

    /** The bounds of this agent, with its recorder's price. */
    ghost predicate Binds(bounds: Bounds, recorder: TraceRecorder) {
      bounds == BoundsFor(recorder.price, bounds.start, bounds.deadline)
    }

    function SettingFor(catalog: seq<Claim>, userMessage: string): Setting {
      Setting(model, specs, encoding, catalog, userMessage)
    }

    /** The registry of this question offers what the conversation depends on. */
    ghost predicate Serves(registry: ToolRegistry, setting: Setting) {
      && registry.specs == specs && registry.encoding == encoding
      && setting == SettingFor(registry.catalog, setting.userMessage)
    }

    /** Some reading of the clock came later than this after the one before it. */
    ghost predicate TookLongerThan(seconds: real) {
      exists i: nat :: clock(i + 1) - clock(i) > seconds
    }

    /** The late reply, if there is one, is that to the last request. */
    ghost predicate LateByTheClock()
      reads this
    {
      late ==> asked != [] && TookLongerThan(asked[|asked| - 1].timeoutSeconds)
    }

    method Now() returns (now: real)
      modifies this`readings
      ensures now == clock(old(readings)) && readings == old(readings) + 1
    {
      now := clock(readings);
      readings := readings + 1;
    }

    /** Sends one request, and records the turn unless nothing was sent. */
    method ModelTurn(request: Request, recorder: TraceRecorder) returns (result: TurnResult)
      requires Consistent(recorder.State(), recorder.price)
      modifies this`readings, this`asked, this`late, recorder
      ensures asked == old(asked) + [request] && LateByTheClock()
      ensures late <==>
        && OutcomeOf(model(asked)).Replied?
        && clock(old(readings) + 1) - clock(old(readings)) > request.timeoutSeconds
      ensures Consistent(recorder.State(), recorder.price)
      ensures recorder.toolCalls == old(recorder.toolCalls) && recorder.returned == old(recorder.returned)
      ensures var outcome := OutcomeOf(model(asked));
        && (result == TurnStopped(Escaped) ==> |old(recorder.turns)| >= MAX_TRACED_TURNS)
        && (result != TurnStopped(Escaped) ==>
              |recorder.turns| == |old(recorder.turns)| + if Interleavings.RecordsTurn(outcome) then 1 else 0)
        && (result.Turn? ==> outcome == Budget.Replied(result.reply) && !late)
        && (result.TurnStopped? && result != TurnStopped(Escaped) ==> !outcome.Replied? || late)
        && (result.TurnStopped? && result != TurnStopped(Escaped) ==> result.stop == FailedTurn(outcome))
        && (result != TurnStopped(Escaped) ==>
              recorder.State() == TurnNoted(
                old(recorder.State()), recorder.price, clock(old(readings) + 1) - clock(old(readings)), outcome))
        && (result.Turn? ==> readings == old(readings) + 2)
      ensures recorder.toolCallsRefused == old(recorder.toolCallsRefused)
      ensures recorder.peakPromptChars == old(recorder.peakPromptChars)
      ensures result.TurnStopped? ==>
        !result.stop.Selection? && (result.stop.Ended? ==> LoopReason(result.stop.reason))
    {
      hide Consistent, OutcomeOf, WithTurn;
      var called := Now();
      asked := asked + [request];
      var outcome := OutcomeOf(model(asked));
      late := false;
      match outcome {
        case Raised(Timeout(_, telemetry)) =>
          var failed := Now();
          var recorded := Record(failed - called, telemetry, recorder);
          return TurnStopped(if recorded then Ended(ModelTimeout, FromProvider(TimedOut)) else Escaped);
        case Raised(Failure(kind, telemetry)) =>
          if kind != NotConfigured && kind != BudgetExhausted {
            var failed := Now();
            var recorded := Record(failed - called, telemetry, recorder);
            if !recorded { return TurnStopped(Escaped); }
          }
          return TurnStopped(Ended(FailureStop(kind), FromProvider(kind)));
        case Raised(Defect) =>
          var failed := Now();
          var recorded := Record(failed - called, None, recorder);
          return TurnStopped(if recorded then Ended(ProviderErrorStop, FromProvider(Unknown)) else Escaped);
        case Replied(reply) =>
          var answered := Now();
          late := answered - called > request.timeoutSeconds;
          var recorded := Record(answered - called, reply.telemetry, recorder);
          if !recorded { return TurnStopped(Escaped); }
          if answered - called > request.timeoutSeconds {
            return TurnStopped(Ended(ModelTimeout, FromProvider(TimedOut)));
          }
          return Turn(reply);
      }
    }

    /** Records one turn; false when the schema of the trace refuses it. */
    method Record(seconds: real, telemetry: Option<Telemetry>, recorder: TraceRecorder) returns (recorded: bool)
      requires Consistent(recorder.State(), recorder.price)
      modifies recorder
      ensures recorded <==> |old(recorder.turns)| < MAX_TRACED_TURNS
      ensures Consistent(recorder.State(), recorder.price)
      ensures recorder.toolCalls == old(recorder.toolCalls) && recorder.returned == old(recorder.returned)
      ensures |recorder.turns| == |old(recorder.turns)| + if recorded then 1 else 0
      ensures recorded ==> recorder.State() == WithTurn(old(recorder.State()), recorder.price, seconds, telemetry)
      ensures recorder.toolCallsRefused == old(recorder.toolCallsRefused)
      ensures recorder.peakPromptChars == old(recorder.peakPromptChars)
    {
      hide Consistent, ValidTurn, RequestCost;
      ghost var facts := recorder.State();
      RecordsAreAcceptedIff(
        facts, recorder.price, seconds, telemetry, ToolExecution(None, Rejected, "", [], None));
      recorded := recorder.RecordTurn(seconds, telemetry);
      if recorded {
        TurnsKeepConsistent(facts, recorder.price, seconds, telemetry);
      }
    }

    /** Whether this turn's calls must stop the request, before any of them runs. */
    method Refuse(reply: Reply, recorder: TraceRecorder, finalTurn: bool) returns (stop: Option<Stop>)
      modifies recorder`toolCallsRefused
      ensures stop.Some? ==> stop.value.Ended? && LoopReason(stop.value.reason)
      ensures stop == RefusedCalls(reply.toolCalls, |recorder.toolCalls| + |reply.toolCalls|, limits, finalTurn)
      ensures stop.None? <==>
        && (forall call :: call in reply.toolCalls ==> !ReferencesARun(call.arguments))
        && |recorder.toolCalls| + |reply.toolCalls| <= limits.maxToolCalls
        && !finalTurn
      ensures recorder.toolCallsRefused ==
        if stop.None? then old(recorder.toolCallsRefused) else |reply.toolCalls|
    {
      stop := None;
      if exists call :: call in reply.toolCalls && ReferencesARun(call.arguments) {
        stop := Some(Ended(CrossRunRejected, FromTool(CrossRunReference)));
      } else if |recorder.toolCalls| + |reply.toolCalls| > limits.maxToolCalls {
        stop := Some(Ended(ToolBudgetExhausted, NoDetail));
      } else if finalTurn {
        stop := Some(Ended(TurnBudgetExhausted, NoDetail));
      }
      if stop.Some? {
        recorder.toolCallsRefused := |reply.toolCalls|;
      }
    }

    /** Runs the calls of one turn, in order; false when the trace refused a call's record. */
    method RunTools(
        ghost setting: Setting, reply: Reply, registry: ToolRegistry, recorder: TraceRecorder,
        retrieved: map<string, Claim>)
      returns (recorded: bool, results: seq<ToolResult>, retrieved': map<string, Claim>)
      requires Serves(registry, setting)
      requires Consistent(recorder.State(), recorder.price) && 1 <= |recorder.turns|
      requires |recorder.toolCalls| + |reply.toolCalls| <= MAX_TRACED_TOOL_CALLS
      requires ServerClaimsOnly(retrieved, registry.catalog, recorder.returned)
      requires ReturnedAreKnown(recorder.returned, registry.catalog)
      modifies this`readings, registry, recorder
      ensures Consistent(recorder.State(), recorder.price) && recorder.turns == old(recorder.turns)
      ensures ServerClaimsOnly(retrieved', registry.catalog, recorder.returned)
      ensures ReturnedAreKnown(recorder.returned, registry.catalog)
      ensures |recorder.toolCalls| <= |old(recorder.toolCalls)| + |reply.toolCalls|
      ensures recorded ==>
        var (executions, after) := RunAll(setting, old(registry.called), reply.toolCalls);
        && registry.called == after
        && results == ResultsOf(reply.toolCalls, executions)
        && retrieved' == RetrieveAll(retrieved, executions)
        && |recorder.toolCalls| == |old(recorder.toolCalls)| + |reply.toolCalls|
        && recorder.State() == CallsNoted(old(recorder.State()), clock, old(readings), executions)
        && readings == old(readings) + 2 * |reply.toolCalls|
      ensures recorded <==> AllFitTheTrace(RunAll(setting, old(registry.called), reply.toolCalls).0)
      ensures recorder.toolCallsRefused == old(recorder.toolCallsRefused)
      ensures recorder.peakPromptChars == old(recorder.peakPromptChars)
    {
      hide Consistent, ServerClaimsOnly, ReturnedAreKnown, FitsTheTrace, Execution, Retrieve, RunAll, RetrieveAll,
        ResultsOf, WithTool, CallsNoted;
      results, retrieved' := [], retrieved;
      var calls := reply.toolCalls;
      ghost var executions: seq<ToolExecution> := [];
      NoCallsYet(setting, registry.called, retrieved);
      NoCallsNoted(recorder.State(), clock, readings);
      for i := 0 to |calls|
        invariant Consistent(recorder.State(), recorder.price) && recorder.turns == old(recorder.turns)
        invariant |recorder.toolCalls| == |old(recorder.toolCalls)| + i
        invariant ServerClaimsOnly(retrieved', registry.catalog, recorder.returned)
        invariant ReturnedAreKnown(recorder.returned, registry.catalog)
        invariant (executions, registry.called) == RunAll(setting, old(registry.called), calls[..i])
        invariant results == ResultsOf(calls[..i], executions)
        invariant retrieved' == RetrieveAll(retrieved, executions)
        invariant AllFitTheTrace(executions)
        invariant |executions| == i && readings == old(readings) + 2 * i
        invariant recorder.State() == CallsNoted(old(recorder.State()), clock, old(readings), executions)
        invariant recorder.toolCallsRefused == old(recorder.toolCallsRefused)
        invariant recorder.peakPromptChars == old(recorder.peakPromptChars)
      {
        var execution: ToolExecution;
        recorded, execution, retrieved' := RunCall(calls[i], registry, recorder, retrieved');
        OneMoreCall(setting, old(registry.called), calls, i, execution, registry.called, retrieved);
        if !recorded {
          FirstCallsRunFirst(setting, old(registry.called), calls, i + 1);
          assert RunAll(setting, old(registry.called), calls).0[i] == execution;
          return;
        }
        OneMoreCallNoted(old(recorder.State()), clock, old(readings), executions, execution);
        executions := executions + [execution];
        results := results + [ToolResult(TOOL_RESULT, calls[i].callId, execution.content, execution.IsError())];
      }
      assert calls[..|calls|] == calls;
      recorded := true;
    }

    method RunCall(call: ToolCall, registry: ToolRegistry, recorder: TraceRecorder, retrieved: map<string, Claim>)
      returns (recorded: bool, execution: ToolExecution, retrieved': map<string, Claim>)
      requires registry.specs == specs && registry.encoding == encoding
      requires Consistent(recorder.State(), recorder.price) && 1 <= |recorder.turns|
      requires |recorder.toolCalls| < MAX_TRACED_TOOL_CALLS
      requires ServerClaimsOnly(retrieved, registry.catalog, recorder.returned)
      requires ReturnedAreKnown(recorder.returned, registry.catalog)
      modifies this`readings, registry, recorder
      ensures Consistent(recorder.State(), recorder.price) && recorder.turns == old(recorder.turns)
      ensures |recorder.toolCalls| == |old(recorder.toolCalls)| + if recorded then 1 else 0
      ensures ServerClaimsOnly(retrieved', registry.catalog, recorder.returned)
      ensures ReturnedAreKnown(recorder.returned, registry.catalog)
      ensures (execution, registry.called) ==
        Execution(specs, registry.catalog, encoding, old(registry.called), call.name, call.arguments)
      ensures retrieved' == Retrieve(retrieved, execution.claims)
      ensures recorded <==> FitsTheTrace(execution)
      ensures readings == old(readings) + 2
      ensures recorder.State() == WithTool(
        old(recorder.State()), clock(old(readings) + 1) - clock(old(readings)), execution)
      ensures recorder.toolCallsRefused == old(recorder.toolCallsRefused)
      ensures recorder.peakPromptChars == old(recorder.peakPromptChars)
    {
      hide ValidToolCall, Execution, FitsTheTrace, Consistent, ServerClaimsOnly, ReturnedAreKnown, Retrieve;
      ghost var facts, earlier := recorder.State(), registry.called;
      var called := Now();
      execution := registry.Execute(call.name, call.arguments);
      var finished := Now();
      CallIsTraced(
        specs, registry.catalog, encoding, earlier, call, facts, recorder.price, retrieved, finished - called);
      recorded := recorder.RecordTool(finished - called, execution);
      retrieved' := Noted(retrieved, execution.claims);
    }

    // -- the loop ------------------------------------------------------------

    ghost predicate Tracks(recorder: TraceRecorder, retrieved: map<string, Claim>, catalog: seq<Claim>)
      reads recorder
    {
      && Consistent(recorder.State(), recorder.price)
      && ServerClaimsOnly(retrieved, catalog, recorder.returned)
      && ReturnedAreKnown(recorder.returned, catalog)
      && |recorder.toolCalls| <= limits.maxToolCalls
    }

    /** Before turn `t + 1`: `t` requests were answered with tool calls, and each made a recorded turn. */
    ghost predicate BetweenTurns(
        setting: Setting, messages: seq<Message>, promptChars: nat, t: nat, registry: ToolRegistry,
        recorder: TraceRecorder, retrieved: map<string, Claim>)
      reads this, registry, recorder
    {
      && FollowsTheModel(setting, asked)
      && messages == HistoryAfter(setting, asked)
      && registry.called == CalledAfter(setting, asked)
      && retrieved == RetrievedAfter(setting, asked)
      && |asked| == t && GoodConversation(asked, settings)
      && GoodHistory(messages, t)
      && (asked != [] ==> asked[|asked| - 1].messages <= messages)
      && promptChars == |systemInstructions| + |definitions| + Budget.MessageBytes(messages, CHARS)
      && |recorder.turns| == t == CountRecorded(model, asked)
      && |recorder.toolCalls| == CallsSoFar(setting, asked) && RoundsFit(setting, asked) && !late
    }

    /** Where the clock and the trace stand before the next request. */
    ghost predicate OnRecord(setting: Setting, bounds: Bounds, recorder: TraceRecorder)
      reads this, recorder
    {
      && Binds(bounds, recorder)
      && readings == ReadingBefore(setting, bounds, asked)
      && GoesOn(setting, bounds, asked) && TimedRequests(setting, bounds, asked)
      && recorder.State() == FactsBefore(setting, bounds, asked)
      && recorder.toolCallsRefused == 0 && recorder.peakPromptChars == PeakBefore(setting, bounds, asked)
    }

    /** The same when the last request brought a reply in time. */
    ghost predicate OnRecordAfterReply(setting: Setting, bounds: Bounds, recorder: TraceRecorder)
      reads this, recorder
    {
      && Binds(bounds, recorder) && asked != []
      && readings == ReadingBefore(setting, bounds, asked[..|asked| - 1]) + 3
      && !LastIsLate(setting, bounds, asked) && TimedRequests(setting, bounds, asked)
      && recorder.State() == LastNoted(setting, bounds, asked)
      && recorder.toolCallsRefused == 0 && recorder.peakPromptChars == PeakBefore(setting, bounds, asked)
    }

    /** The same when the conversation has ended. */
    ghost predicate EndedOnRecord(setting: Setting, bounds: Bounds, recorder: TraceRecorder, stop: Stop)
      reads this, recorder
    {
      && Binds(bounds, recorder) && TimedRequests(setting, bounds, asked)
      && stop == HowItEnds(setting, bounds, asked) && IsOver(setting, bounds, asked)
      && (stop != Escaped ==>
            && recorder.State() == FactsAtEnd(setting, bounds, asked)
            && recorder.toolCallsRefused == RefusedAtEnd(setting, bounds, asked)
            && recorder.peakPromptChars == PeakAtEnd(setting, bounds, asked))
    }

    /** The trace could not list what a call of the last reply returned. */
    ghost predicate Overflowed(setting: Setting)
      reads this
    {
      !late && LetThrough(setting, limits, asked) && !RoundsFit(setting, asked)
    }

    lemma NothingTracked(recorder: TraceRecorder, catalog: seq<Claim>)
      requires limits.Valid() && recorder.State() == NOTHING && asked == []
      ensures Tracks(recorder, map[], catalog) && BoundRequests(catalog)
    {
      NothingIsConsistent(recorder.price);
    }

    /** Every request carries the server's own parts unchanged, and a timeout within the limit. */
    ghost predicate BoundRequests(catalog: seq<Claim>)
      reads this
    {
      forall request :: request in asked ==> BoundRequest(request, catalog)
    }

    predicate BoundRequest(request: Request, catalog: seq<Claim>) {
      && request.systemInstructions == systemInstructions && request.tools == definitions
      && request.offeredClaimIds == ClaimIdsOf(catalog)
      && 0.0 < request.timeoutSeconds <= limits.modelTimeoutSeconds
    }

    /** The deadline has passed, or the prompt is too long. */
    predicate NothingIsSent(promptChars: nat, deadline: real, reading: nat) {
      deadline - clock(reading) <= 0.0 || promptChars > settings.maxPromptChars
    }

    /** Sends the next request, unless the deadline or the prompt budget ends the question first. */
    method Ask(
        ghost setting: Setting, ghost bounds: Bounds, messages: seq<Message>, promptChars: nat, ghost t: nat,
        registry: ToolRegistry, recorder: TraceRecorder, ghost retrieved: map<string, Claim>, deadline: real)
      returns (result: TurnResult)
      requires OnRecord(setting, bounds, recorder) && deadline == bounds.deadline && t < limits.maxModelTurns
      requires Serves(registry, setting) && Tracks(recorder, retrieved, registry.catalog)
      requires BetweenTurns(setting, messages, promptChars, t, registry, recorder, retrieved)
      requires BoundRequests(registry.catalog) && t < MAX_TRACED_TURNS && limits.Valid()
      modifies this, recorder
      ensures Tracks(recorder, retrieved, registry.catalog) && BoundRequests(registry.catalog)
      ensures GoodConversation(asked, settings) && |asked| <= t + 1 && FollowsTheModel(setting, asked)
      ensures result.Turn? ==>
        && |asked| == t + 1 && asked[..t] == old(asked) && asked[t].messages == messages
        && WellFormedReply(result.reply) && OutcomeOf(model(asked)) == Budget.Replied(result.reply)
      ensures result != TurnStopped(Escaped) && |recorder.turns| == CountRecorded(model, asked)
      ensures result.Turn? ==> |recorder.turns| == t + 1 && !late
      ensures recorder.toolCalls == old(recorder.toolCalls)
      ensures result.TurnStopped? ==> result.stop.Ended? && LoopReason(result.stop.reason)
      ensures result.TurnStopped? ==> asked == old(asked) || !OutcomeOf(model(asked)).Replied? || late
      ensures |asked| == (if NothingIsSent(promptChars, deadline, old(readings)) then t else t + 1)
      ensures old(asked) <= asked && LateByTheClock()
      ensures result.Turn? ==> OnRecordAfterReply(setting, bounds, recorder)
      ensures result.TurnStopped? ==> EndedOnRecord(setting, bounds, recorder, result.stop)
    {
      hide Budget.ServerBytes, GoodConversation, GoodHistory, Consistent, ServerClaimsOnly, ReturnedAreKnown,
        CountRecorded, WellFormedReply, FollowsTheModel, HistoryAfter, CalledAfter, RetrievedAfter, OutcomeOf,
        CallsSoFar, RoundsFit, Budget.MessageBytes, ContentChars, TookLongerThan, HowItEnds, GoesOn, FactsAtEnd,
        RefusedAtEnd, PeakAtEnd, LastIsLate, LastNoted, FactsBefore, IsOver, TimedRequests, ReadingBefore, PeakBefore;
      var now := Now();
      var remaining := deadline - now;
      if remaining <= 0.0 {
        LimitsEndIt(setting, bounds, asked);
        return TurnStopped(Ended(DeadlineExceeded, NoDetail));
      }
      recorder.peakPromptChars := promptChars;
      if promptChars > settings.maxPromptChars {
        LimitsEndIt(setting, bounds, asked);
        return TurnStopped(Ended(PromptBudgetExceeded, FromProvider(PromptBudget)));
      }
      var timeout := if limits.modelTimeoutSeconds <= remaining then limits.modelTimeoutSeconds else remaining;
      var request := Request(
        systemInstructions, definitions, messages, ClaimIdsOf(registry.catalog), settings.maxOutputTokens, timeout);
      RequestJoinsConversation(asked, request, settings);
      TimedRequestsOneMore(setting, bounds, asked, request);
      ghost var before := asked;
      result := Send(setting, bounds, request, registry, recorder, retrieved);
    }

    /** Sends a request that continues the conversation. */
    method Send(
        ghost setting: Setting, ghost bounds: Bounds, request: Request, registry: ToolRegistry,
        recorder: TraceRecorder, ghost retrieved: map<string, Claim>)
      returns (result: TurnResult)
      requires Binds(bounds, recorder) && recorder.State() == FactsBefore(setting, bounds, asked)
      requires readings == ReadingBefore(setting, bounds, asked) + 1
      requires TimedRequests(setting, bounds, asked + [request]) && recorder.toolCallsRefused == 0
      requires recorder.peakPromptChars == PromptChars(setting, bounds, asked)
      requires Serves(registry, setting) && Tracks(recorder, retrieved, registry.catalog)
      requires BoundRequests(registry.catalog) && BoundRequest(request, registry.catalog)
      requires GoodConversation(asked, settings) && FollowsTheModel(setting, asked)
      requires GoodConversation(asked + [request], settings) && request.messages == HistoryAfter(setting, asked)
      requires |recorder.turns| == |asked| == CountRecorded(model, asked) && |asked| < MAX_TRACED_TURNS
      modifies this, recorder
      ensures asked == old(asked) + [request]
      ensures Tracks(recorder, retrieved, registry.catalog) && BoundRequests(registry.catalog)
      ensures FollowsTheModel(setting, asked)
      ensures result.Turn? ==>
        && WellFormedReply(result.reply) && OutcomeOf(model(asked)) == Budget.Replied(result.reply)
        && |recorder.turns| == |asked| && !late
      ensures result != TurnStopped(Escaped) && |recorder.turns| == CountRecorded(model, asked)
      ensures recorder.toolCalls == old(recorder.toolCalls)
      ensures result.TurnStopped? ==> result.stop.Ended? && LoopReason(result.stop.reason)
      ensures result.TurnStopped? ==> !OutcomeOf(model(asked)).Replied? || late
      ensures LateByTheClock()
      ensures result.Turn? ==> OnRecordAfterReply(setting, bounds, recorder)
      ensures result.TurnStopped? ==> EndedOnRecord(setting, bounds, recorder, result.stop)
    {
      hide GoodConversation, Consistent, ServerClaimsOnly, ReturnedAreKnown, CountRecorded, WellFormedReply,
        FollowsTheModel, HistoryAfter, OutcomeOf, TimedRequests, TurnNoted, FactsBefore, CallsSoFar, RoundsFit,
        FailedTurn, RefusedCalls;
      assert (asked + [request])[..|asked|] == asked;
      NextRequestFollows(setting, asked, request);
      CountOneMore(model, asked, request);
      result := ModelTurn(request, recorder);
      RepliesAreWellFormed(model(asked));
      RepliesAreRecorded(model(asked));
    }

    /** Answers the calls of one turn, and takes calls and results into the history unchanged. */
    method RunRound(
        ghost setting: Setting, ghost bounds: Bounds, reply: Reply, messages: seq<Message>, promptChars: nat,
        ghost t: nat, registry: ToolRegistry, recorder: TraceRecorder, retrieved: map<string, Claim>)
      returns (recorded: bool, messages': seq<Message>, promptChars': nat, retrieved': map<string, Claim>)
      requires Valid() && Serves(registry, setting) && WellFormedReply(reply)
      requires Tracks(recorder, retrieved, registry.catalog)
      requires GoodConversation(asked, settings) && |asked| == t + 1 && asked[t].messages == messages
      requires GoodHistory(messages, t) && FollowsTheModel(setting, asked)
      requires OutcomeOf(model(asked)) == Budget.Replied(reply)
      requires registry.called == CalledAfter(setting, asked[..t]) && retrieved == RetrievedAfter(setting, asked[..t])
      requires promptChars == |systemInstructions| + |definitions| + Budget.MessageBytes(messages, CHARS)
      requires |recorder.turns| == t + 1 == CountRecorded(model, asked)
      requires |recorder.toolCalls| + |reply.toolCalls| <= limits.maxToolCalls
      requires |recorder.toolCalls| == CallsSoFar(setting, asked[..t]) && RoundsFit(setting, asked[..t]) && !late
      requires OnRecordAfterReply(setting, bounds, recorder) && LetThrough(setting, limits, asked)
      modifies this`readings, registry, recorder
      ensures Tracks(recorder, retrieved', registry.catalog)
      ensures recorder.turns == old(recorder.turns)
      ensures recorded ==>
        BetweenTurns(setting, messages', promptChars', t + 1, registry, recorder, retrieved')
      ensures recorded <==> RoundsFit(setting, asked)
      ensures recorded ==> OnRecord(setting, bounds, recorder)
      ensures !recorded ==> EndedOnRecord(setting, bounds, recorder, Escaped)
    {
      hide GoodConversation, GoodHistory, Consistent, ServerClaimsOnly, ReturnedAreKnown, AllFitTheTrace, CountRecorded,
        WellFormedReply, Budget.MessageBytes, FollowsTheModel, HistoryAfter, CalledAfter, RetrievedAfter, OutcomeOf,
        RunAll, ResultsOf, RetrieveAll, RoundsFit, LastExecutions, CallsSoFar, TimedRequests, LastNoted, CallsNoted,
        LastIsLate, PromptChars, GoesOn, HowItEnds, IsOver, ReadingBefore, FactsBefore, PeakBefore, LetThrough,
        RefusedCalls;
      var results;
      assert asked[..|asked| - 1] == asked[..t];
      RoundIsTaken(setting, asked, reply);
      RoundsFitOneMore(setting, asked);
      EveryCallIsExecuted(setting, registry.called, reply.toolCalls);
      ResultsAnswerTheCalls(reply.toolCalls, RunAll(setting, registry.called, reply.toolCalls).0);
      recorded, results, retrieved' := RunTools(setting, reply, registry, recorder, retrieved);
      messages', promptChars' := messages, promptChars;
      CallsAreNoted(setting, bounds, asked, reply);
      if recorded {
        RoundKeepsHistory(messages, t, reply, results);
        MessageBytesOfRound(messages, Message(ASSISTANT, Blocks(reply.content)), Message(USER, Results(results)));
        promptChars' := promptChars + ResultChars(results);
        messages' := messages + [Message(ASSISTANT, Blocks(reply.content)), Message(USER, Results(results))];
      }
    }

    /** One turn of the loop: a stop, or the history with the calls of the turn answered. */
    method OneTurn(
        ghost setting: Setting, ghost bounds: Bounds, messages: seq<Message>, promptChars: nat, ghost t: nat,
        finalTurn: bool, registry: ToolRegistry, recorder: TraceRecorder, retrieved: map<string, Claim>,
        deadline: real)
      returns (stop: Option<Stop>, messages': seq<Message>, promptChars': nat, retrieved': map<string, Claim>)
      requires OnRecord(setting, bounds, recorder) && deadline == bounds.deadline
      requires Valid() && Serves(registry, setting) && Tracks(recorder, retrieved, registry.catalog)
      requires BetweenTurns(setting, messages, promptChars, t, registry, recorder, retrieved)
      requires BoundRequests(registry.catalog) && t < limits.maxModelTurns
      requires finalTurn <==> t + 1 == limits.maxModelTurns
      modifies this, registry, recorder
      ensures Tracks(recorder, retrieved', registry.catalog) && BoundRequests(registry.catalog)
      ensures GoodConversation(asked, settings) && |asked| <= t + 1 && FollowsTheModel(setting, asked)
      ensures |recorder.turns| == CountRecorded(model, asked)
      ensures stop.None? ==> BetweenTurns(setting, messages', promptChars', t + 1, registry, recorder, retrieved')
      ensures stop.Some? && stop.value.Selection? ==>
        retrieved' == RetrievedAfter(setting, asked) && IsTheSelection(setting, asked, stop.value.claimIds)
      ensures stop == Some(Escaped) <==> Overflowed(setting)
      ensures |asked| == (if NothingIsSent(promptChars, deadline, old(readings)) then t else t + 1)
      ensures LateByTheClock() && EarlierRoundsFit(setting, asked)
      ensures stop.Some? && stop.value.Selection? ==> Distinct(stop.value.claimIds)
      ensures stop.Some? && stop.value.Ended? ==> LoopReason(stop.value.reason)
      ensures if stop.Some? then EndedOnRecord(setting, bounds, recorder, stop.value)
              else OnRecord(setting, bounds, recorder)
    {
      hide GoodConversation, GoodHistory, Consistent, ServerClaimsOnly, ReturnedAreKnown, Traceable, CountRecorded,
        WellFormedReply, Budget.MessageBytes, FollowsTheModel, HistoryAfter, CalledAfter, RetrievedAfter, OutcomeOf,
        RunAll, RetrieveAll, RoundsFit, LastExecutions, CallsSoFar, ResultsOf, ReferencesARun, WithinPrompt,
        NothingIsSent, TookLongerThan, HowItEnds, GoesOn, FactsAtEnd, RefusedAtEnd, PeakAtEnd, LastIsLate, LastNoted,
        PeakBefore, TimedRequests, ReadingBefore, FactsBefore, RefusedCalls, IsOver;
      FittingRoundsFitEarlier(setting, asked);
      messages', promptChars', retrieved' := messages, promptChars, retrieved;
      ghost var before := asked;
      var result := Ask(setting, bounds, messages, promptChars, t, registry, recorder, retrieved, deadline);
      assert asked == before || asked[..|asked| - 1] == before;
      if result.TurnStopped? {
        stop := Some(result.stop);
        return;
      }
      var reply := result.reply;
      if reply.toolCalls == [] {
        SelectionsAreDistinct(reply);
        RoundIsTaken(setting, asked, reply);
        NoCallsYet(setting, registry.called, retrieved);
        SelectionsEndIt(setting, bounds, asked, reply);
        stop := Some(Selection(reply.claimIds));
        return;
      }
      assert asked[..|asked| - 1] == before;
      RoundIsTaken(setting, asked, reply);
      LetThroughIsNotRefused(setting, limits, asked, reply);
      stop := Refuse(reply, recorder, finalTurn);
      if stop.Some? {
        RefusalsEndIt(setting, bounds, asked, reply, stop.value);
        return;
      }
      var recorded;
      recorded, messages', promptChars', retrieved' :=
        RunRound(setting, bounds, reply, messages, promptChars, t, registry, recorder, retrieved);
      if !recorded {
        stop := Some(Escaped);
      }
    }

    lemma StartsOnRecord(setting: Setting, bounds: Bounds, recorder: TraceRecorder)
      requires asked == [] && bounds == BoundsFor(recorder.price, readings, bounds.deadline)
      requires recorder.State() == NOTHING && recorder.toolCallsRefused == 0 && recorder.peakPromptChars == 0
      ensures OnRecord(setting, bounds, recorder)
    {
      NothingOnRecord(setting, bounds);
    }

    lemma TheLastTurnIsOnRecord(setting: Setting, bounds: Bounds, recorder: TraceRecorder)
      requires OnRecord(setting, bounds, recorder) && |asked| >= limits.maxModelTurns
      ensures EndedOnRecord(setting, bounds, recorder, Ended(TurnBudgetExhausted, NoDetail))
    {
      TheLastTurnEndsIt(setting, bounds, asked);
    }

    /** Drives the model until it selects claims or a limit ends the question. */
    method Converse(userMessage: string, catalog: seq<Claim>, recorder: TraceRecorder, started: real)
      returns (stop: Stop, retrieved: map<string, Claim>)
      requires Valid() && recorder.State() == NOTHING
      requires recorder.toolCallsRefused == 0 && recorder.peakPromptChars == 0
      modifies this, recorder
      ensures GoodConversation(asked, settings) && |asked| <= limits.maxModelTurns && BoundRequests(catalog)
      ensures FollowsTheModel(SettingFor(catalog, userMessage), asked)
      ensures stop.Selection? ==>
        var setting := SettingFor(catalog, userMessage);
        retrieved == RetrievedAfter(setting, asked) && IsTheSelection(setting, asked, stop.claimIds)
      ensures Tracks(recorder, retrieved, catalog)
      ensures |recorder.turns| == CountRecorded(model, asked)
      ensures EndedOnRecord(
        SettingFor(catalog, userMessage),
        BoundsFor(recorder.price, old(readings), started + limits.totalTimeoutSeconds), recorder, stop)
      ensures stop == Escaped <==> Overflowed(SettingFor(catalog, userMessage))
      ensures EarlierRoundsFit(SettingFor(catalog, userMessage), asked)
      ensures asked == [] <==> NothingIsSent(
        |systemInstructions| + |definitions| + |userMessage|, started + limits.totalTimeoutSeconds, old(readings))
      ensures LateByTheClock()
      ensures Traceable(specs, catalog) ==> stop != Escaped
      ensures stop.Selection? ==> Distinct(stop.claimIds)
      ensures stop.Ended? ==> LoopReason(stop.reason)
    {
      hide GoodConversation, GoodHistory, Consistent, ServerClaimsOnly, ReturnedAreKnown, Traceable, CountRecorded,
        Budget.MessageBytes, FollowsTheModel, HistoryAfter, CalledAfter, RetrievedAfter, IsTheSelection, Traceable,
        RoundsFit, LetThrough, CallsSoFar, WithinPrompt, NothingIsSent, TookLongerThan, EarlierRoundsFit,
        BoundRequests, ContentChars, HowItEnds, GoesOn, FactsAtEnd, RefusedAtEnd, PeakAtEnd, PeakBefore, TimedRequests,
        ReadingBefore, FactsBefore, IsOver, OnRecord, EndedOnRecord, Tracks;
      ghost var setting := SettingFor(catalog, userMessage);
      asked, late, retrieved := [], false, map[];
      var deadline := started + limits.totalTimeoutSeconds;
      var registry := new ToolRegistry(catalog, specs, encoding);
      var messages := [Message(USER, Text(userMessage))];
      var promptChars: nat := |systemInstructions| + |definitions| + |userMessage|;
      ghost var firstPrompt := promptChars;
      ghost var bounds := BoundsFor(recorder.price, readings, deadline);
      ConversationStarts(setting, settings);
      NothingTracked(recorder, catalog);
      StartsOnRecord(setting, bounds, recorder);
      for turn := 1 to limits.maxModelTurns + 1
        invariant Tracks(recorder, retrieved, catalog) && BoundRequests(catalog)
        invariant BetweenTurns(setting, messages, promptChars, turn - 1, registry, recorder, retrieved)
        invariant fresh(registry) && registry.catalog == catalog && Serves(registry, setting)
        invariant OnRecord(setting, bounds, recorder)
        invariant turn == 1 ==> readings == old(readings) && promptChars == firstPrompt
        invariant turn > 1 ==> !NothingIsSent(firstPrompt, deadline, old(readings))
      {
        var ended;
        ended, messages, promptChars, retrieved := OneTurn(
          setting, bounds, messages, promptChars, turn - 1, turn == limits.maxModelTurns, registry, recorder, retrieved,
          deadline);
        if ended.Some? {
          TraceableRoundsFit(setting, asked);
          return ended.value, retrieved;
        }
      }
      FittingRoundsFitEarlier(setting, asked);
      TheLastTurnIsOnRecord(setting, bounds, recorder);
      return Ended(TurnBudgetExhausted, NoDetail), retrieved;
    }

    method Noted(retrieved: map<string, Claim>, claims: seq<Claim>) returns (updated: map<string, Claim>)
      ensures updated == Retrieve(retrieved, claims)
    {
      updated := retrieved;
      for i := 0 to |claims|
        invariant updated == Retrieve(retrieved, claims[..i])
      {
        assert claims[..i + 1][..i] == claims[..i];
        updated := updated[claims[i].id := claims[i]];
      }
      assert claims[..|claims|] == claims;
    }
  }

  lemma {:induction false} TraceableCallsFit(setting: Setting, called: set<ToolName>, calls: seq<ToolCall>)
    requires Traceable(setting.specs, setting.catalog)
    ensures AllFitTheTrace(RunAll(setting, called, calls).0)
  {
    hide Traceable, Execution, FitsTheTrace;
    if calls != [] {
      var earlier, last := calls[..|calls| - 1], calls[|calls| - 1];
      TraceableCallsFit(setting, called, earlier);
      CallsFitTheTrace(
        setting.specs, setting.catalog, setting.encoding, RunAll(setting, called, earlier).1, last.name,
        last.arguments);
    }
  }

  /** With short answers over a catalog of at most 32 valid ids, every call of every conversation fits the trace. */
  lemma TraceableRoundsFit(setting: Setting, asked: seq<Request>)
    ensures Traceable(setting.specs, setting.catalog) ==> RoundsFit(setting, asked)
  {
    hide Traceable, RunAll, AllFitTheTrace, CalledAfter, CallsOfLastReply;
    if Traceable(setting.specs, setting.catalog) {
      forall i | 0 < i <= |asked| ensures AllFitTheTrace(LastExecutions(setting, asked[..i])) {
        var part := asked[..i];
        TraceableCallsFit(setting, CalledAfter(setting, part[..i - 1]), CallsOfLastReply(setting, part));
      }
    }
  }

  lemma ConversationStarts(setting: Setting, settings: Settings)
    ensures GoodConversation([], settings) && GoodHistory([Message(USER, Text(setting.userMessage))], 0)
    ensures Budget.MessageBytes([Message(USER, Text(setting.userMessage))], CHARS) == |setting.userMessage|
    ensures ServerClaimsOnly(map[], setting.catalog, []) && ReturnedAreKnown([], setting.catalog)
    ensures CountRecorded(setting.model, []) == 0
    ensures FollowsTheModel(setting, [])
    ensures HistoryAfter(setting, []) == [Message(USER, Text(setting.userMessage))]
    ensures CalledAfter(setting, []) == {} && RetrievedAfter(setting, []) == map[]
    ensures CallsSoFar(setting, []) == 0 && RoundsFit(setting, [])
  {
    var messages := [Message(USER, Text(setting.userMessage))];
    assert messages[..0] == [];
  }

  /** The next request, when it fits the prompt budget, keeps the conversation well formed. */
  lemma RequestJoinsConversation(asked: seq<Request>, request: Request, settings: Settings)
    requires GoodConversation(asked, settings) && GoodHistory(request.messages, |asked|)
    requires asked != [] ==> asked[|asked| - 1].messages <= request.messages
    requires
      |request.systemInstructions| + |request.tools| + Budget.MessageBytes(request.messages, CHARS)
      <= settings.maxPromptChars
    requires request.maxOutputTokens == settings.maxOutputTokens
    ensures GoodConversation(asked + [request], settings)
    ensures (asked + [request])[|asked|].messages == request.messages
  {
    hide GoodHistory;
  }

  lemma CountOneMore(model: Model, asked: seq<Request>, request: Request)
    ensures CountRecorded(model, asked + [request]) == CountRecorded(model, asked)
      + if Interleavings.RecordsTurn(OutcomeOf(model(asked + [request]))) then 1 else 0
  {
    assert (asked + [request])[..|asked|] == asked;
  }

  lemma RepliesAreWellFormed(answer: ModelAnswer)
    ensures OutcomeOf(answer).Replied? ==> WellFormedReply(OutcomeOf(answer).reply)
  {
    if answer.Response? && ParseAgentMessage(answer.raw, answer.telemetry, answer.decode).Ok? {
      ParsedRepliesAreWellFormed(answer.raw, answer.telemetry, answer.decode);
    }
  }

  lemma RepliesAreRecorded(answer: ModelAnswer)
    ensures OutcomeOf(answer).Replied? ==> Interleavings.RecordsTurn(OutcomeOf(answer))
  {
  }

  lemma SelectionsAreDistinct(reply: Reply)
    requires WellFormedReply(reply)
    ensures Distinct(reply.claimIds)
  {
  }

  /** One executed call keeps the trace consistent, and what it brings in are the server's claims. */
  lemma CallIsTraced(
      specs: seq<ToolSpec>, catalog: seq<Claim>, encoding: Encoding, called: set<ToolName>, call: ToolCall,
      facts: Facts, price: Option<ModelPrice>, retrieved: map<string, Claim>, seconds: real)
    requires Consistent(facts, price) && 1 <= |facts.turns| && |facts.toolCalls| < MAX_TRACED_TOOL_CALLS
    requires ServerClaimsOnly(retrieved, catalog, facts.returned) && ReturnedAreKnown(facts.returned, catalog)
    ensures var execution := Execution(specs, catalog, encoding, called, call.name, call.arguments).0;
      var next := WithTool(facts, seconds, execution);
      && Consistent(next, price)
      && ServerClaimsOnly(Retrieve(retrieved, execution.claims), catalog, next.returned)
      && ReturnedAreKnown(next.returned, catalog)
      && (ValidToolCall(NextToolCall(facts, seconds, execution)) <==> FitsTheTrace(execution))
  {
    hide ValidToolCall, ValidTurn, Execution, ValidIds;
    var execution := Execution(specs, catalog, encoding, called, call.name, call.arguments).0;
    forall c | c in execution.claims ensures c.id in ById(catalog) && ById(catalog)[c.id] == c {
      CallsReturnOnlyServerClaims(specs, catalog, encoding, called, call.name, call.arguments, c);
    }
    ToolsKeepConsistent(facts, price, seconds, execution);
    RetrievingKeepsServerClaims(retrieved, catalog, facts, execution, seconds);
    ToolKeepsReturnedKnown(facts, seconds, execution, catalog);
    TurnCountIsBounded(facts, price);
    RecordsAreAcceptedIff(facts, price, seconds, None, execution);
  }

  lemma TurnCountIsBounded(facts: Facts, price: Option<ModelPrice>)
    requires Consistent(facts, price)
    ensures |facts.turns| <= MAX_TRACED_TURNS && |facts.toolCalls| <= MAX_TRACED_TOOL_CALLS
  {
    assert |facts.turns| > 0 ==> ValidTurn(facts.turns[|facts.turns| - 1]);
    assert |facts.toolCalls| > 0 ==> ValidToolCall(facts.toolCalls[|facts.toolCalls| - 1]);
  }

  // -- answers too long for the trace ----------------------------------------

  /** No call of any reply returns more claims than a trace can list. */
  ghost predicate ShortRounds(setting: Setting, asked: seq<Request>) {
    forall i :: 0 < i <= |asked| ==> ShortExecutions(LastExecutions(setting, asked[..i]))
  }

  ghost predicate ShortExecutions(executions: seq<ToolExecution>) {
    forall i :: 0 <= i < |executions| ==> |executions[i].claims| <= MAX_CLAIMS
  }

  lemma {:induction false} ExecutionsFitIff(setting: Setting, called: set<ToolName>, calls: seq<ToolCall>)
    requires forall c :: c in setting.catalog ==> ValidClaimId(c.id)
    ensures var executions := RunAll(setting, called, calls).0;
      AllFitTheTrace(executions) <==> ShortExecutions(executions)
  {
    hide Execution, ValidClaimId;
    if calls != [] {
      var earlier, last := calls[..|calls| - 1], calls[|calls| - 1];
      ExecutionsFitIff(setting, called, earlier);
      var (executions, before) := RunAll(setting, called, earlier);
      var execution := Execution(
        setting.specs, setting.catalog, setting.encoding, before, last.name, last.arguments).0;
      forall c | c in execution.claims ensures ValidClaimId(c.id) {
        CallsReturnOnlyServerClaims(
          setting.specs, setting.catalog, setting.encoding, before, last.name, last.arguments, c);
      }
      var ids := ClaimIdsOf(execution.claims);
      forall id | id in ids ensures ValidClaimId(id) {
        var i :| 0 <= i < |ids| && ids[i] == id;
        assert execution.claims[i] in execution.claims;
      }
      var all := executions + [execution];
      assert all[|executions|] == execution;
      assert forall i :: 0 <= i < |executions| ==> all[i] == executions[i];
    }
  }

  /** Over valid claim ids, the trace refuses exactly the conversations in which a call returned more than 32 claims. */
  lemma OnlyLongAnswersOverflow(setting: Setting, asked: seq<Request>)
    requires forall c :: c in setting.catalog ==> ValidClaimId(c.id)
    ensures RoundsFit(setting, asked) <==> ShortRounds(setting, asked)
  {
    hide RunAll, AllFitTheTrace, CalledAfter, CallsOfLastReply, ValidClaimId, ShortExecutions;
    forall i | 0 < i <= |asked|
      ensures AllFitTheTrace(LastExecutions(setting, asked[..i]))
        <==> ShortExecutions(LastExecutions(setting, asked[..i]))
    {
      var part := asked[..i];
      ExecutionsFitIff(setting, CalledAfter(setting, part[..i - 1]), CallsOfLastReply(setting, part));
    }
  }

  /** The shipped tools never overflow the trace, over any catalog of at most 32 claims with distinct, valid ids. */
  lemma ShippedToolsAreTraceable(catalog: seq<Claim>)
    requires DistinctClaimIds(catalog) && TraceableCatalog(catalog)
    ensures Traceable(READ_ONLY_TOOLS, catalog)
  {
    forall i | 0 <= i < |READ_ONLY_TOOLS| && READ_ONLY_TOOLS[i].handler(catalog).Returned?
      ensures |READ_ONLY_TOOLS[i].handler(catalog).claims| <= MAX_CLAIMS
    {
      ReadOnlyToolsAnswerShortly(catalog, i);
    }
  }

  const EXAMPLE_LABEL := Claim(OUTPUT_NATURE_CLAIM_ID, "Synthetic.", [Citation("run", "status", None, None, None)])

  /** Hands over its one claim 33 times. Every one of them is the server's own, so the registry approves. */
  const RepeatingHandler: Handler := (catalog: seq<Claim>) => Returned(seq(33, _ => EXAMPLE_LABEL))

  const EXAMPLE_SPECS: seq<ToolSpec> :=
    [ToolSpec(GetRunStatus, OWNED[GetRunStatus], RepeatingHandler)] + READ_ONLY_TOOLS[1..]

  const EXAMPLE_BLOCK := Block(TOOL_USE, Some("call"), Some("get_run_status"), EmptyObject, None)

  /** Asks for the run status, whatever it is shown. */
  const ExampleModel: Model := (asked: seq<Request>) =>
    Response(RawMessage(Some(TOOL_USE), Some([EXAMPLE_BLOCK])), None, (texts: seq<string>) => None)

  lemma TheExampleCalls(asked: seq<Request>)
    ensures OutcomeOf(ExampleModel(asked)) ==
      Budget.Replied(Reply([EXAMPLE_BLOCK], [ToolCall("call", "get_run_status", EmptyObject)], [], None))
  {
    var content := [EXAMPLE_BLOCK];
    assert ToolUses(content) == content by { assert content[1..] == []; }
    var calls := CallsOf(content);
    assert calls == [ToolCall("call", "get_run_status", EmptyObject)];
    assert IsToolUseId("call");
    assert forall b :: b in content ==> ReadableCall(b);
  }

  /** One claim, one handler that repeats it, and one call: the call is let through, and overflows the trace. */
  lemma ARepeatedClaimOverflows(encoding: Encoding, userMessage: string, request: Request, limits: Limits)
    requires limits.maxToolCalls >= 1 && limits.maxModelTurns >= 2
    ensures ExactlyTheApprovedTools(EXAMPLE_SPECS) && TraceableCatalog([EXAMPLE_LABEL])
    ensures var setting := Setting(ExampleModel, EXAMPLE_SPECS, encoding, [EXAMPLE_LABEL], userMessage);
      LetThrough(setting, limits, [request]) && !RoundsFit(setting, [request])
  {
    var setting := Setting(ExampleModel, EXAMPLE_SPECS, encoding, [EXAMPLE_LABEL], userMessage);
    var asked := [request];
    TheExampleIsLawful();
    TheExampleCalls(asked);
    TheExampleReturnsTooMuch(encoding);
    var call := ToolCall("call", "get_run_status", EmptyObject);
    assert [call][..0] == [] && asked[..0] == [] && asked[..1] == asked;
    assert LastExecutions(setting, asked) == [RunTool(EXAMPLE_SPECS[0], [EXAMPLE_LABEL], encoding)] by {
      assert RunAll(setting, {}, []) == ([], {});
      assert CallsOfLastReply(setting, asked) == [call];
    }
    assert !FitsTheTrace(LastExecutions(setting, asked[..1])[0]);
  }

  lemma TheExampleIsLawful()
    ensures ExactlyTheApprovedTools(EXAMPLE_SPECS) && TraceableCatalog([EXAMPLE_LABEL])
  {
    var names := SpecNames(EXAMPLE_SPECS);
    assert names[0] == GetRunStatus && names[1] == GetTrackingDiagnostics && names[2] == GetArtifactMetadata
      && names[3] == GetModelProvenance && names[4] == GetEvidenceLimitations;
    assert (set c | c in [EXAMPLE_LABEL] :: c.id) == {OUTPUT_NATURE_CLAIM_ID};
  }

  lemma TheExampleReturnsTooMuch(encoding: Encoding)
    ensures FindSpec(EXAMPLE_SPECS, "get_run_status") == Some(EXAMPLE_SPECS[0])
    ensures var execution := RunTool(EXAMPLE_SPECS[0], [EXAMPLE_LABEL], encoding);
      |execution.claims| == 33 && !FitsTheTrace(execution)
  {
    assert [EXAMPLE_LABEL][..0] == [];
    assert ById([EXAMPLE_LABEL]) == map[OUTPUT_NATURE_CLAIM_ID := EXAMPLE_LABEL];
  }

  /** The agent runs that example, on a clock that stands still: an exception leaves the conversation. */
  method AnExampleEscapes(
      encoding: Encoding, systemInstructions: string, definitions: string, userMessage: string, settings: Settings,
      limits: Limits) returns (stop: Stop)
    requires limits.Valid() && limits.maxToolCalls >= 1 && limits.maxModelTurns >= 2
    requires |systemInstructions| + |definitions| + |userMessage| <= settings.maxPromptChars
    ensures stop == Escaped
  {
    hide GoodConversation, FollowsTheModel, IsTheSelection, Consistent, LetThrough, RoundsFit, ServerClaimsOnly,
      ReturnedAreKnown, CountRecorded, Traceable, ExampleModel, EXAMPLE_SPECS, TraceableCatalog,
      ExactlyTheApprovedTools;
    TheExampleIsLawful();
    var agent := new ReadOnlyAgent(
      ExampleModel, (reading: nat) => 0.0, limits, settings, EXAMPLE_SPECS, encoding, systemInstructions, definitions);
    var recorder := new TraceRecorder(None);
    var retrieved;
    stop, retrieved := agent.Converse(userMessage, [EXAMPLE_LABEL], recorder, 0.0);
    assert agent.asked != [];
    var setting := agent.SettingFor([EXAMPLE_LABEL], userMessage);
    ARepeatedClaimOverflows(encoding, userMessage, agent.asked[0], limits);
    TheFirstRoundDecides(setting, agent.asked);
    assert agent.asked == [agent.asked[0]];
    assert agent.asked[0] in agent.asked;
  }

  lemma TheFirstRoundDecides(setting: Setting, asked: seq<Request>)
    requires asked != [] && EarlierRoundsFit(setting, asked) && !RoundsFit(setting, [asked[0]])
    ensures |asked| == 1
  {
    hide LastExecutions, AllFitTheTrace;
    if |asked| > 1 {
      var earlier, first := asked[..|asked| - 1], [asked[0]];
      forall i | 0 < i <= |first| ensures AllFitTheTrace(LastExecutions(setting, first[..i])) {
        assert earlier[..i] == first[..i];
      }
    }
  }

  // -- what one question can cost --------------------------------------------

  lemma RoundsAddATurn(messages: seq<Message>, call: Message, results: Message)
    requires call.role == ASSISTANT && results.role == USER
    ensures Budget.EarlierTurns(messages + [call, results]) == Budget.EarlierTurns(messages) + 1
  {
    var all := messages + [call, results];
    assert all[..|all| - 1] == messages + [call];
    assert (messages + [call])[..|messages|] == messages;
  }

  lemma LastRoundRoles(messages: seq<Message>, t: nat)
    requires RolesAlternate(messages) && |messages| == 2 * t + 1 && t > 0
    ensures RolesAlternate(messages[..2 * t - 1])
    ensures messages[2 * t - 1].role == ASSISTANT && messages[2 * t].role == USER
  {
    assert messages[2 * t - 1].role == RoleAt(2 * t - 1) && messages[2 * t].role == RoleAt(2 * t);
  }

  lemma {:induction false} EveryRoundIsAnEarlierTurn(messages: seq<Message>, t: nat)
    requires RolesAlternate(messages) && |messages| == 2 * t + 1
    ensures Budget.EarlierTurns(messages) == t
    decreases t
  {
    if t == 0 {
      assert messages[..0] == [];
    } else {
      hide Budget.EarlierTurns, RolesAlternate;
      var earlier, call, results := messages[..2 * t - 1], messages[2 * t - 1], messages[2 * t];
      LastRoundRoles(messages, t);
      EveryRoundIsAnEarlierTurn(earlier, t - 1);
      RoundsAddATurn(earlier, call, results);
      assert messages == earlier + [call, results];
    }
  }

  /** What each request of a conversation may report: its own prompt, and a full output for each earlier turn. */
  ghost predicate ReportsWithinTheRequests(asked: seq<Request>, usages: seq<TokenUsage>) {
    |usages| == |asked| && forall i :: 0 <= i < |asked| ==>
      && usages[i].cacheCreation == 0
      && WithinTokenLimits(
           usages[i],
           Budget.ServerBytes(asked[i], CHARS) + Budget.EarlierTurns(asked[i].messages) * asked[i].maxOutputTokens,
           asked[i].maxOutputTokens)
  }

  /** The loop's own limits make its published worst case hold: no conversation costs more. */
  lemma ConversationsStayWithinTheWorstCase(
      price: ModelPrice, asked: seq<Request>, usages: seq<TokenUsage>, settings: Settings, turns: nat)
    requires SanePrice(price) && GoodConversation(asked, settings) && |asked| <= turns
    requires ReportsWithinTheRequests(asked, usages)
    ensures TotalCost(price, usages)
      <= QuestionWorstCase(price, settings.maxPromptChars, settings.maxOutputTokens, turns)
  {
    forall i | 0 <= i < |usages|
      ensures usages[i].cacheCreation == 0
      ensures WithinTokenLimits(
        usages[i], TurnPrompt(settings.maxPromptChars, settings.maxOutputTokens, i), settings.maxOutputTokens)
    {
      assert GoodHistory(asked[i].messages, i) && WithinPrompt(asked[i], settings);
      EveryRoundIsAnEarlierTurn(asked[i].messages, i);
    }
    QuestionCostIsBounded(price, usages, settings.maxPromptChars, settings.maxOutputTokens, turns);
  }
}
