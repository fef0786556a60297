/** What a whole conversation did: the calls that ran, the claims they returned, and the messages they left. */
module AgentConversations {
  import opened Common
  import opened Provider
  import opened Grounding
  import opened AgentTools
  import opened AgentTrace
  import opened AgentMonitor
  import opened AgentLoop
  import Budget

  /** Every call of every reply, in order, and what it did when it ran. */
  function AllExecutions(setting: Setting, asked: seq<Request>): seq<ToolExecution> {
    if asked == [] then []
    else AllExecutions(setting, asked[..|asked| - 1]) + LastExecutions(setting, asked)
  }

  // -- which calls ran -------------------------------------------------------

  ghost predicate RanIn(executions: seq<ToolExecution>, tool: ToolName) {
    exists e :: e in executions && e.tool == Some(tool) && e.status != Rejected
  }

  lemma RanInEither(a: seq<ToolExecution>, b: seq<ToolExecution>, tool: ToolName)
    ensures RanIn(a + b, tool) <==> RanIn(a, tool) || RanIn(b, tool)
  {
  }

  lemma OneCallRuns(setting: Setting, called: set<ToolName>, call: ToolCall, tool: ToolName)
    ensures var (execution, after) :=
        Execution(setting.specs, setting.catalog, setting.encoding, called, call.name, call.arguments);
      tool in after <==> tool in called || RanIn([execution], tool)
  {
    var (execution, after) :=
      Execution(setting.specs, setting.catalog, setting.encoding, called, call.name, call.arguments);
    assert [execution][0] == execution;
  }

  lemma {:induction false} CallsRun(setting: Setting, called: set<ToolName>, calls: seq<ToolCall>, tool: ToolName)
    ensures var (executions, after) := RunAll(setting, called, calls);
      |executions| == |calls| && (tool in after <==> tool in called || RanIn(executions, tool))
  {
    hide Execution, RanIn;
    if calls == [] {
      NothingRan(tool);
    } else {
      var earlier, last := calls[..|calls| - 1], calls[|calls| - 1];
      CallsRun(setting, called, earlier, tool);
      var (executions, before) := RunAll(setting, called, earlier);
      OneCallRuns(setting, before, last, tool);
      var execution :=
        Execution(setting.specs, setting.catalog, setting.encoding, before, last.name, last.arguments).0;
      RanInEither(executions, [execution], tool);
    }
  }

  lemma NothingRan(tool: ToolName)
    ensures !RanIn([], tool)
  {
  }

  /** A tool counts as called exactly when some call of it ran. */
  lemma {:induction false} CalledAreThoseThatRan(setting: Setting, asked: seq<Request>, tool: ToolName)
    ensures tool in CalledAfter(setting, asked) <==> RanIn(AllExecutions(setting, asked), tool)
  {
    hide RunAll, RanIn;
    if asked == [] {
      NothingRan(tool);
    } else {
      var earlier := asked[..|asked| - 1];
      CalledAreThoseThatRan(setting, earlier, tool);
      CallsRun(setting, CalledAfter(setting, earlier), CallsOfLastReply(setting, asked), tool);
      RanInEither(AllExecutions(setting, earlier), LastExecutions(setting, asked), tool);
    }
  }

  lemma {:induction false} EarlierCallsAreTheSame(
      setting: Setting, called: set<ToolName>, calls: seq<ToolCall>, j: nat)
    requires j < |calls|
    ensures var executions, earlier := RunAll(setting, called, calls).0, RunAll(setting, called, calls[..j]);
      && |executions| == |calls| && |earlier.0| == j && executions[..j] == earlier.0
      && executions[j] == Execution(
           setting.specs, setting.catalog, setting.encoding, earlier.1, calls[j].name, calls[j].arguments).0
  {
    hide Execution;
    var n := |calls| - 1;
    if j < n {
      EarlierCallsAreTheSame(setting, called, calls[..n], j);
      assert calls[..n][..j] == calls[..j];
      EveryCallIsExecuted(setting, called, calls);
    } else {
      EveryCallIsExecuted(setting, called, calls[..n]);
    }
  }

  /**
   * Call `j` of the last reply: of all calls before it in the conversation, only those that ran its own tool matter,
   * and such a one makes it a duplicate.
   */
  lemma DuplicatesAreThoseThatRanBefore(setting: Setting, asked: seq<Request>, j: nat, i: nat)
    requires asked != [] && j < |CallsOfLastReply(setting, asked)| && i < |setting.specs|
    requires forall k :: 0 <= k < i ==> ToolText(setting.specs[k].name) != ToolText(setting.specs[i].name)
    requires CallsOfLastReply(setting, asked)[j].name == ToolText(setting.specs[i].name)
    ensures j < |LastExecutions(setting, asked)|
    ensures var execution := LastExecutions(setting, asked)[j];
      var before := AllExecutions(setting, asked[..|asked| - 1]) + LastExecutions(setting, asked)[..j];
      && execution.tool == Some(setting.specs[i].name)
      && (execution.error == Some(DuplicateCall) <==>
            CallsOfLastReply(setting, asked)[j].arguments == EmptyObject && RanIn(before, setting.specs[i].name))
      && (execution.status != Rejected <==>
            CallsOfLastReply(setting, asked)[j].arguments == EmptyObject && !RanIn(before, setting.specs[i].name))
  {
    hide RunAll, RanIn, Execution;
    var earlier, calls, tool := asked[..|asked| - 1], CallsOfLastReply(setting, asked), setting.specs[i].name;
    var called := CalledAfter(setting, earlier);
    EarlierCallsAreTheSame(setting, called, calls, j);
    CalledAreThoseThatRan(setting, earlier, tool);
    CallsRun(setting, called, calls[..j], tool);
    RanInEither(AllExecutions(setting, earlier), LastExecutions(setting, asked)[..j], tool);
    ExecutionsAreAnsweredIff(
      setting.specs, setting.catalog, setting.encoding, RunAll(setting, called, calls[..j]).1, calls[j].arguments, i);
  }

  // -- which claims were returned --------------------------------------------

  ghost predicate ReturnedIn(executions: seq<ToolExecution>, id: string) {
    exists e, c :: e in executions && c in e.claims && c.id == id
  }

  lemma {:induction false} RetrievedInOneReply(
      retrieved: map<string, Claim>, executions: seq<ToolExecution>, id: string)
    ensures id in RetrieveAll(retrieved, executions) <==> id in retrieved || ReturnedIn(executions, id)
  {
    if executions != [] {
      var earlier, last := executions[..|executions| - 1], executions[|executions| - 1];
      RetrievedInOneReply(retrieved, earlier, id);
      RetrieveIff(RetrieveAll(retrieved, earlier), last.claims, id);
      assert executions == earlier + [last];
      assert last in executions;
    }
  }

  /** What may be shown was returned by a call that ran, and all that was returned may be. */
  lemma {:induction false} RetrievedAreTheReturned(setting: Setting, asked: seq<Request>, id: string)
    ensures id in RetrievedAfter(setting, asked) <==> ReturnedIn(AllExecutions(setting, asked), id)
  {
    hide RunAll, RetrieveAll;
    if asked != [] {
      var earlier := asked[..|asked| - 1];
      RetrievedAreTheReturned(setting, earlier, id);
      RetrievedInOneReply(RetrievedAfter(setting, earlier), LastExecutions(setting, asked), id);
    }
  }

  // -- what the messages say -------------------------------------------------

  ghost predicate AllReplied(setting: Setting, asked: seq<Request>) {
    forall i :: 0 < i <= |asked| ==> OutcomeOf(setting.model(asked[..i])).Replied?
  }

  /** The two messages that a reply and its calls leave. */
  ghost predicate IsRound(setting: Setting, asked: seq<Request>, call: Message, answer: Message)
    requires asked != []
  {
    var outcome, executions := OutcomeOf(setting.model(asked)), LastExecutions(setting, asked);
    && outcome.Replied? && call == Message("assistant", Blocks(outcome.reply.content))
    && answer.role == "user" && answer.content.Results?
    && var calls, results := outcome.reply.toolCalls, answer.content.results;
       && |results| == |calls| == |executions|
       && forall j :: 0 <= j < |calls| ==>
            results[j] ==
              ToolResult("tool_result", calls[j].callId, executions[j].content, executions[j].error.Some?)
  }

  /** Before any request stand the question, and for each earlier reply its blocks unchanged and its results. */
  lemma {:induction false} HistoriesAreMadeOfRounds(setting: Setting, asked: seq<Request>)
    requires FollowsTheModel(setting, asked) && AllReplied(setting, asked)
    ensures var history := HistoryAfter(setting, asked);
      && |history| == 2 * |asked| + 1
      && history[0] == Message("user", Text(setting.userMessage))
      && forall i :: 0 < i <= |asked| ==> IsRound(setting, asked[..i], history[2 * i - 1], history[2 * i])
  {
    hide IsRound, RunAll, OutcomeOf, FollowsTheModel, AllReplied;
    if asked == [] {
      ConversationStarts(setting, Settings(0, 0));
    } else {
      var n := |asked| - 1;
      var earlier := asked[..n];
      EarlierConversation(setting, asked);
      HistoriesAreMadeOfRounds(setting, earlier);
      assert asked[..|asked|] == asked;
      var before, history := HistoryAfter(setting, earlier), HistoryAfter(setting, asked);
      LastRound(setting, asked);
      hide HistoryAfter;
      forall i | 0 < i <= |asked| ensures IsRound(setting, asked[..i], history[2 * i - 1], history[2 * i]) {
        if i < |asked| {
          assert asked[..i] == earlier[..i];
          assert history[2 * i - 1] == before[2 * i - 1] && history[2 * i] == before[2 * i];
        }
      }
    }
  }

  lemma LastRound(setting: Setting, asked: seq<Request>)
    requires asked != [] && OutcomeOf(setting.model(asked)).Replied?
    requires asked[|asked| - 1].messages == HistoryAfter(setting, asked[..|asked| - 1])
    ensures var before, history := HistoryAfter(setting, asked[..|asked| - 1]), HistoryAfter(setting, asked);
      && |history| == |before| + 2 && history[..|before|] == before
      && IsRound(setting, asked, history[|before|], history[|before| + 1])
  {
    hide OutcomeOf, RunAll, CalledAfter;
    var reply, executions := OutcomeOf(setting.model(asked)).reply, LastExecutions(setting, asked);
    EveryCallIsExecuted(setting, CalledAfter(setting, asked[..|asked| - 1]), reply.toolCalls);
    var before, history := HistoryAfter(setting, asked[..|asked| - 1]), HistoryAfter(setting, asked);
    assert history == before
      + [Message(ASSISTANT, Blocks(reply.content)), Message(USER, Results(ResultsOf(reply.toolCalls, executions)))];
  }

  lemma EarlierConversation(setting: Setting, asked: seq<Request>)
    requires asked != [] && FollowsTheModel(setting, asked) && AllReplied(setting, asked)
    ensures var earlier := asked[..|asked| - 1];
      && FollowsTheModel(setting, earlier) && AllReplied(setting, earlier)
      && asked[|asked| - 1].messages == HistoryAfter(setting, earlier)
      && OutcomeOf(setting.model(asked)).Replied?
  {
    hide HistoryAfter, OutcomeOf;
    var earlier := asked[..|asked| - 1];
    forall i | 0 <= i < |earlier| ensures earlier[i].messages == HistoryAfter(setting, earlier[..i]) {
      assert earlier[..i] == asked[..i];
    }
    forall i | 0 < i <= |earlier| ensures OutcomeOf(setting.model(earlier[..i])).Replied? {
      assert earlier[..i] == asked[..i];
    }
    assert asked[..|asked|] == asked;
  }

  // -- how long the prompt is ------------------------------------------------

  function ContentTotal(executions: seq<ToolExecution>): nat {
    if executions == [] then 0 else |executions[0].content| + ContentTotal(executions[1..])
  }

  lemma {:induction false} ContentTotalAddsUp(a: seq<ToolExecution>, b: seq<ToolExecution>)
    ensures ContentTotal(a + b) == ContentTotal(a) + ContentTotal(b)
  {
    if a == [] {
      assert a + b == b;
    } else {
      ContentTotalAddsUp(a[1..], b);
      assert (a + b)[1..] == a[1..] + b;
    }
  }

  lemma {:induction false} ResultsAreAsLong(calls: seq<ToolCall>, executions: seq<ToolExecution>)
    requires |calls| == |executions|
    ensures ResultChars(ResultsOf(calls, executions)) == ContentTotal(executions)
  {
    if calls != [] {
      var n := |calls| - 1;
      ResultsAreAsLong(calls[..n], executions[..n]);
      assert executions == executions[..n] + [executions[n]];
      ContentTotalAddsUp(executions[..n], [executions[n]]);
      assert [executions[n]][1..] == [];
      var results := ResultsOf(calls, executions);
      assert results[..n] == ResultsOf(calls[..n], executions[..n]);
    }
  }

  lemma NothingIsWritten()
    ensures ContentTotal([]) == 0
  {
  }

  /** A prompt is as long as all that the server wrote: its instructions, the question, and every tool result. */
  lemma {:induction false} PromptsAreCounted(setting: Setting, bounds: Bounds, asked: seq<Request>)
    requires FollowsTheModel(setting, asked) && AllReplied(setting, asked)
    ensures PromptChars(setting, bounds, asked) ==
      bounds.fixedChars + |setting.userMessage| + ContentTotal(AllExecutions(setting, asked))
  {
    hide OutcomeOf, RunAll, CalledAfter, FollowsTheModel, AllReplied, ResultsOf, Budget.MessageBytes, ContentTotal;
    if asked == [] {
      ConversationStarts(setting, Settings(0, 0));
      assert ContentTotal(AllExecutions(setting, asked)) == 0 by { NothingIsWritten(); }
    } else {
      var earlier := asked[..|asked| - 1];
      EarlierConversation(setting, asked);
      PromptsAreCounted(setting, bounds, earlier);
      var reply, executions := OutcomeOf(setting.model(asked)).reply, LastExecutions(setting, asked);
      EveryCallIsExecuted(setting, CalledAfter(setting, earlier), reply.toolCalls);
      ResultsAreAsLong(reply.toolCalls, executions);
      ContentTotalAddsUp(AllExecutions(setting, earlier), executions);
      MessageBytesOfRound(
        HistoryAfter(setting, earlier), Message(ASSISTANT, Blocks(reply.content)),
        Message(USER, Results(ResultsOf(reply.toolCalls, executions))));
    }
  }

  // -- the limits ------------------------------------------------------------

  /**
   * Whatever the configuration, a request may take 20 seconds at most and must be over 45 seconds after the question
   * came; a conversation that goes on has run four calls at most, and has sent fewer than five requests.
   */
  lemma ConversationsAreBounded(setting: Setting, bounds: Bounds, asked: seq<Request>, t: nat, started: real)
    requires bounds.limits.Valid() && TimedRequests(setting, bounds, asked) && t < |asked|
    requires bounds.deadline == started + bounds.limits.totalTimeoutSeconds
    ensures 0.0 < asked[t].timeoutSeconds <= 20.0
    ensures bounds.clock(ReadingBefore(setting, bounds, asked[..t])) + asked[t].timeoutSeconds <= started + 45.0
    ensures GoesOn(setting, bounds, asked) ==> CallsSoFar(setting, asked) <= 4 && |asked| < 5
  {
    hide OutcomeOf, RoundsFit, LastIsLate, ReadingBefore;
    assert TimedRequest(setting, bounds, asked[..t], asked[t]);
  }
}
