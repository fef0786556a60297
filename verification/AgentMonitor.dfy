/** The monitor of the tool protocol: it reads the recorded requests of one conversation. */
module AgentMonitor {
  import opened Common
  import opened Provider

  datatype Violation =
    | HistoryEdited
    | WrongRole(index: nat)
    | MixedBlocks(index: nat)
    | CallsNotAnswered(index: nat)

  function RoleAt(index: nat): string {
    if index % 2 == 1 then ASSISTANT else USER
  }

  function AnsweredIds(results: seq<ToolResult>): (ids: seq<string>)
    ensures |ids| == |results|
    ensures forall i :: 0 <= i < |ids| ==> ids[i] == results[i].toolUseId
  {
    seq(|results|, i requires 0 <= i < |results| => results[i].toolUseId)
  }

  predicate OnlyResults(content: Content) {
    content.Results? && forall r :: r in content.results ==> r.kind == TOOL_RESULT
  }

  /** Each pending call is answered, once, and nothing else is. */
  predicate AnswersExactly(content: Content, pending: set<Option<string>>) {
    && content.Results?
    && AllDistinct(AnsweredIds(content.results))
    && (set id | id in AnsweredIds(content.results) :: Some(id)) == pending
  }

  function CallsMade(content: Content): set<Option<string>> {
    if content.Blocks? then PendingIds(content.blocks) else {}
  }

  // -- what a conversation should be -----------------------------------------

  ghost predicate OnlyGrows(histories: seq<seq<Message>>) {
    forall i :: 0 <= i < |histories| - 1 ==> histories[i] <= histories[i + 1]
  }

  ghost predicate RolesAlternate(messages: seq<Message>) {
    forall k :: 0 <= k < |messages| ==> messages[k].role == RoleAt(k)
  }

  /** Each message of tool results answers exactly the calls of the message before it. */
  ghost predicate CallsAreAnswered(messages: seq<Message>) {
    forall k :: 0 < k < |messages| && k % 2 == 0 ==>
      OnlyResults(messages[k].content) && AnswersExactly(messages[k].content, CallsMade(messages[k - 1].content))
  }

  ghost predicate Conforms(histories: seq<seq<Message>>) {
    && OnlyGrows(histories)
    && (histories != [] ==>
          RolesAlternate(histories[|histories| - 1]) && CallsAreAnswered(histories[|histories| - 1]))
  }

  /** The calls of the last reply before a message. */
  ghost function PendingBefore(messages: seq<Message>, index: nat): set<Option<string>>
    requires index <= |messages|
  {
    if index == 0 then {}
    else if messages[index - 1].role == "assistant" then CallsMade(messages[index - 1].content)
    else PendingBefore(messages, index - 1)
  }

  /** What is wrong with one message: its role, what it holds, and what it answers, in this order. */
  ghost predicate IsReported(messages: seq<Message>, violation: Violation) {
    match violation
    case HistoryEdited => false
    case WrongRole(k) => k < |messages| && messages[k].role != (if k % 2 == 0 then "user" else "assistant")
    case MixedBlocks(k) =>
      && 0 < k < |messages| && messages[k].role != "assistant"
      && (messages[k].content.Blocks? || messages[k].content.Text?
          || exists r :: r in messages[k].content.results && r.kind != "tool_result")
    case CallsNotAnswered(k) =>
      && 0 < k < |messages| && messages[k].role != "assistant"
      && !AnswersExactly(messages[k].content, PendingBefore(messages, k))
  }

  // -- the monitor -----------------------------------------------------------

  function IndexOf(violation: Violation): int {
    match violation
    case HistoryEdited => -1
    case WrongRole(k) => k
    case MixedBlocks(k) => k
    case CallsNotAnswered(k) => k
  }

  method CheckHistory(messages: seq<Message>) returns (violations: seq<Violation>)
    ensures violations == [] <==> RolesAlternate(messages) && CallsAreAnswered(messages)
    ensures forall v :: v in violations <==> IsReported(messages, v)
  {
    hide IsReported, ReportsBefore, PendingBefore;
    violations := [];
    var pending: set<Option<string>> := {};
    NothingIsReportedYet(messages);
    for index := 0 to |messages|
      invariant violations == [] <==> RolesAlternate(messages[..index]) && CallsAreAnswered(messages[..index])
      invariant ReportsBefore(messages, index, violations)
      invariant pending == PendingBefore(messages, index)
    {
      hide OnlyResults, AnswersExactly, CallsMade, RolesAlternate, CallsAreAnswered;
      ghost var before := violations;
      var message := messages[index];
      if message.role != RoleAt(index) {
        violations := violations + [WrongRole(index)];
      }
      if message.role == ASSISTANT {
        pending := CallsMade(message.content);
      } else if index > 0 {
        if !OnlyResults(message.content) {
          violations := violations + [MixedBlocks(index)];
        }
        if !AnswersExactly(message.content, pending) {
          violations := violations + [CallsNotAnswered(index)];
        }
      }
      assert violations == before + ReportsAt(messages, index);
      ReportsAddUp(messages, index, before);
      OneMoreMessage(messages, index);
      NoReportsIff(messages, index);
      OneMorePending(messages, index);
    }
    assert messages[..|messages|] == messages;
    EveryReportIsIn(messages, violations);
  }

  lemma NothingIsReportedYet(messages: seq<Message>)
    ensures PendingBefore(messages, 0) == {} && ReportsBefore(messages, 0, [])
  {
  }

  lemma OneMorePending(messages: seq<Message>, index: nat)
    requires index < |messages|
    ensures PendingBefore(messages, index + 1) ==
      if messages[index].role == ASSISTANT then CallsMade(messages[index].content) else PendingBefore(messages, index)
  {
  }

  lemma EveryReportIsIn(messages: seq<Message>, violations: seq<Violation>)
    requires ReportsBefore(messages, |messages|, violations)
    ensures forall v :: v in violations <==> IsReported(messages, v)
  {
    assert forall v :: IsReported(messages, v) ==> 0 <= IndexOf(v) < |messages|;
  }

  /** What is reported of one message. */
  ghost function ReportsAt(messages: seq<Message>, index: nat): seq<Violation>
    requires index < |messages|
  {
    var message := messages[index];
    (if message.role != RoleAt(index) then [WrongRole(index)] else [])
    + (if message.role != ASSISTANT && index > 0 && !OnlyResults(message.content) then [MixedBlocks(index)] else [])
    + (if message.role != ASSISTANT && index > 0 && !AnswersExactly(message.content, PendingBefore(messages, index))
       then [CallsNotAnswered(index)] else [])
  }

  ghost predicate ReportsBefore(messages: seq<Message>, index: nat, violations: seq<Violation>) {
    forall v :: v in violations <==> IsReported(messages, v) && IndexOf(v) < index
  }

  lemma ReportsAddUp(messages: seq<Message>, index: nat, before: seq<Violation>)
    requires index < |messages| && ReportsBefore(messages, index, before)
    ensures ReportsBefore(messages, index + 1, before + ReportsAt(messages, index))
  {
    hide AnswersExactly, PendingBefore;
    forall v ensures v in ReportsAt(messages, index) <==> IsReported(messages, v) && IndexOf(v) == index {
    }
  }

  /** As long as roles alternate, a reply stands before every message of results. */
  lemma NoReportsIff(messages: seq<Message>, index: nat)
    requires index < |messages|
    ensures RolesAlternate(messages[..index]) ==>
      (ReportsAt(messages, index) == [] <==>
        && messages[index].role == RoleAt(index)
        && (0 < index && index % 2 == 0 ==>
              && OnlyResults(messages[index].content)
              && AnswersExactly(messages[index].content, CallsMade(messages[index - 1].content))))
  {
    hide AnswersExactly, OnlyResults, CallsMade;
    if RolesAlternate(messages[..index]) && index > 0 {
      assert messages[..index][index - 1].role == RoleAt(index - 1);
    }
  }

  lemma OneMoreMessage(messages: seq<Message>, index: nat)
    requires index < |messages|
    ensures RolesAlternate(messages[..index + 1]) <==>
      RolesAlternate(messages[..index]) && messages[index].role == RoleAt(index)
    ensures CallsAreAnswered(messages[..index + 1]) <==>
      && CallsAreAnswered(messages[..index])
      && (0 < index && index % 2 == 0 ==>
            && OnlyResults(messages[index].content)
            && AnswersExactly(messages[index].content, CallsMade(messages[index - 1].content)))
  {
    var all, earlier := messages[..index + 1], messages[..index];
    assert all == earlier + [messages[index]];
    if CallsAreAnswered(all) {
      forall k | 0 < k < index && k % 2 == 0
        ensures OnlyResults(earlier[k].content) && AnswersExactly(earlier[k].content, CallsMade(earlier[k - 1].content))
      {
        assert all[k] == earlier[k] && all[k - 1] == earlier[k - 1];
      }
    }
  }

  /** Breaches of the protocol across one conversation: none exactly when the conversation conforms. */
  method ProtocolViolations(histories: seq<seq<Message>>) returns (violations: seq<Violation>)
    ensures violations == [] <==> Conforms(histories)
    ensures HistoryEdited in violations <==> !OnlyGrows(histories)
    ensures forall v :: v != HistoryEdited ==>
      (v in violations <==> histories != [] && IsReported(histories[|histories| - 1], v))
  {
    violations := [];
    var i := 1;
    while i < |histories|
      invariant 1 <= i && (i <= |histories| || histories == [])
      invariant violations == [] <==> forall k :: 1 <= k < i && k < |histories| ==> histories[k - 1] <= histories[k]
      invariant forall v :: v in violations ==> v == HistoryEdited
    {
      if !(histories[i - 1] <= histories[i]) {
        violations := violations + [HistoryEdited];
      }
      i := i + 1;
    }
    assert OnlyGrows(histories) <==> violations == [] by {
      if violations == [] {
        forall k | 0 <= k < |histories| - 1 ensures histories[k] <= histories[k + 1] {
          assert histories[(k + 1) - 1] <= histories[k + 1];
        }
      }
      if OnlyGrows(histories) {
        forall k | 1 <= k < |histories| ensures histories[k - 1] <= histories[k] {
          assert histories[k - 1] <= histories[(k - 1) + 1];
        }
      }
    }
    assert violations != [] ==> violations[0] in violations;
    if histories == [] {
      return;
    }
    var found := CheckHistory(histories[|histories| - 1]);
    violations := violations + found;
  }
}
