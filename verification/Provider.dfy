/** What the agent loop exchanges with a model: requests, raw replies, and the strict reply parser. */
module Provider {
  import opened Common
  import opened Pricing

  datatype FailureKind =
    | NotConfigured | PromptBudget | BudgetExhausted | TimedOut | Connection | Authentication | Permission
    | Billing | ModelUnavailable | BadRequest | RequestTooLarge | RateLimited | ServerError | Refusal
    | Truncated | InvalidResponse | Unknown

  /** Operational facts about one request; `usage` is absent when none was reported. */
  datatype Telemetry = Telemetry(usage: Option<TokenUsage>)

  /** What a model raises. A timeout is its own exception class, whatever kind it carries. */
  datatype ModelError =
    | Timeout(kind: FailureKind, telemetry: Option<Telemetry>)
    | Failure(kind: FailureKind, telemetry: Option<Telemetry>)
    | Defect

  // -- requests --------------------------------------------------------------

  /** Tool arguments as the server sees them: absent, the empty object, or something with fields. */
  datatype Arguments = Absent | EmptyObject | Fields(namesARun: bool)

  /** One content block, read defensively: a missing or ill-typed attribute is `None`. */
  datatype Block = Block(
    kind: string, id: Option<string>, name: Option<string>, input: Arguments, text: Option<string>)

  datatype ToolResult = ToolResult(kind: string, toolUseId: string, content: string, isError: bool)

  datatype Content = Text(text: string) | Blocks(blocks: seq<Block>) | Results(results: seq<ToolResult>)

  datatype Message = Message(role: string, content: Content)

  const USER := "user"
  const ASSISTANT := "assistant"
  const TOOL_USE := "tool_use"
  const END_TURN := "end_turn"
  const TOOL_RESULT := "tool_result"
  const TEXT := "text"

  datatype Request = Request(
    systemInstructions: string, tools: string, messages: seq<Message>, offeredClaimIds: seq<string>,
    maxOutputTokens: nat, timeoutSeconds: real)

  // -- replies ---------------------------------------------------------------

  datatype ToolCall = ToolCall(callId: string, name: string, arguments: Arguments)

  /** One parsed turn: tool calls, or a final selection of claim ids. */
  datatype Reply = Reply(
    content: seq<Block>, toolCalls: seq<ToolCall>, claimIds: seq<string>, telemetry: Option<Telemetry>)

  /** A response as the SDK hands it over; nothing about its shape has been validated. */
  datatype RawMessage = RawMessage(stopReason: Option<string>, content: Option<seq<Block>>)

  /** How the text of a finished turn decodes to a list of strings; `None` covers every malformed text. */
  type SelectionDecoder = seq<string> -> Option<seq<string>>

  const MAX_SELECTED_CLAIMS: nat := 64
  const MAX_TOOL_USE_ID: nat := 128

  function StopReasonKind(stopReason: Option<string>): FailureKind {
    match stopReason
    case Some("refusal") => Refusal
    case Some("max_tokens") => Truncated
    case Some("model_context_window_exceeded") => Truncated
    case _ => InvalidResponse
  }

  predicate IsToolUseIdChar(c: char) {
    'a' <= c <= 'z' || 'A' <= c <= 'Z' || '0' <= c <= '9' || c == '_' || c == '-'
  }

  predicate IsToolUseId(id: string) {
    1 <= |id| <= MAX_TOOL_USE_ID && forall c :: c in id ==> IsToolUseIdChar(c)
  }

  function ToolUses(content: seq<Block>): seq<Block> {
    if content == [] then []
    else if content[0].kind == TOOL_USE then [content[0]] + ToolUses(content[1..])
    else ToolUses(content[1..])
  }

  predicate ReadableCall(block: Block) {
    block.id.Some? && IsToolUseId(block.id.value) && block.name.Some?
  }

  function CallsOf(blocks: seq<Block>): (calls: seq<ToolCall>)
    requires forall b :: b in blocks ==> ReadableCall(b)
    ensures |calls| == |blocks|
    ensures forall i :: 0 <= i < |blocks| ==>
      blocks[i].id == Some(calls[i].callId) && blocks[i].name == Some(calls[i].name)
      && calls[i].arguments == blocks[i].input
  {
    assert forall i :: 0 <= i < |blocks| ==> blocks[i] in blocks;
    seq(|blocks|, i requires 0 <= i < |blocks| && ReadableCall(blocks[i]) =>
      ToolCall(blocks[i].id.value, blocks[i].name.value, blocks[i].input))
  }

  function CallIds(calls: seq<ToolCall>): (ids: seq<string>)
    ensures |ids| == |calls|
    ensures forall i :: 0 <= i < |calls| ==> ids[i] == calls[i].callId
  {
    seq(|calls|, i requires 0 <= i < |calls| => calls[i].callId)
  }

  function ParseToolCalls(blocks: seq<Block>): Result<seq<ToolCall>, FailureKind> {
    if exists b :: b in blocks && !ReadableCall(b) then Err(InvalidResponse)
    else if !AllDistinct(CallIds(CallsOf(blocks))) then Err(InvalidResponse)
    else Ok(CallsOf(blocks))
  }

  function TextParts(content: seq<Block>): seq<string> {
    if content == [] then []
    else if content[0].kind == TEXT && content[0].text.Some? && content[0].text.value != ""
    then [content[0].text.value] + TextParts(content[1..])
    else TextParts(content[1..])
  }

  function ParseSelection(content: seq<Block>, decode: SelectionDecoder): Result<seq<string>, FailureKind> {
    match decode(TextParts(content))
    case None => Err(InvalidResponse)
    case Some(ids) => if |ids| <= MAX_SELECTED_CLAIMS && AllDistinct(ids) then Ok(ids) else Err(InvalidResponse)
  }

  /** Reads one response by block type, failing closed on anything unexpected. */
  function ParseAgentMessage(
      message: RawMessage, telemetry: Option<Telemetry>, decode: SelectionDecoder): Result<Reply, FailureKind> {
    if message.stopReason != Some(TOOL_USE) && message.stopReason != Some(END_TURN) then
      Err(StopReasonKind(message.stopReason))
    else if message.content.None? then Err(InvalidResponse)
    else
      var content := message.content.value;
      var blocks := ToolUses(content);
      if message.stopReason == Some(TOOL_USE) then
        if blocks == [] then Err(InvalidResponse)
        else match ParseToolCalls(blocks)
          case Err(kind) => Err(kind)
          case Ok(calls) => Ok(Reply(content, calls, [], telemetry))
      else if blocks != [] then Err(InvalidResponse)
      else match ParseSelection(content, decode)
        case Err(kind) => Err(kind)
        case Ok(ids) => Ok(Reply(content, [], ids, telemetry))
  }

  // -- what a parsed reply guarantees ----------------------------------------

  /** The call ids a turn's content asks to have answered. */
  function PendingIds(content: seq<Block>): set<Option<string>> {
    set b | b in content && b.kind == TOOL_USE :: b.id
  }

  /** The reply shape the loop relies on. */
  ghost predicate WellFormedReply(reply: Reply) {
    && Distinct(CallIds(reply.toolCalls))
    && PendingIds(reply.content) == (set id | id in CallIds(reply.toolCalls) :: Some(id))
    && Distinct(reply.claimIds)
    && |reply.claimIds| <= MAX_SELECTED_CLAIMS
    && (reply.toolCalls == [] || reply.claimIds == [])
  }

  lemma {:induction false} ToolUsesKeepEveryCall(content: seq<Block>)
    ensures forall b :: b in ToolUses(content) <==> b in content && b.kind == TOOL_USE
  {
    if content != [] {
      ToolUsesKeepEveryCall(content[1..]);
      assert content == [content[0]] + content[1..];
    }
  }

  /** Every reply that gets through the parser answers for exactly its own call ids, or for none. */
  lemma ParsedRepliesAreWellFormed(message: RawMessage, telemetry: Option<Telemetry>, decode: SelectionDecoder)
    requires ParseAgentMessage(message, telemetry, decode).Ok?
    ensures
      var reply := ParseAgentMessage(message, telemetry, decode).value;
      && WellFormedReply(reply)
      && message.content == Some(reply.content)
      && reply.telemetry == telemetry
      && (reply.toolCalls != [] <==> message.stopReason == Some(TOOL_USE))
  {
    var reply := ParseAgentMessage(message, telemetry, decode).value;
    var blocks := ToolUses(reply.content);
    ToolUsesKeepEveryCall(reply.content);
    if message.stopReason == Some(TOOL_USE) {
      var ids := CallIds(reply.toolCalls);
      forall id | id in PendingIds(reply.content) ensures id in (set x | x in ids :: Some(x)) {
        var b :| b in reply.content && b.kind == TOOL_USE && b.id == id;
        var k :| 0 <= k < |blocks| && blocks[k] == b;
        assert ids[k] in ids;
      }
      forall x | x in ids ensures Some(x) in PendingIds(reply.content) {
        var k :| 0 <= k < |ids| && ids[k] == x;
        assert blocks[k] in reply.content;
      }
    } else {
      assert forall b :: b in reply.content ==> b.kind != TOOL_USE by {
        forall b | b in reply.content ensures b.kind != TOOL_USE {
          assert b !in blocks;
        }
      }
    }
  }

  /** A tool-use turn is accepted exactly when it has calls, all readable, under distinct ids. */
  lemma ToolTurnsAreAcceptedIff(content: seq<Block>, telemetry: Option<Telemetry>, decode: SelectionDecoder)
    ensures
      var blocks := ToolUses(content);
      ParseAgentMessage(RawMessage(Some(TOOL_USE), Some(content)), telemetry, decode).Ok?
      <==> && blocks != []
           && (forall b :: b in blocks ==> ReadableCall(b))
           && (forall i, j :: 0 <= i < j < |blocks| ==> blocks[i].id != blocks[j].id)
  {
    var blocks := ToolUses(content);
    if forall b :: b in blocks ==> ReadableCall(b) {
      var ids := CallIds(CallsOf(blocks));
      assert forall i :: 0 <= i < |blocks| ==> blocks[i].id == Some(ids[i]);
    }
  }

  // -- exactly which replies are accepted, and as what -----------------------

  /** Reading tool uses and texts goes block by block, in order. */
  lemma {:induction false} BlocksAreReadInOrder(first: seq<Block>, second: seq<Block>)
    ensures ToolUses(first + second) == ToolUses(first) + ToolUses(second)
    ensures TextParts(first + second) == TextParts(first) + TextParts(second)
  {
    if first == [] {
      assert first + second == second;
    } else {
      assert (first + second)[1..] == first[1..] + second;
      BlocksAreReadInOrder(first[1..], second);
    }
  }

  lemma OneBlockIsRead(b: Block)
    ensures ToolUses([b]) == if b.kind == "tool_use" then [b] else []
    ensures TextParts([b]) ==
      if b.kind == "text" && b.text.Some? && b.text.value != "" then [b.text.value] else []
  {
    assert ToolUses([b][1..]) == [] && TextParts([b][1..]) == [];
  }

  /** A call that can be answered: an identifier of up to 128 letters, digits, `_` and `-`, and a name. */
  ghost predicate CanBeAnswered(b: Block) {
    && b.id.Some? && 1 <= |b.id.value| <= 128 && b.name.Some?
    && forall c :: c in b.id.value ==>
         'a' <= c <= 'z' || 'A' <= c <= 'Z' || '0' <= c <= '9' || c == '_' || c == '-'
  }

  /** A final turn is accepted exactly for at most 64 distinct ids and no tool use, and selects exactly those ids. */
  lemma FinalTurnsAreReadExactly(content: seq<Block>, telemetry: Option<Telemetry>, decode: SelectionDecoder)
    ensures var ids := decode(TextParts(content));
      ParseAgentMessage(RawMessage(Some("end_turn"), Some(content)), telemetry, decode) ==
        if (forall b :: b in content ==> b.kind != "tool_use") && ids.Some? && |ids.value| <= 64 && Distinct(ids.value)
        then Ok(Reply(content, [], ids.value, telemetry)) else Err(InvalidResponse)
  {
    ToolUsesKeepEveryCall(content);
    if ToolUses(content) != [] {
      assert ToolUses(content)[0] in ToolUses(content);
    }
  }

  /** A tool turn makes exactly the calls of its tool-use blocks, in their order. */
  lemma ToolTurnsAreReadExactly(content: seq<Block>, telemetry: Option<Telemetry>, decode: SelectionDecoder)
    ensures var result := ParseAgentMessage(RawMessage(Some("tool_use"), Some(content)), telemetry, decode);
      var blocks := ToolUses(content);
      && (result.Ok? <==>
            && blocks != []
            && (forall b :: b in blocks ==> CanBeAnswered(b))
            && (forall i, j :: 0 <= i < j < |blocks| ==> blocks[i].id != blocks[j].id))
      && (result.Err? ==> result.error == InvalidResponse)
      && (result.Ok? ==>
            && result.value.content == content && result.value.claimIds == [] && result.value.telemetry == telemetry
            && |result.value.toolCalls| == |blocks|
            && forall i :: 0 <= i < |blocks| ==>
                 && blocks[i].id == Some(result.value.toolCalls[i].callId)
                 && blocks[i].name == Some(result.value.toolCalls[i].name)
                 && blocks[i].input == result.value.toolCalls[i].arguments)
  {
    ToolTurnsAreAcceptedIff(content, telemetry, decode);
    assert forall b :: CanBeAnswered(b) <==> ReadableCall(b);
  }

  /** Every other message is refused, with the kind that its stop reason stands for. */
  lemma OtherMessagesAreRefused(message: RawMessage, telemetry: Option<Telemetry>, decode: SelectionDecoder)
    requires message.content.None? || (message.stopReason != Some("end_turn") && message.stopReason != Some("tool_use"))
    ensures ParseAgentMessage(message, telemetry, decode) == Err(
      if message.stopReason == Some("refusal") then Refusal
      else if message.stopReason == Some("max_tokens") then Truncated
      else if message.stopReason == Some("model_context_window_exceeded") then Truncated
      else InvalidResponse)
  {
    assert |"end_turn"| == 8 && |"tool_use"| == 8 && |"refusal"| == 7 && |"max_tokens"| == 10;
    assert |"model_context_window_exceeded"| == 29;
  }
}
