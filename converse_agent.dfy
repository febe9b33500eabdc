/**
 * The Bedrock conversation agent: a transcript of messages, a call to the
 * endpoint retried while it is throttled or times out, and a dispatch on the
 * stop reason of each answer (return the text, run the requested tools and
 * answer with their results, ask to continue, or fail).
 *
 * The endpoint is modelled by the finite sequence of answers it will give,
 * consumed in order; the tools by a function from request to outcome.
 */
module ConverseAgent {
  import opened Wrappers
  import opened Strings
  import opened JsonValue

  // ---------------------------------------------------------------- sessions

  datatype Session = RoleAssumption(roleArn: string) | NamedProfile(profile: string)

  const RoleArnPrefix: string := "arn:aws:iam::"

  /** The credentials `__init__` chooses: role assumption for an IAM role ARN, a named profile otherwise. */
  function ChooseSession(profile: string): (s: Session)
    ensures s.RoleAssumption? <==> StartsWith(profile, RoleArnPrefix)
    ensures s.RoleAssumption? ==> s.roleArn == profile
    ensures s.NamedProfile? ==> s.profile == profile
  {
    if profile != "" && StartsWith(profile, RoleArnPrefix) then RoleAssumption(profile) else NamedProfile(profile)
  }

  // ---------------------------------------------------------------- messages

  datatype ContentItem =
    | Text(text: string)
    | Reasoning(reasoning: string)
    | ToolUse(toolUseId: string, name: string, input: Json)
    | ToolResult(result: Json)
    | ToolError(error: string)

  datatype Message = Message(role: string, content: seq<ContentItem>)

  const UserRole: string := "user"
  const ContinuePrompt: string := "Please continue."
  const ToolFailurePrefix: string := "Failed to execute tool: "
  const UnknownToolPrefix: string := "Unknown tool: "
  const UnknownStopPrefix: string := "Unknown stop reason: "
  const TextIsNone: string := "TypeError: expected string or bytes-like object, got 'NoneType'"
  const NoAnswer: string := "the endpoint gave no further answer"
  /** What `json.dumps` raises on content holding an `{'Error': e}` entry, whose `e` is an exception object. */
  const NotSerializable: string := "Object of type ValueError is not JSON serializable"

  /** What one call of the endpoint does: a retryable exception, another exception, or a response. */
  datatype Reply = Throttled | ModelTimeout | Answered(answer: Answer)

  datatype Answer = Raised(error: string) | Completed(message: Message, stopReason: string)

  datatype ToolRequest = ToolRequest(toolUseId: string, name: string, input: Json)

  /** What `execute_tool` does: return a result or raise (a `ValueError` or another exception). */
  datatype ToolOutcome = ToolOk(result: Json) | ToolRaised(isValueError: bool, message: string)

  datatype Config = Config(tags: seq<string>, tools: ToolRequest -> ToolOutcome)

  // ---------------------------------------------------------------- text extraction

  predicate OccursAt(s: string, t: string, i: nat) {
    i + |t| <= |s| && s[i..i + |t|] == t
  }

  /** The first occurrence of `t` in `s` at or after `from`. */
  function FirstOccurrence(s: string, t: string, from: nat): (r: Option<nat>)
    ensures r.Some? ==> from <= r.value && OccursAt(s, t, r.value)
    ensures r.Some? ==> forall k :: from <= k < r.value ==> !OccursAt(s, t, k)
    ensures r.None? ==> forall k :: from <= k ==> !OccursAt(s, t, k)
    decreases |s| + 1 - from
  {
    if from > |s| then None
    else if OccursAt(s, t, from) then Some(from)
    else FirstOccurrence(s, t, from + 1)
  }

  /** An opening tag at `i` that some closing tag follows. */
  predicate Opens(s: string, open: string, close: string, i: nat) {
    OccursAt(s, open, i) && FirstOccurrence(s, close, i + |open|).Some?
  }

  /** The last opening position below `i`. */
  function LastOpening(s: string, open: string, close: string, i: nat): (r: Option<nat>)
    ensures r.Some? ==> r.value < i && Opens(s, open, close, r.value)
    ensures r.Some? ==> forall k :: r.value < k < i ==> !Opens(s, open, close, k)
    ensures r.None? ==> forall k :: 0 <= k < i ==> !Opens(s, open, close, k)
    decreases i
  {
    if i == 0 then None
    else if Opens(s, open, close, i - 1) then Some(i - 1)
    else LastOpening(s, open, close, i - 1)
  }

  /**
   * Where `re.search("(?s).*OPEN(.*?)CLOSE", s)` captures: after the last
   * opening tag that a closing tag follows, up to the first closing tag
   * after it.
   */
  function CaptureSpan(s: string, open: string, close: string): (r: Option<(nat, nat)>)
    ensures r.Some? ==> Opens(s, open, close, r.value.0) && FirstOccurrence(s, close, r.value.0 + |open|) == Some(r.value.1)
  {
    match LastOpening(s, open, close, |s| + 1)
    case None => None
    case Some(i) => Some((i, FirstOccurrence(s, close, i + |open|).value))
  }

  /**
   * The span is the leftmost closing tag after the last opening tag that has
   * one; there is no span exactly when no opening tag is followed by a closing tag.
   */
  lemma CaptureSpanIsLastMatch(s: string, open: string, close: string)
    ensures var r := CaptureSpan(s, open, close);
      r.Some? ==>
        OccursAt(s, open, r.value.0) && r.value.0 + |open| <= r.value.1 && OccursAt(s, close, r.value.1)
        && (forall k :: r.value.0 + |open| <= k < r.value.1 ==> !OccursAt(s, close, k))
        && (forall k, m :: r.value.0 < k && k + |open| <= m && OccursAt(s, open, k) ==> !OccursAt(s, close, m))
    ensures CaptureSpan(s, open, close).None? <==>
      forall k, m :: 0 <= k && k + |open| <= m && OccursAt(s, open, k) ==> !OccursAt(s, close, m)
  {
    var last := LastOpening(s, open, close, |s| + 1);
    forall k: nat, m: nat | (last.None? || last.value < k) && k + |open| <= m && OccursAt(s, open, k)
      ensures !OccursAt(s, close, m)
    {
      if k <= |s| {
        assert !Opens(s, open, close, k);
        assert FirstOccurrence(s, close, k + |open|).None?;
      }
    }
    if last.Some? {
      var i := last.value;
      var j := FirstOccurrence(s, close, i + |open|).value;
      assert OccursAt(s, open, i) && i + |open| <= j && OccursAt(s, close, j);
    }
  }

  /** The text between the tags, when the pattern matches. */
  function Capture(s: string, open: string, close: string): Option<string> {
    match CaptureSpan(s, open, close)
    case None => None
    case Some((i, j)) => Some(s[i + |open|..j])
  }

  /** The position of the first text item. */
  function FirstTextIndex(content: seq<ContentItem>): (r: Option<nat>)
    ensures r.Some? ==> r.value < |content| && content[r.value].Text?
    ensures r.Some? ==> forall k :: 0 <= k < r.value ==> !content[k].Text?
    ensures r.None? ==> forall k :: 0 <= k < |content| ==> !content[k].Text?
  {
    if |content| == 0 then None
    else if content[0].Text? then Some(0)
    else match FirstTextIndex(content[1..])
      case None => None
      case Some(k) => Some(k + 1)
  }

  function FirstText(content: seq<ContentItem>): Option<string> {
    match FirstTextIndex(content)
    case None => None
    case Some(k) => Some(content[k].text)
  }

  /**
   * The answer to an `end_turn` or `stop_sequence` response: the first text,
   * or the part of it between the two output tags when they are configured
   * and match; with tags configured and no text, `re.search` raises.
   */
  function FinalText(tags: seq<string>, content: seq<ContentItem>): Result<Option<string>> {
    var text := FirstText(content);
    if |tags| == 2 then
      if text.None? then Err(TextIsNone)
      else match Capture(text.value, tags[0], tags[1])
        case Some(g) => Ok(Some(g))
        case None => Ok(text)
    else Ok(text)
  }

  // ---------------------------------------------------------------- tools

  /** The tool requests of a response, in order. */
  function ToolRequests(content: seq<ContentItem>): (reqs: seq<ToolRequest>)
    ensures |reqs| <= |content|
  {
    if |content| == 0 then []
    else
      var rest := ToolRequests(content[1..]);
      if content[0].ToolUse? then [ToolRequest(content[0].toolUseId, content[0].name, content[0].input)] + rest
      else rest
  }

  /** A tool outcome that does not abort the turn: a result, or a `ValueError` for an unknown tool. */
  predicate Tolerated(o: ToolOutcome) {
    o.ToolOk? || (o.isValueError && StartsWith(o.message, UnknownToolPrefix))
  }

  function ResultItem(o: ToolOutcome): ContentItem
    requires Tolerated(o)
  {
    if o.ToolOk? then ToolResult(o.result) else ToolError(o.message)
  }

  /**
   * The `tool_response` list of a `tool_use` response, or the message of the
   * first exception that aborts it.
   */
  function ToolResponses(tools: ToolRequest -> ToolOutcome, content: seq<ContentItem>): (r: Result<seq<ContentItem>>)
    ensures r.Ok? <==> forall k :: 0 <= k < |ToolRequests(content)| ==> Tolerated(tools(ToolRequests(content)[k]))
    ensures r.Ok? ==> |r.value| == |ToolRequests(content)|
    ensures r.Ok? ==> forall k :: 0 <= k < |r.value| ==>
      Tolerated(tools(ToolRequests(content)[k])) && r.value[k] == ResultItem(tools(ToolRequests(content)[k]))
  {
    if |content| == 0 then Ok([])
    else
      var rest := ToolResponses(tools, content[1..]);
      if !content[0].ToolUse? then
        assert ToolRequests(content) == ToolRequests(content[1..]);
        rest
      else
        var o := tools(ToolRequest(content[0].toolUseId, content[0].name, content[0].input));
        assert ToolRequests(content) == [ToolRequest(content[0].toolUseId, content[0].name, content[0].input)] + ToolRequests(content[1..]);
        if !Tolerated(o) then
          assert !Tolerated(tools(ToolRequests(content)[0]));
          Err(o.message)
        else match rest
          case Ok(items) => Ok([ResultItem(o)] + items)
          case Err(e) =>
            assert forall k :: 0 <= k < |ToolRequests(content[1..])| ==>
              ToolRequests(content)[k + 1] == ToolRequests(content[1..])[k];
            Err(e)
  }

  /** Content that `json.dumps` cannot serialise: it holds an unknown-tool error entry. */
  predicate HasToolError(content: seq<ContentItem>) {
    exists k :: 0 <= k < |content| && content[k].ToolError?
  }

  function Prepend(acc: seq<ContentItem>, r: Result<seq<ContentItem>>): Result<seq<ContentItem>> {
    if r.Ok? then Ok(acc + r.value) else r
  }

  /** The outcome of the tool requested by a `tool_use` item. */
  function OutcomeOf(tools: ToolRequest -> ToolOutcome, item: ContentItem): ToolOutcome
    requires item.ToolUse?
  {
    tools(ToolRequest(item.toolUseId, item.name, item.input))
  }

  /** After the first `i` items, `acc` holds their responses and the rest of the list gives the others. */
  ghost predicate ToolsRunUpTo(tools: ToolRequest -> ToolOutcome, content: seq<ContentItem>, i: nat, acc: seq<ContentItem>)
    requires i <= |content|
  {
    ToolResponses(tools, content) == Prepend(acc, ToolResponses(tools, content[i..]))
  }

  /** One more item: an aborting tool fixes the result, anything else extends `acc`. */
  lemma ToolsRunStep(tools: ToolRequest -> ToolOutcome, content: seq<ContentItem>, i: nat, acc: seq<ContentItem>)
    requires i < |content| && ToolsRunUpTo(tools, content, i, acc)
    ensures content[i].ToolUse? && !Tolerated(OutcomeOf(tools, content[i])) ==>
      ToolResponses(tools, content) == Err(OutcomeOf(tools, content[i]).message)
    ensures !content[i].ToolUse? ==> ToolsRunUpTo(tools, content, i + 1, acc)
    ensures content[i].ToolUse? && Tolerated(OutcomeOf(tools, content[i])) ==>
      ToolsRunUpTo(tools, content, i + 1, acc + [ResultItem(OutcomeOf(tools, content[i]))])
  {
    var tail := content[i..];
    assert tail[0] == content[i] && tail[1..] == content[i + 1..];
    var rest := ToolResponses(tools, content[i + 1..]);
    if content[i].ToolUse? {
      var o := OutcomeOf(tools, content[i]);
      if Tolerated(o) {
        assert ToolResponses(tools, tail) == Prepend([ResultItem(o)], rest);
        if rest.Ok? {
          assert acc + ([ResultItem(o)] + rest.value) == (acc + [ResultItem(o)]) + rest.value;
        }
      }
    }
  }

  /** The loop over the response's items, on values. */
  method RunEachTool(tools: ToolRequest -> ToolOutcome, content: seq<ContentItem>) returns (r: Result<seq<ContentItem>>)
    ensures r == ToolResponses(tools, content)
  {
    var acc: seq<ContentItem> := [];
    var i := 0;
    assert content[0..] == content;
    if ToolResponses(tools, content).Ok? {
      assert [] + ToolResponses(tools, content).value == ToolResponses(tools, content).value;
    }
    while i < |content|
      invariant 0 <= i <= |content| && ToolsRunUpTo(tools, content, i, acc)
    {
      ToolsRunStep(tools, content, i, acc);
      if content[i].ToolUse? {
        var o := OutcomeOf(tools, content[i]);
        if !Tolerated(o) {
          return Err(o.message);
        }
        acc := acc + [ResultItem(o)];
      }
      i := i + 1;
    }
    assert content[i..] == [];
    assert acc + [] == acc;
    r := Ok(acc);
  }

  // ---------------------------------------------------------------- the conversation as functions

  /** The first answer after any throttling or timeouts, and the replies left after it. */
  function Await(replies: seq<Reply>): (r: Option<(Answer, seq<Reply>)>)
    ensures r.Some? ==> |r.value.1| < |replies|
  {
    if |replies| == 0 then None
    else if replies[0].Answered? then Some((replies[0].answer, replies[1..]))
    else Await(replies[1..])
  }

  /** The transcript, the replies not consumed yet, and what the call returned or raised. */
  datatype Turn = Turn(messages: seq<Message>, replies: seq<Reply>, result: Result<Option<string>>)

  /**
   * `invoke`: log the content (which raises when it cannot be serialised, before
   * anything is sent), append the user message, wait for an answer, handle it.
   */
  function InvokeRun(cfg: Config, msgs: seq<Message>, replies: seq<Reply>, content: seq<ContentItem>): Turn
    decreases |replies|, 1
  {
    if HasToolError(content) then Turn(msgs, replies, Err(NotSerializable))
    else
    var msgs1 := msgs + [Message(UserRole, content)];
    match Await(replies)
    case None => Turn(msgs1, [], Err(NoAnswer))
    case Some((a, rest)) =>
      match a
      case Raised(e) => Turn(msgs1, rest, Err(e))
      case Completed(message, stopReason) => HandleRun(cfg, msgs1, rest, message, stopReason)
  }

  /** `_handle_response`: record the model's message, then dispatch on the stop reason. */
  function HandleRun(cfg: Config, msgs: seq<Message>, replies: seq<Reply>, message: Message, stopReason: string): Turn
    decreases |replies|, 2
  {
    var msgs1 := msgs + [message];
    if stopReason == "end_turn" || stopReason == "stop_sequence" then
      Turn(msgs1, replies, FinalText(cfg.tags, message.content))
    else if stopReason == "tool_use" then
      match ToolResponses(cfg.tools, message.content)
      case Err(e) => Turn(msgs1, replies, Err(ToolFailurePrefix + e))
      case Ok(items) =>
        var t := InvokeRun(cfg, msgs1, replies, items);
        if t.result.Err? then t.(result := Err(ToolFailurePrefix + t.result.error)) else t
    else if stopReason == "max_tokens" then
      var t := InvokeRun(cfg, msgs1, replies, [Text(ContinuePrompt)]);
      if t.result.Err? then t else t.(result := Ok(None))
    else Turn(msgs1, replies, Err(UnknownStopPrefix + stopReason))
  }

  // ---------------------------------------------------------------- the agent

  class Agent {
    const profile: string
    const tags: seq<string>
    const tools: ToolRequest -> ToolOutcome
    /** The conversation so far. */
    var messages: seq<Message>
    /** The answers the endpoint will give, in order. */
    var replies: seq<Reply>

    function Cfg(): Config {
      Config(tags, tools)
    }

    constructor(profile: string, tags: seq<string>, tools: ToolRequest -> ToolOutcome, replies: seq<Reply>)
      ensures this.profile == profile && this.tags == tags && this.tools == tools
      ensures messages == [] && this.replies == replies
    {
      this.profile := profile;
      this.tags := tags;
      this.tools := tools;
      messages := [];
      this.replies := replies;
    }

    function Session(): Session {
      ChooseSession(profile)
    }

    /** `invoke_with_prompt`: the prompt as a single text item. */
    method InvokeWithPrompt(prompt: string) returns (r: Result<Option<string>>)
      modifies this
      ensures Turn(messages, replies, r) == InvokeRun(Cfg(), old(messages), old(replies), [Text(prompt)])
      decreases |replies|, 2
    {
      r := Invoke([Text(prompt)]);
    }

    method Invoke(content: seq<ContentItem>) returns (r: Result<Option<string>>)
      modifies this
      ensures Turn(messages, replies, r) == InvokeRun(Cfg(), old(messages), old(replies), content)
      decreases |replies|, 1
    {
      if HasToolError(content) {
        return Err(NotSerializable);
      }
      messages := messages + [Message(UserRole, content)];
      while |replies| > 0 && !replies[0].Answered?
        invariant Await(replies) == Await(old(replies))
        invariant |replies| <= |old(replies)|
        invariant messages == old(messages) + [Message(UserRole, content)]
        decreases |replies|
      {
        replies := replies[1..];
      }
      if |replies| == 0 {
        return Err(NoAnswer);
      }
      var a := replies[0].answer;
      replies := replies[1..];
      match a
      case Raised(e) =>
        r := Err(e);
      case Completed(message, stopReason) =>
        r := HandleResponse(message, stopReason);
    }

    /** The `for content_item in ...` loop of the `tool_use` branch. */
    method RunTools(content: seq<ContentItem>) returns (r: Result<seq<ContentItem>>)
      ensures r == ToolResponses(tools, content)
    {
      r := RunEachTool(tools, content);
    }

    method HandleResponse(message: Message, stopReason: string) returns (r: Result<Option<string>>)
      modifies this
      ensures Turn(messages, replies, r) == HandleRun(Cfg(), old(messages), old(replies), message, stopReason)
      decreases |replies|, 3
    {
      messages := messages + [message];
      if stopReason == "end_turn" || stopReason == "stop_sequence" {
        r := FinalText(tags, message.content);
      } else if stopReason == "tool_use" {
        var items := RunTools(message.content);
        if items.Err? {
          return Err(ToolFailurePrefix + items.error);
        }
        r := Invoke(items.value);
        if r.Err? {
          r := Err(ToolFailurePrefix + r.error);
        }
      } else if stopReason == "max_tokens" {
        r := InvokeWithPrompt(ContinuePrompt);
        if r.Ok? {
          r := Ok(None);
        }
      } else {
        r := Err(UnknownStopPrefix + stopReason);
      }
    }
  }

  // ---------------------------------------------------------------- properties

  predicate IsPrefix(a: seq<Message>, b: seq<Message>) {
    |a| <= |b| && b[..|a|] == a
  }

  /**
   * Content that cannot be serialised raises before anything is sent or
   * recorded; otherwise the transcript only grows, and a call's first new
   * message is the user message it sent.
   */
  lemma {:induction false} InvokeExtendsTranscript(cfg: Config, msgs: seq<Message>, replies: seq<Reply>, content: seq<ContentItem>)
    ensures HasToolError(content) ==> InvokeRun(cfg, msgs, replies, content) == Turn(msgs, replies, Err(NotSerializable))
    ensures !HasToolError(content) ==> IsPrefix(msgs + [Message(UserRole, content)], InvokeRun(cfg, msgs, replies, content).messages)
    ensures IsPrefix(msgs, InvokeRun(cfg, msgs, replies, content).messages)
    decreases |replies|, 1
  {
    var msgs1 := msgs + [Message(UserRole, content)];
    if HasToolError(content) {
      return;
    }
    match Await(replies)
    case None =>
    case Some((a, rest)) =>
      match a
      case Raised(e) =>
      case Completed(message, stopReason) =>
        HandleExtendsTranscript(cfg, msgs1, rest, message, stopReason);
        assert msgs1 + [message] == msgs + [Message(UserRole, content), message];
  }

  /** Handling a response first records the model's message. */
  lemma {:induction false} HandleExtendsTranscript(cfg: Config, msgs: seq<Message>, replies: seq<Reply>, message: Message, stopReason: string)
    ensures IsPrefix(msgs + [message], HandleRun(cfg, msgs, replies, message, stopReason).messages)
    decreases |replies|, 2
  {
    var msgs1 := msgs + [message];
    var t := HandleRun(cfg, msgs, replies, message, stopReason);
    if stopReason == "end_turn" || stopReason == "stop_sequence" {
    } else if stopReason == "tool_use" {
      match ToolResponses(cfg.tools, message.content)
      case Err(e) =>
      case Ok(items) =>
        InvokeExtendsTranscript(cfg, msgs1, replies, items);
    } else if stopReason == "max_tokens" {
      InvokeExtendsTranscript(cfg, msgs1, replies, [Text(ContinuePrompt)]);
    }
  }

  lemma {:induction false} AwaitSkipsRetries(pre: seq<Reply>, replies: seq<Reply>)
    requires forall k :: 0 <= k < |pre| ==> !pre[k].Answered?
    ensures Await(pre + replies) == Await(replies)
  {
    if |pre| == 0 {
      assert pre + replies == replies;
    } else {
      assert (pre + replies)[0] == pre[0];
      assert (pre + replies)[1..] == pre[1..] + replies;
      AwaitSkipsRetries(pre[1..], replies);
    }
  }

  /**
   * Throttling and model timeouts, however many, are retried without changing
   * the outcome or the transcript; once the endpoint is called they are
   * consumed as well.
   */
  lemma RetriesAreTransparent(cfg: Config, msgs: seq<Message>, pre: seq<Reply>, replies: seq<Reply>, content: seq<ContentItem>)
    requires forall k :: 0 <= k < |pre| ==> pre[k] == Throttled || pre[k] == ModelTimeout
    ensures InvokeRun(cfg, msgs, pre + replies, content).result == InvokeRun(cfg, msgs, replies, content).result
    ensures InvokeRun(cfg, msgs, pre + replies, content).messages == InvokeRun(cfg, msgs, replies, content).messages
    ensures !HasToolError(content) ==> InvokeRun(cfg, msgs, pre + replies, content) == InvokeRun(cfg, msgs, replies, content)
  {
    AwaitSkipsRetries(pre, replies);
  }

  /** Any other exception of the endpoint propagates out of `invoke`. */
  lemma OtherExceptionPropagates(cfg: Config, msgs: seq<Message>, e: string, replies: seq<Reply>, content: seq<ContentItem>)
    ensures !HasToolError(content) ==>
      InvokeRun(cfg, msgs, [Answered(Raised(e))] + replies, content) == Turn(msgs + [Message(UserRole, content)], replies, Err(e))
  {
    assert ([Answered(Raised(e))] + replies)[1..] == replies;
  }

  /** A final answer returns the first text item when no pair of output tags is configured. */
  lemma EndTurnReturnsFirstText(cfg: Config, msgs: seq<Message>, replies: seq<Reply>, message: Message)
    requires |cfg.tags| != 2
    ensures var t := HandleRun(cfg, msgs, replies, message, "end_turn");
      t == Turn(msgs + [message], replies, Ok(FirstText(message.content)))
      && (FirstText(message.content).Some? ==> exists k :: 0 <= k < |message.content| && message.content[k] == Text(FirstText(message.content).value))
  {
    if FirstTextIndex(message.content).Some? {
      var k := FirstTextIndex(message.content).value;
      assert message.content[k] == Text(FirstText(message.content).value);
    }
  }

  /** With output tags configured, the answer is the captured text when the tags match, else the whole text. */
  lemma TaggedAnswer(tags: seq<string>, content: seq<ContentItem>)
    requires |tags| == 2
    ensures FirstText(content).None? ==> FinalText(tags, content).Err?
    ensures FirstText(content).Some? ==>
      var text := FirstText(content).value;
      var span := CaptureSpan(text, tags[0], tags[1]);
      FinalText(tags, content) == Ok(Some(if span.Some? then text[span.value.0 + |tags[0]|..span.value.1] else text))
      && |FinalText(tags, content).value.value| <= |text|
  {
  }

  /**
   * A `tool_use` response whose tools all run sends their results, one per
   * request and in order, as the next user message; a tool that raises
   * anything but "Unknown tool: " aborts with "Failed to execute tool: ", and
   * so does an unknown tool, whose error entry cannot be serialised.
   */
  lemma ToolUseAnswersWithResults(cfg: Config, msgs: seq<Message>, replies: seq<Reply>, message: Message)
    ensures var t := HandleRun(cfg, msgs, replies, message, "tool_use");
      var r := ToolResponses(cfg.tools, message.content);
      (r.Err? ==> t == Turn(msgs + [message], replies, Err(ToolFailurePrefix + r.error)))
      && (r.Ok? && HasToolError(r.value) ==> t == Turn(msgs + [message], replies, Err(ToolFailurePrefix + NotSerializable)))
      && (r.Ok? && !HasToolError(r.value) ==>
                    IsPrefix(msgs + [message, Message(UserRole, r.value)], t.messages)
                    && |r.value| == |ToolRequests(message.content)|
                    && (forall k :: 0 <= k < |r.value| ==> r.value[k] == ToolResult(cfg.tools(ToolRequests(message.content)[k]).result))
                    && (t.result.Err? ==> StartsWith(t.result.error, ToolFailurePrefix)))
  {
    var r := ToolResponses(cfg.tools, message.content);
    if r.Ok? && !HasToolError(r.value) {
      forall k | 0 <= k < |r.value|
        ensures r.value[k] == ToolResult(cfg.tools(ToolRequests(message.content)[k]).result)
      {
        assert !r.value[k].ToolError?;
      }
      InvokeExtendsTranscript(cfg, msgs + [message], replies, r.value);
      assert msgs + [message] + [Message(UserRole, r.value)] == msgs + [message, Message(UserRole, r.value)];
    }
  }

  /**
   * An unknown tool does not stop the loop over the requests: it leaves an
   * error entry in the list. Sending that list then fails, so the turn ends
   * with "Failed to execute tool: " and the serialisation error, after
   * recording only the model's message and without calling the endpoint.
   */
  lemma UnknownToolBecomesErrorEntry(cfg: Config, msgs: seq<Message>, replies: seq<Reply>, message: Message, k: nat)
    requires ToolResponses(cfg.tools, message.content).Ok? && k < |ToolRequests(message.content)|
    requires cfg.tools(ToolRequests(message.content)[k]).ToolRaised?
    ensures StartsWith(cfg.tools(ToolRequests(message.content)[k]).message, UnknownToolPrefix)
    ensures ToolResponses(cfg.tools, message.content).value[k] == ToolError(cfg.tools(ToolRequests(message.content)[k]).message)
    ensures HandleRun(cfg, msgs, replies, message, "tool_use")
      == Turn(msgs + [message], replies, Err(ToolFailurePrefix + NotSerializable))
  {
    var items := ToolResponses(cfg.tools, message.content).value;
    assert items[k].ToolError?;
  }

  /**
   * On `max_tokens` the agent sends "Please continue." and returns nothing,
   * whatever the continuation answered, unless it failed.
   */
  lemma MaxTokensContinues(cfg: Config, msgs: seq<Message>, replies: seq<Reply>, message: Message)
    ensures var t := HandleRun(cfg, msgs, replies, message, "max_tokens");
      IsPrefix(msgs + [message, Message(UserRole, [Text(ContinuePrompt)])], t.messages)
      && (t.result.Ok? ==> t.result.value.None?)
  {
    InvokeExtendsTranscript(cfg, msgs + [message], replies, [Text(ContinuePrompt)]);
    assert msgs + [message] + [Message(UserRole, [Text(ContinuePrompt)])] == msgs + [message, Message(UserRole, [Text(ContinuePrompt)])];
  }

  /** Any other stop reason raises, after recording the message and without calling the endpoint again. */
  lemma UnknownStopReasonRaises(cfg: Config, msgs: seq<Message>, replies: seq<Reply>, message: Message, stopReason: string)
    requires stopReason !in ["end_turn", "stop_sequence", "tool_use", "max_tokens"]
    ensures HandleRun(cfg, msgs, replies, message, stopReason)
      == Turn(msgs + [message], replies, Err(UnknownStopPrefix + stopReason))
  {
  }
}
