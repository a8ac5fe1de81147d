/**
 * The agents' message and record types (linkedAI/agents/data_models.py): the
 * role-tagged message union, the append-only chat history and its projection to
 * the chat-completion wire format, and the argument and result records of the
 * tool calls.
 */
module ChatModels {
  import opened Wrappers
  import opened SearchConfig

  /** An opaque tool-call payload, a dictionary whose values the history never looks into. */
  type ToolCall = map<string, string>

  /** The union `SystemMessage | UserMessage | AssistantMessage | ToolMessage`, tagged by role. */
  datatype Message =
    | SystemMessage(content: string)
    | UserMessage(content: string)
    | AssistantMessage(content: string, toolCalls: Option<seq<ToolCall>>)
    | ToolMessage(content: string, toolCallId: string, name: Option<string>)

  function Role(m: Message): string {
    match m
    case SystemMessage(_) => "system"
    case UserMessage(_) => "user"
    case AssistantMessage(_, _) => "assistant"
    case ToolMessage(_, _, _) => "tool"
  }

  /** A value of an output dictionary: text, or the list of tool calls. */
  datatype WireValue = Text(text: string) | Calls(calls: seq<ToolCall>)

  /** One message as the chat-completion API receives it. */
  type WireMessage = map<string, WireValue>

  /**
   * What `to_messages` emits for one message: `role` and `content` always; an
   * assistant's `tool_calls` only when the list is present and non-empty; a
   * tool's `tool_call_id` always and its `name` only when present and non-empty.
   */
  function Wire(m: Message): (d: WireMessage)
    ensures "role" in d && d["role"] == Text(Role(m))
    ensures "content" in d && d["content"] == Text(m.content)
    ensures (m.SystemMessage? || m.UserMessage?) ==> d.Keys == {"role", "content"}
    ensures m.AssistantMessage? ==>
      && ("tool_calls" in d <==> m.toolCalls.Some? && |m.toolCalls.value| > 0)
      && ("tool_calls" in d ==> d["tool_calls"] == Calls(m.toolCalls.value))
      && d.Keys <= {"role", "content", "tool_calls"}
    ensures m.ToolMessage? ==>
      && "tool_call_id" in d && d["tool_call_id"] == Text(m.toolCallId)
      && ("name" in d <==> m.name.Some? && m.name.value != "")
      && ("name" in d ==> d["name"] == Text(m.name.value))
      && d.Keys <= {"role", "content", "tool_call_id", "name"}
  {
    match m
    case SystemMessage(c) => map["role" := Text("system"), "content" := Text(c)]
    case UserMessage(c) => map["role" := Text("user"), "content" := Text(c)]
    case AssistantMessage(c, calls) =>
      var d := map["role" := Text("assistant"), "content" := Text(c)];
      if calls.Some? && |calls.value| > 0 then d["tool_calls" := Calls(calls.value)] else d
    case ToolMessage(c, id, name) =>
      var d := map["role" := Text("tool"), "content" := Text(c), "tool_call_id" := Text(id)];
      if name.Some? && name.value != "" then d["name" := Text(name.value)] else d
  }

  /** The message with an empty tool-call list or an empty tool name written as absent, which `to_messages` cannot tell apart. */
  function Canonical(m: Message): Message {
    match m
    case AssistantMessage(c, calls) =>
      AssistantMessage(c, if calls.Some? && |calls.value| > 0 then calls else None)
    case ToolMessage(c, id, name) =>
      ToolMessage(c, id, if name.Some? && name.value != "" then name else None)
    case _ => m
  }

  function TextAt(d: WireMessage, key: string): Option<string> {
    if key in d && d[key].Text? then Some(d[key].text) else None
  }

  /** Reads a wire dictionary back into a message; `None` for a dictionary `to_messages` never emits. */
  function ParseWire(d: WireMessage): Option<Message> {
    match (TextAt(d, "role"), TextAt(d, "content"))
    case (Some(role), Some(c)) =>
      if role == "system" && d.Keys == {"role", "content"} then Some(SystemMessage(c))
      else if role == "user" && d.Keys == {"role", "content"} then Some(UserMessage(c))
      else if role == "assistant" && d.Keys <= {"role", "content", "tool_calls"} then
        if "tool_calls" !in d then Some(AssistantMessage(c, None))
        else if d["tool_calls"].Calls? && |d["tool_calls"].calls| > 0 then Some(AssistantMessage(c, Some(d["tool_calls"].calls)))
        else None
      else if role == "tool" && d.Keys <= {"role", "content", "tool_call_id", "name"} then
        match TextAt(d, "tool_call_id")
        case None => None
        case Some(id) =>
          if "name" !in d then Some(ToolMessage(c, id, None))
          else if d["name"].Text? && d["name"].text != "" then Some(ToolMessage(c, id, Some(d["name"].text)))
          else None
      else None
    case _ => None
  }

  /** `to_messages` keeps every message's role and fields, except that an empty tool-call list or name reads as absent. */
  lemma WireRoundTrip(m: Message)
    ensures ParseWire(Wire(m)) == Some(Canonical(m))
  {
    var d := Wire(m);
    match m
    case SystemMessage(c) =>
    case UserMessage(c) =>
    case AssistantMessage(c, calls) =>
    case ToolMessage(c, id, name) =>
      assert TextAt(d, "tool_call_id") == Some(id);
  }

  /** Two messages give the same dictionary exactly when they agree up to an empty tool-call list or name. */
  lemma WireInjective(m1: Message, m2: Message)
    ensures Wire(m1) == Wire(m2) <==> Canonical(m1) == Canonical(m2)
  {
    WireRoundTrip(m1);
    WireRoundTrip(m2);
    if Canonical(m1) == Canonical(m2) {
      match m1
      case SystemMessage(_) =>
      case UserMessage(_) =>
      case AssistantMessage(_, _) =>
      case ToolMessage(_, _, _) =>
        assert Wire(m1) == Wire(Canonical(m1));
        assert Wire(m2) == Wire(Canonical(m2));
    }
  }

  const ChatAgentSystemPrompt: string :=
    "\nYou are a helpful chatbot which helps a user find and apply for relevant jobs.\n\n"
    + "Your goal is to help the user with any job related questions, resume questions, and also\n"
    + "finding relevant job postings from LinkedIn. \n\n"
    + "You have access to a QueryAgent which can query a database of vectorized job descriptions. Use\n"
    + "the necessary tool call to query the database if the user asks about finding jobs which fit a certain\n"
    + "description.\n"

  /** The ordered message log of one conversation; its methods only ever append to it. */
  class ChatHistory {
    var messages: seq<Message>

    /** `ChatHistory()`: the default history, one system message carrying the chat agent's prompt. */
    constructor ()
      ensures messages == [SystemMessage(ChatAgentSystemPrompt)]
    {
      messages := [SystemMessage(ChatAgentSystemPrompt)];
    }

    /** `ChatHistory(messages=ms)`. */
    constructor FromMessages(ms: seq<Message>)
      ensures messages == ms
    {
      messages := ms;
    }

    /** `to_messages`: one dictionary per message, in history order; the history is left as it was. */
    method ToMessages() returns (output: seq<WireMessage>)
      ensures |output| == |messages|
      ensures forall i :: 0 <= i < |messages| ==> output[i] == Wire(messages[i])
    {
      output := [];
      var i := 0;
      while i < |messages|
        invariant 0 <= i <= |messages|
        invariant |output| == i
        invariant forall k :: 0 <= k < i ==> output[k] == Wire(messages[k])
      {
        var m := messages[i];
        var d: WireMessage;
        if m.AssistantMessage? {
          d := map["role" := Text("assistant"), "content" := Text(m.content)];
          if m.toolCalls.Some? && |m.toolCalls.value| > 0 {
            d := d["tool_calls" := Calls(m.toolCalls.value)];
          }
        } else if m.ToolMessage? {
          d := map["role" := Text("tool"), "content" := Text(m.content), "tool_call_id" := Text(m.toolCallId)];
          if m.name.Some? && m.name.value != "" {
            d := d["name" := Text(m.name.value)];
          }
        } else {
          d := map["role" := Text(Role(m)), "content" := Text(m.content)];
        }
        output := output + [d];
        i := i + 1;
      }
    }

    /** `append_message`: the history grows by the one message, at its end. */
    method AppendMessage(m: Message)
      modifies this
      ensures messages == old(messages) + [m]
    {
      messages := messages + [m];
    }
  }

  /** Arguments of the `search_jobs` tool call. */
  datatype QueryArgs = QueryArgs(query: string, nResults: int)

  /** The postings a vector-store query returns, in relevance order. */
  datatype SearchResults = SearchResults(jobs: seq<JobCard>)

  datatype ResumeMatchArgs = ResumeMatchArgs(jobs: SearchResults)

  /** The resume agent's pick: an index into the posted jobs and the reason for it. */
  datatype ResumeMatchResult = ResumeMatchResult(bestMatchId: int, reasoning: string)

  datatype ResumeTweakArgs = ResumeTweakArgs(jobDescription: string)

  datatype ResumeTweakResult = ResumeTweakResult(suggestions: string)
}
