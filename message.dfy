/**
 * Conversation records (messages/message.py): a `ToolCall` requested by the
 * model and a `Message` (one turn), with their `to_dict` serialisations.
 */
module Messages {
  import opened Wrappers
  import opened Json

  /** A requested tool invocation; `id` is set by some providers only. */
  datatype ToolCall = ToolCall(name: string, arguments: map<string, Value>, id: Option<string>)

  /** One turn; `toolCalls` is None when the model requested no tool. */
  datatype Message = Message(role: string, content: string, thinking: string, toolCalls: Option<seq<ToolCall>>)

  /** `Message(role, content)` with the dataclass defaults. */
  function NewMessage(role: string, content: string): (m: Message)
    ensures m.role == role && m.content == content
    ensures m.thinking == "" && m.toolCalls == None
  {
    Message(role, content, "", None)
  }

  /** `ToolCall.to_dict` */
  function ToolCallToDict(tc: ToolCall): (d: map<string, Value>)
    ensures "name" in d && "arguments" in d
    ensures "id" in d <==> tc.id.Some?
    ensures d.Keys <= {"name", "arguments", "id"}
  {
    var base := map["name" := Str(tc.name), "arguments" := Obj(tc.arguments)];
    if tc.id.Some? then base["id" := Str(tc.id.value)] else base
  }

  /** Reads a dictionary written by `ToolCallToDict` back. */
  function ToolCallFromDict(d: map<string, Value>): Option<ToolCall> {
    if "name" in d && d["name"].Str? && "arguments" in d && d["arguments"].Obj? then
      if "id" !in d then Some(ToolCall(d["name"].s, d["arguments"].fields, None))
      else if d["id"].Str? then Some(ToolCall(d["name"].s, d["arguments"].fields, Some(d["id"].s)))
      else None
    else None
  }

  /** The serialised tool call carries all of the call: name, arguments and
      the id exactly when there is one. */
  lemma ToolCallRoundTrip(tc: ToolCall)
    ensures ToolCallFromDict(ToolCallToDict(tc)) == Some(tc)
  {
  }

  /** The `tool_calls` entry of `Message.to_dict`: None (null) for a missing
      or empty list, otherwise one dictionary per call, in order. */
  function ToolCallsValue(tcs: Option<seq<ToolCall>>): (v: Value)
    ensures v == Null <==> tcs.None? || tcs.value == []
    ensures v != Null ==> v.Arr? && |v.items| == |tcs.value|
    ensures v != Null ==> forall i :: 0 <= i < |tcs.value| ==> v.items[i] == Obj(ToolCallToDict(tcs.value[i]))
  {
    if tcs.None? || tcs.value == [] then Null
    else Arr(seq(|tcs.value|, i requires 0 <= i < |tcs.value| => Obj(ToolCallToDict(tcs.value[i]))))
  }

  /** `Message.to_dict` */
  function MessageToDict(m: Message): (d: map<string, Value>)
    ensures d.Keys == {"role", "content", "thinking", "tool_calls"}
  {
    map["role" := Str(m.role), "content" := Str(m.content), "thinking" := Str(m.thinking),
        "tool_calls" := ToolCallsValue(m.toolCalls)]
  }

  function ToolCallsFromValues(items: seq<Value>): Option<seq<ToolCall>>
    decreases |items|
  {
    if items == [] then Some([])
    else if items[0].Obj? then
      match (ToolCallFromDict(items[0].fields), ToolCallsFromValues(items[1..]))
      case (Some(tc), Some(rest)) => Some([tc] + rest)
      case _ => None
    else None
  }

  /** Reads a dictionary written by `MessageToDict` back. */
  function MessageFromDict(d: map<string, Value>): Option<Message> {
    if && "role" in d && d["role"].Str?
       && "content" in d && d["content"].Str?
       && "thinking" in d && d["thinking"].Str?
       && "tool_calls" in d
    then
      var tcs := d["tool_calls"];
      if tcs == Null then Some(Message(d["role"].s, d["content"].s, d["thinking"].s, None))
      else if tcs.Arr? && tcs.items != [] then
        match ToolCallsFromValues(tcs.items)
        case Some(calls) => Some(Message(d["role"].s, d["content"].s, d["thinking"].s, Some(calls)))
        case None => None
      else None
    else None
  }

  /** The message with an empty tool-call list replaced by None: the two
      serialise identically. */
  function Normalized(m: Message): Message {
    if m.toolCalls == Some([]) then m.(toolCalls := None) else m
  }

  lemma {:induction false} ToolCallsRoundTrip(tcs: seq<ToolCall>)
    ensures ToolCallsFromValues(seq(|tcs|, i requires 0 <= i < |tcs| => Obj(ToolCallToDict(tcs[i])))) == Some(tcs)
    decreases |tcs|
  {
    var items := seq(|tcs|, i requires 0 <= i < |tcs| => Obj(ToolCallToDict(tcs[i])));
    if tcs != [] {
      ToolCallRoundTrip(tcs[0]);
      assert items[1..] == seq(|tcs[1..]|, i requires 0 <= i < |tcs[1..]| => Obj(ToolCallToDict(tcs[1..][i])));
      ToolCallsRoundTrip(tcs[1..]);
      assert [tcs[0]] + tcs[1..] == tcs;
    }
  }

  /** Serialising a message loses nothing except the difference between an
      empty tool-call list and none at all. */
  lemma MessageRoundTrip(m: Message)
    ensures MessageFromDict(MessageToDict(m)) == Some(Normalized(m))
  {
    if m.toolCalls.Some? && m.toolCalls.value != [] {
      ToolCallsRoundTrip(m.toolCalls.value);
    }
  }
}
