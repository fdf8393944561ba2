/**
 * The language model, which the model does not look inside: an oracle that
 * answers the k-th request it receives with a fixed function of k and the
 * messages sent, and keeps a log of every request. Both the model-level
 * `generate` (one message back) and the agent-level `generate` (a non-empty
 * list of messages back, plus the tool calls the model made while producing
 * it, in order and with their arguments) are oracles of this kind.
 */
module Oracles {
  import opened Wrappers
  import opened Messages

  /** A reply of the agent-level `generate`: never empty, since its callers
      always read one of its messages. */
  type Replies = s: seq<Message> | |s| >= 1 witness [Message("assistant", "", "", None)]

  /** `Model.generate`: one message per request. */
  class ModelOracle {
    const reply: (nat, seq<Message>) -> Message
    /** The requests made so far, in order. */
    var requests: seq<seq<Message>>

    constructor (reply: (nat, seq<Message>) -> Message)
      ensures this.reply == reply && requests == []
    {
      this.reply := reply;
      requests := [];
    }

    method Generate(messages: seq<Message>) returns (m: Message)
      modifies this
      ensures requests == old(requests) + [messages]
      ensures m == reply(|old(requests)|, messages)
    {
      m := reply(|requests|, messages);
      requests := requests + [messages];
    }
  }

  /** The agent-level `generate`: a list of messages per request, and the
      tool calls the model made on the way, which the caller's registered
      tools carry out. */
  class AgentOracle {
    const reply: (nat, seq<Message>) -> Replies
    const toolCalls: (nat, seq<Message>) -> seq<ToolCall>
    var requests: seq<seq<Message>>

    constructor (reply: (nat, seq<Message>) -> Replies, toolCalls: (nat, seq<Message>) -> seq<ToolCall>)
      ensures this.reply == reply && this.toolCalls == toolCalls && requests == []
    {
      this.reply := reply;
      this.toolCalls := toolCalls;
      requests := [];
    }

    method Generate(messages: seq<Message>) returns (r: Replies, calls: seq<ToolCall>)
      modifies this
      ensures requests == old(requests) + [messages]
      ensures r == reply(|old(requests)|, messages) && calls == toolCalls(|old(requests)|, messages)
    {
      r := reply(|requests|, messages);
      calls := toolCalls(|requests|, messages);
      requests := requests + [messages];
    }
  }
}
