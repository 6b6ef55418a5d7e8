/**
 * The chat-completion gateway every analyst, the team discussion and the
 * final decision go through (`LLMClient.call_chat`).
 *
 * Each call is recorded as the `Call` it stands for (which analyst, or which
 * step of the discussion); `Orchestrator.Wire` gives the message list,
 * temperature and token limit it puts on the wire. The gateway is an oracle:
 * the reply to the n-th call (counting from 0) is `respond(n, call)`, a text
 * or a raised error, and every call is appended to `log`. Properties proved
 * against it hold for every way a model could answer. Prompt templates are
 * modelled by name together with the values filled into them; their wording
 * is not part of the model.
 */
module Llm {
  import opened Wrappers
  import opened Values
  import opened AnalysisModel

  /** A value passed to `TEMPLATE.format(...)`. */
  datatype Arg =
    | Val(v: Value)
      /** `fetcher(data)` between a fixed heading and note, where `fetcher` formats fetched data for the model. */
    | Fetched(fetcher: string, data: Value)

  /** `TEMPLATE.format(**args)` */
  datatype Prompt = Prompt(template: string, args: map<string, Arg>)

  datatype Content = Plain(text: string) | Filled(prompt: Prompt)

  /** One `{"role": ..., "content": ...}` entry of the message list. */
  datatype ChatMessage = ChatMessage(role: string, content: Content)

  datatype Request = Request(messages: seq<ChatMessage>, temperature: real, maxTokens: nat)

  const DefaultTemperature: real := 0.7
  const DefaultMaxTokens: nat := 2000

  /** The `[system, user]` message pair the analysts and the orchestrator send. */
  function SystemUserRequest(system: string, user: Content, temperature: real, maxTokens: nat): (r: Request)
    ensures |r.messages| == 2 && r.messages[0] == ChatMessage("system", Plain(system))
    ensures r.messages[1] == ChatMessage("user", user)
    ensures r.temperature == temperature && r.maxTokens == maxTokens
  {
    Request([ChatMessage("system", Plain(system)), ChatMessage("user", user)], temperature, maxTokens)
  }

  function StrArg(s: string): Arg { Val(VStr(s)) }

  /** The gateway calls the system makes. */
  datatype Call =
      /** An analyst's `analyze` with its filled template. */
    | AnalystCall(role: AgentRole, prompt: Prompt)
      /** The moderator's discussion over the analysts' summaries. */
    | DiscussionCall(info: StockInfo, agentsText: string)
      /** The decision call, with the discussion and the bundle's indicators. */
    | DecisionCall(info: StockInfo, discussion: string, indicators: Dict)
      /** `_fix_json_format` on a reply that did not parse. */
    | RepairCall(rawOutput: string, errorMessage: string)

  class Gateway {
    const respond: (nat, Call) -> Result<string>
    var log: seq<Call>

    constructor (respond: (nat, Call) -> Result<string>)
      ensures this.respond == respond && log == []
    {
      this.respond := respond;
      log := [];
    }

    /** The reply the next call `c` gets. */
    function Reply(c: Call): Result<string>
      reads this
    {
      respond(|log|, c)
    }

    /** `call_chat`: one call out, one reply (or raised error) back. */
    method Send(c: Call) returns (r: Result<string>)
      modifies this
      ensures log == old(log) + [c]
      ensures r == old(Reply(c))
    {
      r := respond(|log|, c);
      log := log + [c];
    }
  }
}
