/** The two-agent turn loop shared by the batch runner
    (app/views/batch.py) and the live chat (app/views/chat.py): the agents
    take strict turns, each reply becomes the other agent's next input, and
    every turn carries the same seed. `Converse` is the specification both
    loops are proved against. */
module Turns {
  import opened Wrappers
  import opened Text
  import opened Entities

  /** `sender_role` of a stored message. */
  datatype Role = User | Agent1 | Agent2

  function RoleName(r: Role): string
  {
    match r
    case User => "user"
    case Agent1 => "agent1"
    case Agent2 => "agent2"
  }

  /** A stored message; `tokens` is set by the batch runner only. */
  datatype Message = Message(role: Role, agentId: Option<int>, content: string, tokens: Option<int>)

  /** What a turn reads from an agent row and its model row. `connector` is
      what `_connector_for_agent` makes of the model's backend; no turn
      changes the backend, so every turn of the agent gets the same one. */
  datatype AgentConfig = AgentConfig(id: int, systemPrompt: string, maxTokens: int, temperature: real,
                                     modelName: string, connector: Result<ConnectorKind, string>)

  /** The configuration of `agent` as a turn reads it. An agent whose model
      row is gone raises `AttributeError` at `agent.model.backend` in its
      first turn, so its connector is that error's text. */
  function ConfigOf(agent: Agent): (c: AgentConfig)
    reads agent, agent.model
    ensures c.id == agent.id && c.systemPrompt == agent.systemPrompt
    ensures c.maxTokens == agent.maxTokens && c.temperature == agent.temperature
    ensures agent.model != null ==> c.modelName == agent.model.modelName && c.connector == AgentConnector(agent.model.backend)
    ensures agent.model == null ==> c.connector == Err(NoModelRow)
  {
    if agent.model == null then
      AgentConfig(agent.id, agent.systemPrompt, agent.maxTokens, agent.temperature, "", Err(NoModelRow))
    else
      AgentConfig(agent.id, agent.systemPrompt, agent.maxTokens, agent.temperature, agent.model.modelName,
                  AgentConnector(agent.model.backend))
  }

  /** The text of the `AttributeError` raised by `agent.model.backend` when
      the agent's model row is gone. */
  const NoModelRow := "'NoneType' object has no attribute 'backend'"

  /** One `connector.chat(messages, settings)` call: the system prompt and
      the user text, and the settings `model`, `max_tokens`, `temperature`
      and `seed`. */
  datatype ChatRequest = ChatRequest(connector: ConnectorKind, system: string, user: string,
                                     model: string, maxTokens: int, temperature: real, seed: Option<int>)

  /** The connector's answer: the reply text, or the text of the exception
      it raised. */
  type Chat = ChatRequest -> Result<string, string>

  /** `_count_tokens(text)`: the number of whitespace-separated words, but
      at least one. */
  function CountTokens(text: string): (r: nat)
    ensures r >= 1
  {
    var n := WordCount(text);
    if n >= 1 then n else 1
  }

  /** The count is the number of words of `text.split()`, or one for text
      without any word. */
  lemma CountTokensIsWords(text: string)
    ensures |Words(text)| >= 1 ==> CountTokens(text) == |Words(text)|
    ensures |Words(text)| == 0 ==> CountTokens(text) == 1
  {
    WordCountIsWords(text);
  }

  /** Words joined by single spaces count as one token each. */
  lemma CountTokensOfWords(ws: seq<string>)
    requires |ws| >= 1
    requires forall i :: 0 <= i < |ws| ==> ws[i] != [] && NoSpace(ws[i])
    ensures CountTokens(Join(" ", ws)) == |ws|
  {
    CountTokensIsWords(Join(" ", ws));
    WordsOfJoin(ws);
  }

  /** Text without any word still costs one token. */
  lemma CountTokensOfBlank(text: string)
    requires AllSpace(text)
    ensures CountTokens(text) == 1
  {
    CountTokensIsWords(text);
  }

  /** `_connector_for_agent(agent)`: dispatch on the lower-cased backend of
      the agent's model (the engine is not consulted), or the `ValueError`
      text. */
  function AgentConnector(backend: string): Result<ConnectorKind, string>
  {
    var name := Lower(backend);
    if name == "ollama" then Ok(Ollama)
    else if name == "mlx" then Ok(Mlx)
    else if name in {"tensorrt", "tensorrt_llm"} then Ok(TensorRT)
    else Err("Unsupported backend: " + backend)
  }

  /** Each connector is chosen by exactly its backend names, in any case,
      and every other backend is refused with a `ValueError`. */
  lemma AgentConnectorDispatch(backend: string)
    ensures var r := AgentConnector(backend);
      (r == Ok(Ollama) <==> Lower(backend) == "ollama") &&
      (r == Ok(Mlx) <==> Lower(backend) == "mlx") &&
      (r == Ok(TensorRT) <==> Lower(backend) in {"tensorrt", "tensorrt_llm"}) &&
      (r.Err? <==> Lower(backend) !in {"ollama", "mlx", "tensorrt", "tensorrt_llm"}) &&
      (r.Err? ==> r.error == "Unsupported backend: " + backend)
  {
  }

  /** The fixed inputs of a two-agent conversation. */
  datatype Duel = Duel(agent1: AgentConfig, agent2: AgentConfig, seed: Option<int>, prompt: string)

  /** One completed turn. */
  datatype Turn = Turn(sender: Role, agentId: int, request: ChatRequest, reply: string)

  /** The turns that completed, and the error that stopped the loop, if any. */
  datatype Outcome = Outcome(turns: seq<Turn>, failure: Option<string>)

  /** Turn `t` belongs to agent1 when `t` is even. */
  function SenderFor(t: nat): (r: Role)
    ensures r != User
  {
    if t % 2 == 0 then Agent1 else Agent2
  }

  function AgentFor(d: Duel, t: nat): AgentConfig
  {
    if t % 2 == 0 then d.agent1 else d.agent2
  }

  /** The user text of the next turn: the prompt first, then the last reply. */
  function NextInput(d: Duel, turns: seq<Turn>): string
  {
    if turns == [] then d.prompt else turns[|turns| - 1].reply
  }

  /** The request of turn `t` for a given connector and user text. */
  function RequestFor(d: Duel, t: nat, kind: ConnectorKind, text: string): ChatRequest
  {
    var a := AgentFor(d, t);
    ChatRequest(kind, a.systemPrompt, text, a.modelName, a.maxTokens, a.temperature, d.seed)
  }

  /** The turn that follows `turns`, or the error that stops the loop. */
  function NextTurn(d: Duel, chat: Chat, turns: seq<Turn>): Result<Turn, string>
  {
    var t := |turns|;
    var a := AgentFor(d, t);
    match a.connector
    case Err(e) => Err(e)
    case Ok(kind) =>
      var req := RequestFor(d, t, kind, NextInput(d, turns));
      match chat(req)
      case Err(e) => Err(e)
      case Ok(reply) => Ok(Turn(SenderFor(t), a.id, req, reply))
  }

  /** One iteration of the turn loop up to the connector's answer: pick the
      agent of turn `t`, build its connector, and send it the system prompt,
      the current text and the settings. */
  method TakeTurn(d: Duel, chat: Chat, t: nat, currentText: string, ghost turns: seq<Turn>)
    returns (r: Result<Turn, string>)
    requires |turns| == t && currentText == NextInput(d, turns)
    ensures r == NextTurn(d, chat, turns)
  {
    var agent := if t % 2 == 0 then d.agent1 else d.agent2;
    var sender := if t % 2 == 0 then Agent1 else Agent2;
    var connector := agent.connector;
    if connector.Err? {
      return Err(connector.error);
    }
    var request := ChatRequest(connector.value, agent.systemPrompt, currentText, agent.modelName,
                               agent.maxTokens, agent.temperature, d.seed);
    var reply := chat(request);
    if reply.Err? {
      return Err(reply.error);
    }
    return Ok(Turn(sender, agent.id, request, reply.value));
  }

  /** The first `n` turns of the conversation, or the turns before the first
      failure together with that failure. */
  function Converse(d: Duel, chat: Chat, n: nat): (o: Outcome)
    ensures |o.turns| <= n
    ensures o.failure.None? ==> |o.turns| == n
  {
    if n == 0 then Outcome([], None)
    else
      var o := Converse(d, chat, n - 1);
      if o.failure.Some? then o
      else
        match NextTurn(d, chat, o.turns)
        case Err(e) => Outcome(o.turns, Some(e))
        case Ok(t) => Outcome(o.turns + [t], None)
  }

  /** Turn `i` of `ts` is the turn the loop takes at that point: the agents
      alternate, starting with agent1; the input is the prompt or the
      previous reply; the seed is the duel's; and the reply is what the
      connector answered for that request. */
  predicate TurnFits(d: Duel, chat: Chat, ts: seq<Turn>, i: nat)
    requires i < |ts|
  {
    var a := AgentFor(d, i);
    ts[i].sender == SenderFor(i) &&
    ts[i].agentId == a.id &&
    ts[i].request.user == (if i == 0 then d.prompt else ts[i - 1].reply) &&
    ts[i].request.system == a.systemPrompt &&
    ts[i].request.model == a.modelName &&
    ts[i].request.maxTokens == a.maxTokens &&
    ts[i].request.temperature == a.temperature &&
    ts[i].request.seed == d.seed &&
    a.connector == Ok(ts[i].request.connector) &&
    chat(ts[i].request) == Ok(ts[i].reply)
  }

  predicate TurnsFit(d: Duel, chat: Chat, ts: seq<Turn>) {
    forall i :: 0 <= i < |ts| ==> TurnFits(d, chat, ts, i)
  }

  lemma ExtendTurnsFit(d: Duel, chat: Chat, ts: seq<Turn>, t: Turn)
    requires TurnsFit(d, chat, ts)
    requires NextTurn(d, chat, ts) == Ok(t)
    ensures TurnsFit(d, chat, ts + [t])
  {
    var us := ts + [t];
    forall i | 0 <= i < |us|
      ensures TurnFits(d, chat, us, i)
    {
      if i < |ts| {
        assert TurnFits(d, chat, ts, i);
        assert us[i] == ts[i];
        assert i > 0 ==> us[i - 1] == ts[i - 1];
      } else {
        assert us[i] == t;
        assert i > 0 ==> us[i - 1] == ts[|ts| - 1];
      }
    }
  }

  /** Every turn the loop takes fits the duel. */
  lemma {:induction false} ConverseTurns(d: Duel, chat: Chat, n: nat)
    ensures TurnsFit(d, chat, Converse(d, chat, n).turns)
  {
    if n > 0 {
      ConverseTurns(d, chat, n - 1);
      var o := Converse(d, chat, n - 1);
      if o.failure.None? {
        match NextTurn(d, chat, o.turns)
        case Err(_) =>
        case Ok(t) => ExtendTurnsFit(d, chat, o.turns, t);
      }
    }
  }

  /** Running more turns only extends the conversation. */
  lemma {:induction false} ConversePrefix(d: Duel, chat: Chat, m: nat, n: nat)
    requires m <= n
    ensures Converse(d, chat, m).turns <= Converse(d, chat, n).turns
    ensures Converse(d, chat, m).failure.Some? ==> Converse(d, chat, n) == Converse(d, chat, m)
    decreases n
  {
    if m < n {
      ConversePrefix(d, chat, m, n - 1);
    }
  }

  /** When the loop stops early, the stopping error is what the next turn
      produced. */
  lemma {:induction false} ConverseFailure(d: Duel, chat: Chat, n: nat)
    ensures var o := Converse(d, chat, n);
      o.failure.Some? ==> NextTurn(d, chat, o.turns) == Err(o.failure.value)
  {
    if n > 0 {
      ConverseFailure(d, chat, n - 1);
    }
  }

  /** With a connector that never fails, all `n` turns happen. */
  lemma {:induction false} ConverseTotal(d: Duel, chat: Chat, n: nat)
    requires d.agent1.connector.Ok? && d.agent2.connector.Ok?
    requires forall req :: chat(req).Ok?
    ensures Converse(d, chat, n).failure == None
    ensures |Converse(d, chat, n).turns| == n
  {
    if n > 0 {
      ConverseTotal(d, chat, n - 1);
    }
  }

  /** The stored agent messages of the turns, one per turn in order;
      `counted` adds the token count, as the batch runner does. */
  function AgentMessages(turns: seq<Turn>, counted: bool): (ms: seq<Message>)
  {
    seq(|turns|, k requires 0 <= k < |turns| => TurnMessage(turns[k], counted))
  }

  lemma AgentMessagesSnoc(turns: seq<Turn>, t: Turn, counted: bool)
    ensures AgentMessages(turns + [t], counted) == AgentMessages(turns, counted) + [TurnMessage(t, counted)]
  {
  }

  /** The message stored for a turn: its sender, its agent and the reply. */
  function TurnMessage(t: Turn, counted: bool): Message
  {
    Message(t.sender, Some(t.agentId), t.reply, if counted then Some(CountTokens(t.reply)) else None)
  }

  /** The `user` message holding the prompt that opens a conversation. */
  function UserMessage(prompt: string, counted: bool): Message
  {
    Message(User, None, prompt, if counted then Some(CountTokens(prompt)) else None)
  }

  /** Message `k` of a stored transcript belongs to turn `k` of `ts`: senders
      alternate agent1, agent2, ... starting with agent1; the author is the
      agent of that turn; and the message is the connector's reply to the
      previous message (to the prompt for the first), under the duel's
      seed. */
  predicate MessageFits(d: Duel, chat: Chat, ts: seq<Turn>, ms: seq<Message>, k: nat)
    requires k < |ts| == |ms|
  {
    ms[k].role == SenderFor(k) &&
    ms[k].agentId == Some(AgentFor(d, k).id) &&
    ts[k].request.user == (if k == 0 then d.prompt else ms[k - 1].content) &&
    ts[k].request.seed == d.seed &&
    chat(ts[k].request) == Ok(ms[k].content)
  }

  /** Messages stored from turns that fit the duel fit it as well. */
  lemma MessagesOfFittingTurns(d: Duel, chat: Chat, ts: seq<Turn>, counted: bool)
    requires TurnsFit(d, chat, ts)
    ensures forall k :: 0 <= k < |ts| ==> MessageFits(d, chat, ts, AgentMessages(ts, counted), k)
  {
    var ms := AgentMessages(ts, counted);
    forall k | 0 <= k < |ts|
      ensures MessageFits(d, chat, ts, ms, k)
    {
      assert TurnFits(d, chat, ts, k);
      assert ms[k] == TurnMessage(ts[k], counted);
      if k > 0 {
        assert ms[k - 1] == TurnMessage(ts[k - 1], counted);
      }
    }
  }

  /** The stored agent messages of a conversation read back as a transcript
      of its turns. */
  lemma ConversationMessages(d: Duel, chat: Chat, n: nat, counted: bool)
    ensures var ts := Converse(d, chat, n).turns;
      forall k :: 0 <= k < |ts| ==> MessageFits(d, chat, ts, AgentMessages(ts, counted), k)
  {
    ConverseTurns(d, chat, n);
    MessagesOfFittingTurns(d, chat, Converse(d, chat, n).turns, counted);
  }

  lemma ReplyTokensSnoc(turns: seq<Turn>, t: Turn)
    ensures ReplyTokens(turns + [t]) == ReplyTokens(turns) + CountTokens(t.reply)
  {
    assert (turns + [t])[..|turns|] == turns;
  }

  /** The tokens of all replies. */
  function ReplyTokens(turns: seq<Turn>): (r: nat)
    ensures r >= |turns|
  {
    if turns == [] then 0 else ReplyTokens(turns[..|turns| - 1]) + CountTokens(turns[|turns| - 1].reply)
  }

  datatype ConversationStatus = Running | Finished

  /** The columns of a conversation row. */
  datatype ConversationRow = ConversationRow(id: int, agent1: AgentConfig, agent2: AgentConfig, ttl: int,
                                             randomSeed: Option<int>, status: ConversationStatus,
                                             finishedAt: Option<Time>)

  /** What the database holds for a conversation: its row and its
      messages, oldest first. */
  datatype StoredConversation = StoredConversation(row: ConversationRow, messages: seq<Message>)

  /** A conversation row together with its stored messages, oldest first. */
  class Conversation {
    var id: int
    var agent1: AgentConfig
    var agent2: AgentConfig
    var ttl: int
    var randomSeed: Option<int>
    var status: ConversationStatus
    var finishedAt: Option<Time>
    var messages: seq<Message>

    function Row(): ConversationRow
      reads this
    {
      ConversationRow(id, agent1, agent2, ttl, randomSeed, status, finishedAt)
    }

    /** The row and its messages as values. */
    function Stored(): StoredConversation
      reads this
    {
      StoredConversation(Row(), messages)
    }

    /** A new `running` conversation without messages. */
    constructor (id: int, agent1: AgentConfig, agent2: AgentConfig, ttl: int, randomSeed: Option<int>)
      ensures Row() == ConversationRow(id, agent1, agent2, ttl, randomSeed, Running, None)
      ensures messages == []
    {
      this.id := id;
      this.agent1 := agent1;
      this.agent2 := agent2;
      this.ttl := ttl;
      this.randomSeed := randomSeed;
      status := Running;
      finishedAt := None;
      messages := [];
    }

    /** `db.session.add(Message(...))` for this conversation. */
    method AddMessage(m: Message)
      modifies this
      ensures messages == old(messages) + [m]
      ensures Row() == old(Row())
    {
      messages := messages + [m];
    }

    /** `status = "finished"` and `finished_at = now`. */
    method Finish(now: Time)
      modifies this
      ensures Row() == old(Row()).(status := Finished, finishedAt := Some(now))
      ensures messages == old(messages)
    {
      status := Finished;
      finishedAt := Some(now);
    }
  }

  /** What one loop iteration computes, stated against `Converse`: if the
      first `t` turns succeeded with last input `text`, the next turn is
      `NextTurn`, and it extends the outcome. */
  lemma ConverseStep(d: Duel, chat: Chat, t: nat)
    requires Converse(d, chat, t).failure.None?
    ensures var o := Converse(d, chat, t);
      match NextTurn(d, chat, o.turns)
      case Err(e) => Converse(d, chat, t + 1) == Outcome(o.turns, Some(e))
      case Ok(turn) => Converse(d, chat, t + 1) == Outcome(o.turns + [turn], None)
  {
  }
}
