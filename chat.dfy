/** The live chat (app/views/chat.py): `start_chat` stores a conversation
    and its opening `user` message, and `_process_chat_task` runs the
    two-agent turn loop, storing each reply and emitting it over the socket
    as it arrives, then emits one end event. What the task writes to the
    database and to the socket is recorded as one sequence of effects, in
    the order they happen. */
module Chat {
  import opened Wrappers
  import opened Text
  import opened PyJson
  import opened Entities
  import opened Turns

  /** A Socket.IO event. */
  datatype Event =
    /** `chat_message`: one turn's reply; `done` on the last turn only. */
    | ChatMessage(conversationId: int, sender: Role, text: string, done: bool)
    /** `chat_end`: the conversation's status and its stored message count. */
    | ChatEnd(conversationId: int, status: ConversationStatus, totalMessages: int)

  /** An observable step of the chat task: a message stored for the
      conversation, or an event emitted to the client. */
  datatype Effect = Stored(m: Message) | Emitted(e: Event)

  /** The two effects of turn `k` out of `n`: its reply is stored, then
      emitted. */
  function TurnEffect(id: int, t: Turn, k: nat, n: nat): seq<Effect>
  {
    [Stored(TurnMessage(t, false)), Emitted(ChatMessage(id, t.sender, t.reply, k + 1 >= n))]
  }

  /** The effects of the turns `ts` of a conversation of `n` turns. */
  function TurnEffects(id: int, ts: seq<Turn>, n: nat): (r: seq<Effect>)
    ensures |r| == 2 * |ts|
  {
    if ts == [] then []
    else TurnEffects(id, ts[..|ts| - 1], n) + TurnEffect(id, ts[|ts| - 1], |ts| - 1, n)
  }

  /** Everything the task does for a conversation of `n` turns whose turn
      loop came out as `o`, when the conversation then holds `total`
      messages: the turns' effects and, when no turn raised, the end event. */
  function ChatEffects(id: int, o: Outcome, n: nat, total: int): seq<Effect>
  {
    TurnEffects(id, o.turns, n) + (if o.failure.None? then [Emitted(ChatEnd(id, Finished, total))] else [])
  }

  /** Effects `2 * k` and `2 * k + 1` belong to turn `k`: its message is
      stored before its event is emitted, and both come before anything of
      turn `k + 1`. */
  lemma {:induction false} TurnEffectsAt(id: int, ts: seq<Turn>, n: nat, k: nat)
    requires k < |ts|
    ensures TurnEffects(id, ts, n)[2 * k] == Stored(TurnMessage(ts[k], false))
    ensures TurnEffects(id, ts, n)[2 * k + 1] == Emitted(ChatMessage(id, ts[k].sender, ts[k].reply, k + 1 >= n))
  {
    var init := ts[..|ts| - 1];
    if k < |ts| - 1 {
      TurnEffectsAt(id, init, n, k);
      assert init[k] == ts[k];
    }
  }

  /** The shape of what the task emits and stores for a conversation whose
      loop has `n` turns: one stored message and one `chat_message` event
      per turn taken, in that order; senders alternate agent1, agent2, ...
      from agent1; only the event of turn `n - 1` is marked done; and when
      every turn succeeds, `n` turns are taken and exactly one `chat_end`
      event closes the sequence. */
  lemma ChatEffectsShape(id: int, d: Duel, chat: Chat, n: nat, total: int)
    ensures var o := Converse(d, chat, n);
      var es := ChatEffects(id, o, n, total);
      (o.failure.None? ==> |es| == 2 * n + 1 && es[2 * n] == Emitted(ChatEnd(id, Finished, total))) &&
      (o.failure.Some? ==> |es| == 2 * |o.turns| < 2 * n) &&
      forall k :: 0 <= k < |o.turns| ==>
        es[2 * k] == Stored(Message(SenderFor(k), Some(AgentFor(d, k).id), o.turns[k].reply, None)) &&
        es[2 * k + 1] == Emitted(ChatMessage(id, SenderFor(k), o.turns[k].reply, k == n - 1))
  {
    var o := Converse(d, chat, n);
    var es := ChatEffects(id, o, n, total);
    ConverseTurns(d, chat, n);
    forall k | 0 <= k < |o.turns|
      ensures es[2 * k] == Stored(Message(SenderFor(k), Some(AgentFor(d, k).id), o.turns[k].reply, None))
      ensures es[2 * k + 1] == Emitted(ChatMessage(id, SenderFor(k), o.turns[k].reply, k == n - 1))
    {
      TurnEffectsAt(id, o.turns, n, k);
      assert TurnFits(d, chat, o.turns, k);
    }
  }

  /** The effects a turn loop leaves, one turn at a time. */
  lemma TurnEffectsSnoc(id: int, ts: seq<Turn>, t: Turn, n: nat)
    ensures TurnEffects(id, ts + [t], n) == TurnEffects(id, ts, n) + TurnEffect(id, t, |ts|, n)
  {
    assert (ts + [t])[..|ts|] == ts;
  }

  /** The loop `for turn in range(ttl)` of `_process_chat_task`: each reply
      is stored, then emitted, and becomes the next input. A connector that
      raises ends the loop; what was stored and emitted stays. */
  method ChatTurns(conv: Conversation, d: Duel, n: nat, chat: Chat) returns (effects: seq<Effect>, failure: Option<string>)
    modifies conv
    ensures failure == Converse(d, chat, n).failure
    ensures conv.messages == old(conv.messages) + AgentMessages(Converse(d, chat, n).turns, false)
    ensures conv.Row() == old(conv.Row())
    ensures effects == TurnEffects(conv.id, Converse(d, chat, n).turns, n)
  {
    var currentText := d.prompt;
    ghost var turns: seq<Turn> := [];
    effects := [];
    failure := None;
    var turnsCompleted := 0;
    while turnsCompleted < n
      invariant 0 <= turnsCompleted <= n
      invariant Converse(d, chat, turnsCompleted) == Outcome(turns, None) && |turns| == turnsCompleted
      invariant currentText == NextInput(d, turns)
      invariant conv.messages == old(conv.messages) + AgentMessages(turns, false)
      invariant conv.Row() == old(conv.Row())
      invariant effects == TurnEffects(conv.id, turns, n)
    {
      ConverseStep(d, chat, turnsCompleted);
      var next := TakeTurn(d, chat, turnsCompleted, currentText, turns);
      if next.Err? {
        failure := Some(next.error);
        ConversePrefix(d, chat, turnsCompleted + 1, n);
        return;
      }
      var turn := next.value;
      var step := StoreAndEmit(conv, turn, turnsCompleted, n);
      effects := effects + step;
      currentText := turn.reply;
      AgentMessagesSnoc(turns, turn, false);
      TurnEffectsSnoc(conv.id, turns, turn, n);
      turns := turns + [turn];
      turnsCompleted := turnsCompleted + 1;
    }
  }

  /** The body of the turn loop after the connector answered: store the
      reply as a message of the conversation, then emit it, marked done
      when it is the reply of the last turn. */
  method StoreAndEmit(conv: Conversation, turn: Turn, turnsCompleted: nat, ttl: nat) returns (step: seq<Effect>)
    modifies conv
    ensures conv.messages == old(conv.messages) + [TurnMessage(turn, false)]
    ensures conv.Row() == old(conv.Row())
    ensures step == TurnEffect(conv.id, turn, turnsCompleted, ttl)
  {
    var message := TurnMessage(turn, false);
    conv.AddMessage(message);
    step := [Stored(message)];
    var isDone := turnsCompleted + 1 >= ttl;
    step := step + [Emitted(ChatMessage(conv.id, turn.sender, turn.reply, isDone))];
  }

  /** The turns a chat task runs for conversation `conv` with task prompt
      `prompt`. */
  function ChatDuel(row: ConversationRow, prompt: string): Duel
  {
    Duel(row.agent1, row.agent2, row.randomSeed, prompt)
  }

  /** `_process_chat_task`: `conv` is `None` for an unknown conversation id,
      which produces nothing. Otherwise `max(1, ttl)` turns are run as
      `Converse` says; their replies are stored and emitted; and when no
      connector raised, the conversation is marked finished at `now` and a
      `chat_end` event reports the number of messages it then holds. */
  method ProcessChatTask(conv: Conversation?, prompt: string, chat: Chat, now: Time)
    returns (effects: seq<Effect>, failure: Option<string>)
    modifies conv
    ensures conv == null ==> effects == [] && failure == None
    ensures conv != null ==>
      var o := Converse(ChatDuel(old(conv.Row()), prompt), chat, AtLeastOne(old(conv.ttl)));
      failure == o.failure &&
      conv.messages == old(conv.messages) + AgentMessages(o.turns, false) &&
      conv.Row() == (if failure.None? then old(conv.Row()).(status := Finished, finishedAt := Some(now)) else old(conv.Row())) &&
      effects == ChatEffects(conv.id, o, AtLeastOne(old(conv.ttl)), |conv.messages|)
  {
    effects := [];
    failure := None;
    if conv == null {
      return;
    }
    var d := Duel(conv.agent1, conv.agent2, conv.randomSeed, prompt);
    var ttl := AtLeastOne(conv.ttl);
    effects, failure := ChatTurns(conv, d, ttl, chat);
    if failure.Some? {
      return;
    }
    conv.Finish(now);
    effects := effects + [Emitted(ChatEnd(conv.id, conv.status, |conv.messages|))];
  }

  /** The fields `start_chat` requires. */
  const ChatFields: seq<string> := ["agent1_id", "agent2_id", "prompt", "ttl", "seed"]

  /** What `start_chat` reads from its payload: the two agents, the ttl,
      the seed and the prompt. */
  datatype ChatStart = ChatStart(agent1: AgentConfig, agent2: AgentConfig, ttl: int, seed: int, prompt: string)

  /** The payload checks of `handle_start_chat`: a missing or falsy payload
      is `{}`; missing fields are a 400 that lists them sorted; the agent ids
      go through `int()` and must name existing agents (`agents` maps an id
      to what the turn loop reads of that agent), else 404; the ttl is
      `max(1, int(...))`, the seed `int(...)` and the prompt `str(...)`. A
      conversion that raises escapes the handler. */
  function StartFields(data: Option<Json>, agents: map<int, AgentConfig>, repr: Json -> string): Result<ChatStart, ApiError>
  {
    var payload := RequestPayload(data);
    match MissingFields(payload, ChatFields)
    case None => Err(Raised)
    case Some(missing) =>
      if missing != [] then Err(Reject(400, MissingMessage(missing)))
      else StartFromFields(payload, agents, repr)
  }

  /** The field rules of `start_chat` once every required key is present:
      the only answer left that is not a raise is the 404. */
  function StartFromFields(payload: Json, agents: map<int, AgentConfig>, repr: Json -> string): (r: Result<ChatStart, ApiError>)
    requires MissingFields(payload, ChatFields) == Some([])
    ensures r.Err? && r.error.Reject? ==> r.error == Reject(404, "agent1_id or agent2_id does not exist")
  {
    match (IntField(payload, "agent1_id"), IntField(payload, "agent2_id"))
    case (Some(a1), Some(a2)) =>
      if a1 !in agents || a2 !in agents then Err(Reject(404, "agent1_id or agent2_id does not exist"))
      else
        var ttl := IntField(payload, "ttl");
        var seed := IntField(payload, "seed");
        if !payload.JObj? || ttl.None? || seed.None? then Err(Raised)
        else
          assert "prompt" in ChatFields && In(payload, "prompt");
          Ok(ChatStart(agents[a1], agents[a2], AtLeastOne(ttl.value), seed.value, Str(payload.fields["prompt"], repr)))
    case _ => Err(Raised)
  }

  /** `start_chat` answers 400 exactly when a required key is absent,
      listing the absent keys in sorted order. */
  lemma StartFieldsMissing(data: Option<Json>, agents: map<int, AgentConfig>, repr: Json -> string)
    ensures var payload := RequestPayload(data);
      var r := StartFields(data, agents, repr);
      (r.Err? && r.error.Reject? && r.error.code == 400 <==>
         SupportsIn(payload) && exists k :: k in ChatFields && !In(payload, k)) &&
      (r.Err? && r.error.Reject? && r.error.code == 400 ==>
         var m := MissingFields(payload, ChatFields).value;
         r.error.message == MissingMessage(m) && Sorted(m) &&
         forall k :: k in m <==> k in ChatFields && !In(payload, k))
  {
    var payload := RequestPayload(data);
    var mf := MissingFields(payload, ChatFields);
    var r := StartFields(data, agents, repr);
    assert r.Err? && r.error.Reject? && r.error.code == 400 <==> mf.Some? && mf.value != [];
    MissingIffAbsent(payload, ChatFields);
  }

  /** A chat `start_chat` accepts names the requested agents, has a ttl of
      at least one and at least what was asked, and the requested seed and
      prompt. */
  lemma StartFieldsAccepted(data: Option<Json>, agents: map<int, AgentConfig>, repr: Json -> string)
    ensures var payload := RequestPayload(data);
      var r := StartFields(data, agents, repr);
      var a1 := IntField(payload, "agent1_id");
      var a2 := IntField(payload, "agent2_id");
      var ttl := IntField(payload, "ttl");
      var prompt := Subscript(payload, "prompt");
      r.Ok? ==>
        a1.Some? && a1.value in agents && r.value.agent1 == agents[a1.value] &&
        a2.Some? && a2.value in agents && r.value.agent2 == agents[a2.value] &&
        ttl.Some? && r.value.ttl >= 1 && r.value.ttl >= ttl.value &&
        Some(r.value.seed) == IntField(payload, "seed") &&
        prompt.Some? && r.value.prompt == Str(prompt.value, repr)
  {
    var payload := RequestPayload(data);
    var r := StartFields(data, agents, repr);
    if r.Ok? {
      var a1 := IntField(payload, "agent1_id");
      var a2 := IntField(payload, "agent2_id");
      assert MissingFields(payload, ChatFields) == Some([]);
      assert a1.Some? && a2.Some? && a1.value in agents && a2.value in agents;
      assert payload.JObj? && "prompt" in ChatFields && In(payload, "prompt");
      assert r.value == ChatStart(agents[a1.value], agents[a2.value], AtLeastOne(IntField(payload, "ttl").value),
        IntField(payload, "seed").value, Str(payload.fields["prompt"], repr));
    }
  }

  /** `handle_start_chat` up to processing: a new running conversation with
      id `id` whose only message is the prompt from `user`. The task the
      handler then runs (inline or through the queue) is `ProcessChatTask`
      on this conversation with the same prompt. */
  method StartChat(id: int, data: Option<Json>, agents: map<int, AgentConfig>, repr: Json -> string)
    returns (r: Result<Conversation, ApiError>)
    ensures StartFields(data, agents, repr).Err? ==> r == Err(StartFields(data, agents, repr).error)
    ensures StartFields(data, agents, repr).Ok? ==>
      var s := StartFields(data, agents, repr).value;
      r.Ok? && fresh(r.value) &&
      r.value.Row() == ConversationRow(id, s.agent1, s.agent2, s.ttl, Some(s.seed), Running, None) &&
      r.value.messages == [UserMessage(s.prompt, false)]
  {
    var fields := StartFields(data, agents, repr);
    if fields.Err? {
      return Err(fields.error);
    }
    var s := fields.value;
    var conv := new Conversation(id, s.agent1, s.agent2, s.ttl, Some(s.seed));
    conv.AddMessage(UserMessage(s.prompt, false));
    return Ok(conv);
  }

  /** A chat started and run to the end with a connector that never fails
      holds the prompt and one message per turn, and its `chat_end` event
      reports exactly that many messages: `max(1, ttl) + 1`. */
  lemma StartedChatTotal(s: ChatStart, id: int, chat: Chat)
    requires s.agent1.connector.Ok? && s.agent2.connector.Ok?
    requires forall req :: chat(req).Ok?
    ensures var o := Converse(Duel(s.agent1, s.agent2, Some(s.seed), s.prompt), chat, AtLeastOne(s.ttl));
      o.failure.None? &&
      |[UserMessage(s.prompt, false)] + AgentMessages(o.turns, false)| == AtLeastOne(s.ttl) + 1
  {
    ConverseTotal(Duel(s.agent1, s.agent2, Some(s.seed), s.prompt), chat, AtLeastOne(s.ttl));
  }
}
