/** Batch jobs (app/views/batch.py): a job runs the same two-agent
    conversation `num_runs` times, run `i` with seed `seed + i`, resuming
    from `completed_runs`, and stops early when a cancellation is seen.

    The `cancel_requested` flag is written by the cancel endpoint from
    another thread and read back by `db.session.refresh` at two checkpoints
    per run: checkpoint `2 * i` before run `i` and `2 * i + 1` after it.
    `obs[c]` is true when a cancellation had been stored by checkpoint `c`;
    a checkpoint past the end of `obs` sees none. The flag is never cleared,
    so a refresh ORs the observation into the flag already held. */
module Batch {
  import opened Wrappers
  import opened Text
  import opened PyJson
  import opened Entities
  import opened Turns

  datatype JobStatus = Queued | Running | Finished | Cancelled

  /** The fields of a job fixed at creation, with the two agents it names. */
  datatype JobConfig = JobConfig(agent1: AgentConfig, agent2: AgentConfig, prompt: string,
                                 ttl: int, numRuns: int, seed: Option<int>)

  /** The fields of a job that processing and cancelling change. */
  datatype JobProgress = JobProgress(status: JobStatus, startTime: Option<Time>, endTime: Option<Time>,
                                     completedRuns: int, totalTokens: Option<int>, cancelRequested: bool)

  /** A `BatchJob` row. */
  class BatchJob {
    const id: int
    const config: JobConfig
    var status: JobStatus
    var startTime: Option<Time>
    var endTime: Option<Time>
    var completedRuns: int
    var totalTokens: Option<int>
    var cancelRequested: bool

    function State(): JobProgress
      reads this
    {
      JobProgress(status, startTime, endTime, completedRuns, totalTokens, cancelRequested)
    }

    /** A new row as `create_batch_job` stores it: `queued`, nothing run. */
    constructor (id: int, config: JobConfig)
      ensures this.id == id && this.config == config
      ensures State() == JobProgress(Queued, None, None, 0, None, false)
    {
      this.id := id;
      this.config := config;
      status := Queued;
      startTime := None;
      endTime := None;
      completedRuns := 0;
      totalTokens := None;
      cancelRequested := false;
    }

    /** Writes the fields that processing and cancelling change. */
    method SetState(p: JobProgress)
      modifies this
      ensures State() == p
    {
      status := p.status;
      startTime := p.startTime;
      endTime := p.endTime;
      completedRuns := p.completedRuns;
      totalTokens := p.totalTokens;
      cancelRequested := p.cancelRequested;
    }
  }

  /** `None if seed is None else seed + i` */
  function RunSeed(seed: Option<int>, i: int): (r: Option<int>)
    ensures r.None? <==> seed.None?
    ensures seed.Some? ==> r == Some(seed.value + i)
  {
    match seed
    case None => None
    case Some(s) => Some(s + i)
  }

  /** Distinct runs of a seeded job get distinct seeds. */
  lemma RunSeedsDiffer(seed: Option<int>, i: int, j: int)
    requires seed.Some? && i != j
    ensures RunSeed(seed, i) != RunSeed(seed, j)
  {
  }

  /** The conversation a job runs with seed `seed`. */
  function DuelFor(cfg: JobConfig, seed: Option<int>): Duel
  {
    Duel(cfg.agent1, cfg.agent2, seed, cfg.prompt)
  }

  /** The turns of a run with seed `seed`, and the error that ended it
      early, if any. */
  function RunOutcome(cfg: JobConfig, chat: Chat, seed: Option<int>): Outcome
  {
    Converse(DuelFor(cfg, seed), chat, AtLeastOne(cfg.ttl))
  }

  /** The token total `_run_single_conversation` returns: the prompt's and
      every reply's. */
  function RunTokens(cfg: JobConfig, chat: Chat, seed: Option<int>): nat
  {
    CountTokens(cfg.prompt) + ReplyTokens(RunOutcome(cfg, chat, seed).turns)
  }

  /** The messages stored for a run: the prompt, then one per turn. */
  function RunMessages(cfg: JobConfig, chat: Chat, seed: Option<int>): seq<Message>
  {
    [UserMessage(cfg.prompt, true)] + AgentMessages(RunOutcome(cfg, chat, seed).turns, true)
  }

  /** What a run with seed `seed` leaves in the database: a conversation
      row with id `id`, finished at `now` unless a connector raised, and
      its messages. */
  function RunRecord(cfg: JobConfig, chat: Chat, id: int, seed: Option<int>, now: Time): StoredConversation
  {
    var done := RunOutcome(cfg, chat, seed).failure.None?;
    StoredConversation(
      ConversationRow(id, cfg.agent1, cfg.agent2, cfg.ttl, seed,
                      if done then ConversationStatus.Finished else ConversationStatus.Running,
                      if done then Some(now) else None),
      RunMessages(cfg, chat, seed))
  }

  /** `_run_single_conversation(batch, run_seed)`: a new conversation holding
      the prompt as a `user` message and then one message per turn, each
      with its token count. On success the conversation is finished and the
      token total is returned; when a connector raises, the conversation is
      left running with the messages stored so far and the error is
      returned. */
  method RunSingleConversation(id: int, cfg: JobConfig, seed: Option<int>, chat: Chat, now: Time)
    returns (conv: Conversation, tokens: nat, failure: Option<string>)
    ensures fresh(conv)
    ensures failure == RunOutcome(cfg, chat, seed).failure
    ensures conv.messages == RunMessages(cfg, chat, seed)
    ensures conv.Row() == ConversationRow(id, cfg.agent1, cfg.agent2, cfg.ttl, seed,
                                          if failure.None? then ConversationStatus.Finished else ConversationStatus.Running,
                                          if failure.None? then Some(now) else None)
    ensures failure.None? ==> tokens == RunTokens(cfg, chat, seed)
    ensures conv.Stored() == RunRecord(cfg, chat, id, seed, now)
  {
    var d := DuelFor(cfg, seed);
    conv := new Conversation(id, cfg.agent1, cfg.agent2, cfg.ttl, seed);
    conv.AddMessage(UserMessage(cfg.prompt, true));
    assert conv.messages == [UserMessage(cfg.prompt, true)];
    tokens, failure := RunTurns(conv, d, AtLeastOne(cfg.ttl), chat, CountTokens(cfg.prompt));
    assert RunOutcome(cfg, chat, seed) == Converse(d, chat, AtLeastOne(cfg.ttl));
    assert RunTokens(cfg, chat, seed) == CountTokens(cfg.prompt) + ReplyTokens(Converse(d, chat, AtLeastOne(cfg.ttl)).turns);
    if failure.None? {
      conv.Finish(now);
    }
  }

  /** The loop `for turn in range(ttl)` of `_run_single_conversation`: each
      reply is stored with its token count and added to the running total. */
  method RunTurns(conv: Conversation, d: Duel, n: nat, chat: Chat, tokens0: nat)
    returns (tokens: nat, failure: Option<string>)
    modifies conv
    ensures failure == Converse(d, chat, n).failure
    ensures conv.messages == old(conv.messages) + AgentMessages(Converse(d, chat, n).turns, true)
    ensures conv.Row() == old(conv.Row())
    ensures failure.None? ==> tokens == tokens0 + ReplyTokens(Converse(d, chat, n).turns)
  {
    var currentText := d.prompt;
    tokens := tokens0;
    ghost var turns: seq<Turn> := [];
    failure := None;
    var t := 0;
    while t < n
      invariant 0 <= t <= n
      invariant Converse(d, chat, t) == Outcome(turns, None) && |turns| == t
      invariant currentText == NextInput(d, turns)
      invariant conv.messages == old(conv.messages) + AgentMessages(turns, true)
      invariant tokens == tokens0 + ReplyTokens(turns)
      invariant conv.Row() == old(conv.Row())
    {
      ConverseStep(d, chat, t);
      var next := TakeTurn(d, chat, t, currentText, turns);
      if next.Err? {
        failure := Some(next.error);
        ConversePrefix(d, chat, t + 1, n);
        return;
      }
      var turn := next.value;
      tokens := tokens + CountTokens(turn.reply);
      conv.AddMessage(TurnMessage(turn, true));
      currentText := turn.reply;
      AgentMessagesSnoc(turns, turn, true);
      ReplyTokensSnoc(turns, turn);
      turns := turns + [turn];
      t := t + 1;
    }
  }

  /** Whether a cancellation had been stored by checkpoint `c`. */
  predicate Observed(obs: seq<bool>, c: int) {
    0 <= c < |obs| && obs[c]
  }

  /** What ends a call of `_process_batch_job`: the job's fields, and the
      error of a run that raised, if one did. */
  datatype RunEnd = RunEnd(job: JobProgress, failure: Option<string>)

  /** How one iteration of the run loop ends: the loop goes on with the
      updated fields, or it stops (a cancellation, or a run that raised). */
  datatype StepEnd = Continue(job: JobProgress) | Stop(end: RunEnd)

  /** Whether iteration `i` starts its run, that is, no cancellation is seen
      at the checkpoint before it. */
  predicate StartsRun(obs: seq<bool>, p: JobProgress, i: int) {
    !p.cancelRequested && !Observed(obs, 2 * i)
  }

  /** The body of the loop for run index `i`. */
  function Step(cfg: JobConfig, chat: Chat, obs: seq<bool>, now: Time, p: JobProgress, i: int): StepEnd
  {
    if !StartsRun(obs, p, i) then Stop(RunEnd(p.(cancelRequested := true, status := Cancelled, endTime := Some(now)), None))
    else
      var seed := RunSeed(cfg.seed, i);
      var o := RunOutcome(cfg, chat, seed);
      if o.failure.Some? then Stop(RunEnd(p, o.failure))
      else StepAfterRun(cfg, obs, now, p, i, RunTokens(cfg, chat, seed))
  }

  /** The end of iteration `i` after its run succeeded with `tokens` tokens. */
  function StepAfterRun(cfg: JobConfig, obs: seq<bool>, now: Time, p: JobProgress, i: int, tokens: nat): StepEnd
  {
    var after := Observed(obs, 2 * i + 1);
    var p2 := p.(cancelRequested := after, completedRuns := i + 1,
                 totalTokens := Some(p.totalTokens.GetOr(0) + tokens));
    if after then Stop(RunEnd(p2.(status := Cancelled, endTime := Some(now)), None))
    else if i + 1 >= cfg.numRuns then Continue(p2.(status := JobStatus.Finished, endTime := Some(now)))
    else Continue(p2)
  }

  /** The loop `for i in range(completed_runs, num_runs)` from index `i` on. */
  function RunFrom(cfg: JobConfig, chat: Chat, obs: seq<bool>, now: Time, p: JobProgress, i: int): RunEnd
    decreases cfg.numRuns - i
  {
    if i >= cfg.numRuns then RunEnd(p, None)
    else
      match Step(cfg, chat, obs, now, p, i)
      case Stop(e) => e
      case Continue(q) => RunFrom(cfg, chat, obs, now, q, i + 1)
  }

  /** `_process_batch_job` on an existing job. */
  function Process(cfg: JobConfig, chat: Chat, obs: seq<bool>, now: Time, p: JobProgress): RunEnd
  {
    if p.status == Cancelled then RunEnd(p, None)
    else
      var started := p.(status := JobStatus.Running, startTime := if p.startTime.Some? then p.startTime else Some(now));
      var e := RunFrom(cfg, chat, obs, now, started, p.completedRuns);
      if e.failure.None? && e.job.status == JobStatus.Running then RunEnd(e.job.(status := JobStatus.Finished, endTime := Some(now)), None)
      else e
  }

  /** How many runs a call starts: those it completes, and the one that
      raised. */
  function RunsStarted(before: JobProgress, e: RunEnd): int
  {
    if before.status == Cancelled then 0
    else e.job.completedRuns - before.completedRuns + (if e.failure.Some? then 1 else 0)
  }

  /** One iteration of the run loop: refresh and test the cancel flag, run
      the conversation with seed `seed + i`, refresh again, record the run
      and its tokens, and test the flag and the run count. `run` is what
      the run stored, or `None` when the run is not started. */
  method RunBatchStep(job: BatchJob, i: int, chat: Chat, obs: seq<bool>, id: int, now: Time)
    returns (run: Option<StoredConversation>, stop: bool, failure: Option<string>)
    modifies job
    ensures var s := Step(job.config, chat, obs, now, old(job.State()), i);
      (stop <==> s.Stop?) &&
      (s.Stop? ==> RunEnd(job.State(), failure) == s.end) &&
      (s.Continue? ==> job.State() == s.job && failure == None)
    ensures run.Some? <==> StartsRun(obs, old(job.State()), i)
    ensures run.Some? ==> run.value == RunRecord(job.config, chat, id, RunSeed(job.config.seed, i), now)
    ensures job.completedRuns == if run.Some? && failure.None? then i + 1 else old(job.completedRuns)
  {
    var cfg := job.config;
    var p := job.State();
    run := None;
    stop := true;
    failure := None;
    if p.cancelRequested || Observed(obs, 2 * i) {
      assert !StartsRun(obs, p, i);
      job.SetState(p.(cancelRequested := true, status := Cancelled, endTime := Some(now)));
      return;
    }
    var seed := RunSeed(cfg.seed, i);
    var conv, runTokens;
    conv, runTokens, failure := RunSingleConversation(id, cfg, seed, chat, now);
    run := Some(conv.Stored());
    if failure.Some? {
      return;
    }
    stop := RecordRun(job, i, runTokens, obs, now);
  }

  /** The part of the loop body after a successful run: refresh the flag,
      count the run and its tokens, and stop on a cancellation or mark the
      job finished after its last run. */
  method RecordRun(job: BatchJob, i: int, runTokens: nat, obs: seq<bool>, now: Time) returns (stop: bool)
    modifies job
    ensures var s := StepAfterRun(job.config, obs, now, old(job.State()), i, runTokens);
      (stop <==> s.Stop?) &&
      (s.Stop? ==> s.end == RunEnd(job.State(), None)) &&
      (s.Continue? ==> job.State() == s.job)
    ensures job.completedRuns == i + 1
  {
    var p := job.State();
    var after := Observed(obs, 2 * i + 1);
    var p2 := p.(cancelRequested := after, completedRuns := i + 1,
                 totalTokens := Some(p.totalTokens.GetOr(0) + runTokens));
    stop := after;
    if after {
      p2 := p2.(status := Cancelled, endTime := Some(now));
    } else if i + 1 >= job.config.numRuns {
      p2 := p2.(status := JobStatus.Finished, endTime := Some(now));
    }
    job.SetState(p2);
  }

  /** What runs `i0`, ..., `i0 + n - 1` store, with ids `firstId`, ...,
      `firstId + n - 1`. */
  function RunRecords(cfg: JobConfig, chat: Chat, firstId: int, i0: int, n: nat, now: Time): (r: seq<StoredConversation>)
    ensures |r| == n
  {
    if n == 0 then []
    else RunRecords(cfg, chat, firstId, i0, n - 1, now) + [RunRecord(cfg, chat, firstId + n - 1, RunSeed(cfg.seed, i0 + n - 1), now)]
  }

  /** Record `k` is run `i0 + k`: id `firstId + k`, seed `seed + i0 + k`,
      and the messages of that run. */
  lemma {:induction false} RunRecordsAt(cfg: JobConfig, chat: Chat, firstId: int, i0: int, n: nat, now: Time, k: nat)
    requires k < n
    ensures var r := RunRecords(cfg, chat, firstId, i0, n, now)[k];
      r.row.id == firstId + k && r.row.randomSeed == RunSeed(cfg.seed, i0 + k) &&
      r.messages == RunMessages(cfg, chat, RunSeed(cfg.seed, i0 + k))
  {
    if k < n - 1 {
      RunRecordsAt(cfg, chat, firstId, i0, n - 1, now, k);
    }
  }

  lemma RunRecordsSnoc(runs: seq<StoredConversation>, x: StoredConversation, cfg: JobConfig, chat: Chat,
                       firstId: int, i0: int, i: int, now: Time)
    requires runs == RunRecords(cfg, chat, firstId, i0, |runs|, now) && i == i0 + |runs|
    requires x == RunRecord(cfg, chat, firstId + |runs|, RunSeed(cfg.seed, i), now)
    ensures runs + [x] == RunRecords(cfg, chat, firstId, i0, |runs| + 1, now)
  {
  }

  /** An iteration that stops ends the loop with its own end. */
  lemma RunFromStop(cfg: JobConfig, chat: Chat, obs: seq<bool>, now: Time, p: JobProgress, i: int)
    requires i < cfg.numRuns && Step(cfg, chat, obs, now, p, i).Stop?
    ensures RunFrom(cfg, chat, obs, now, p, i) == Step(cfg, chat, obs, now, p, i).end
  {
  }

  /** An iteration that goes on hands its fields to the next index. */
  lemma RunFromContinue(cfg: JobConfig, chat: Chat, obs: seq<bool>, now: Time, p: JobProgress, i: int)
    requires i < cfg.numRuns && Step(cfg, chat, obs, now, p, i).Continue?
    ensures RunFrom(cfg, chat, obs, now, p, i) == RunFrom(cfg, chat, obs, now, Step(cfg, chat, obs, now, p, i).job, i + 1)
  {
  }

  /** `Process` on a job that is not cancelled: mark it running, run the
      loop, and mark it finished if the loop left it running. */
  lemma ProcessUnfold(cfg: JobConfig, chat: Chat, obs: seq<bool>, now: Time, p: JobProgress, started: JobProgress, e: RunEnd)
    requires p.status != Cancelled
    requires started == p.(status := JobStatus.Running, startTime := if p.startTime.Some? then p.startTime else Some(now))
    requires e == RunFrom(cfg, chat, obs, now, started, p.completedRuns)
    ensures Process(cfg, chat, obs, now, p) ==
      if e.failure.None? && e.job.status == JobStatus.Running then RunEnd(e.job.(status := JobStatus.Finished, endTime := Some(now)), None)
      else e
  {
  }

  /** `_process_batch_job`: `job` is `None` when the row is missing. The runs
      are given ids `firstId`, `firstId + 1`, ... ; `runs` is what they
      store. */
  method ProcessBatchJob(job: BatchJob?, chat: Chat, obs: seq<bool>, firstId: int, now: Time)
    returns (runs: seq<StoredConversation>, failure: Option<string>)
    modifies job
    ensures job == null ==> runs == [] && failure == None
    ensures job != null ==> RunEnd(job.State(), failure) == Process(job.config, chat, obs, now, old(job.State()))
    ensures job != null ==> |runs| == RunsStarted(old(job.State()), RunEnd(job.State(), failure))
    ensures job != null ==> runs == RunRecords(job.config, chat, firstId, old(job.completedRuns), |runs|, now)
  {
    runs := [];
    failure := None;
    if job == null || job.status == Cancelled {
      return;
    }
    ghost var initial := job.State();
    job.status := JobStatus.Running;
    if job.startTime.None? {
      job.startTime := Some(now);
    }
    ghost var started := job.State();
    runs, failure := RunLoop(job, chat, obs, firstId, now);
    ProcessUnfold(job.config, chat, obs, now, initial, started, RunEnd(job.State(), failure));
    if failure.None? && job.status == JobStatus.Running {
      job.status := JobStatus.Finished;
      job.endTime := Some(now);
    }
  }

  /** The loop `for i in range(completed_runs, num_runs)` of
      `_process_batch_job` on a running job. */
  method RunLoop(job: BatchJob, chat: Chat, obs: seq<bool>, firstId: int, now: Time)
    returns (runs: seq<StoredConversation>, failure: Option<string>)
    modifies job
    requires job.status == JobStatus.Running
    ensures RunEnd(job.State(), failure) == RunFrom(job.config, chat, obs, now, old(job.State()), old(job.completedRuns))
    ensures |runs| == job.completedRuns - old(job.completedRuns) + (if failure.Some? then 1 else 0)
    ensures runs == RunRecords(job.config, chat, firstId, old(job.completedRuns), |runs|, now)
  {
    runs := [];
    failure := None;
    var cfg := job.config;
    var i0 := job.completedRuns;
    ghost var target := RunFrom(cfg, chat, obs, now, job.State(), i0);
    var i := i0;
    while i < cfg.numRuns
      invariant i0 <= i && job.completedRuns == i
      invariant job.status == JobStatus.Running || (job.status == JobStatus.Finished && i >= cfg.numRuns)
      invariant RunFrom(cfg, chat, obs, now, job.State(), i) == target
      invariant |runs| == i - i0
      invariant runs == RunRecords(cfg, chat, firstId, i0, |runs|, now)
    {
      ghost var before := job.State();
      var run, stop, runFailure := RunBatchStep(job, i, chat, obs, firstId + |runs|, now);
      if run.Some? {
        RunRecordsSnoc(runs, run.value, cfg, chat, firstId, i0, i, now);
        runs := runs + [run.value];
      }
      if stop {
        RunFromStop(cfg, chat, obs, now, before, i);
        failure := runFailure;
        return;
      }
      RunFromContinue(cfg, chat, obs, now, before, i);
      i := i + 1;
    }
  }

  /** The first checkpoint in `[c, end)` at which a cancellation is seen. */
  function FirstCancel(obs: seq<bool>, c: int, end: int): Option<int>
    decreases end - c
  {
    if c >= end then None
    else if Observed(obs, c) then Some(c)
    else FirstCancel(obs, c + 1, end)
  }

  /** `FirstCancel` finds the earliest checkpoint in range that sees a
      cancellation, and finds none exactly when no checkpoint in range does. */
  lemma {:induction false} FirstCancelIsFirst(obs: seq<bool>, c: int, end: int)
    ensures var r := FirstCancel(obs, c, end);
      (r.Some? ==> c <= r.value < end && Observed(obs, r.value) &&
                   forall k :: c <= k < r.value ==> !Observed(obs, k)) &&
      (r.None? <==> forall k :: c <= k < end ==> !Observed(obs, k))
    decreases end - c
  {
    if c < end && !Observed(obs, c) {
      FirstCancelIsFirst(obs, c + 1, end);
    }
  }

  /** Every run from index `i` up to the last one succeeds. */
  predicate RunsSucceed(cfg: JobConfig, chat: Chat, i: int) {
    forall j :: i <= j < cfg.numRuns ==> RunOutcome(cfg, chat, RunSeed(cfg.seed, j)).failure.None?
  }

  /** How the run loop from index `i` ends, on a running job whose runs all
      succeed: the first checkpoint that sees a cancellation decides the end.
      One before run `k` (checkpoint `2 * k`) stops the job with `k` runs
      counted, so run `k` is not executed; one right after run `k`
      (checkpoint `2 * k + 1`) still counts that run. Without one, the last
      run marks the job finished with every run counted. */
  predicate CancelPointEnd(cfg: JobConfig, now: Time, p: JobProgress, i: int, fc: Option<int>, e: RunEnd) {
    e.failure.None? && e.job.startTime == p.startTime &&
    (fc.None? && i < cfg.numRuns ==>
       e.job.status == JobStatus.Finished && e.job.endTime == Some(now) &&
       e.job.completedRuns == cfg.numRuns && !e.job.cancelRequested) &&
    (i >= cfg.numRuns ==> e.job == p) &&
    (fc.Some? ==>
       e.job.status == Cancelled && e.job.endTime == Some(now) && e.job.cancelRequested &&
       e.job.completedRuns == (fc.value + 1) / 2)
  }

  /** The run loop from index `i` on a running job whose runs all succeed
      ends as `CancelPointEnd` describes. */
  lemma {:induction false} RunFromCancelPoint(cfg: JobConfig, chat: Chat, obs: seq<bool>, now: Time, p: JobProgress, i: int)
    requires p.completedRuns == i && p.status == JobStatus.Running && !p.cancelRequested
    requires RunsSucceed(cfg, chat, i)
    ensures CancelPointEnd(cfg, now, p, i, FirstCancel(obs, 2 * i, 2 * cfg.numRuns), RunFrom(cfg, chat, obs, now, p, i))
    decreases cfg.numRuns - i, 1
  {
    if i < cfg.numRuns {
      if Observed(obs, 2 * i) {
        CancelPointBefore(cfg, chat, obs, now, p, i);
      } else if Observed(obs, 2 * i + 1) {
        CancelPointAfter(cfg, chat, obs, now, p, i);
      } else {
        CancelPointNext(cfg, chat, obs, now, p, i);
      }
    }
  }

  /** A cancellation seen before run `i` is the first one from there. */
  lemma CancelPointBefore(cfg: JobConfig, chat: Chat, obs: seq<bool>, now: Time, p: JobProgress, i: int)
    requires p.completedRuns == i && p.status == JobStatus.Running && !p.cancelRequested
    requires i < cfg.numRuns && Observed(obs, 2 * i)
    ensures CancelPointEnd(cfg, now, p, i, FirstCancel(obs, 2 * i, 2 * cfg.numRuns), RunFrom(cfg, chat, obs, now, p, i))
  {
    assert FirstCancel(obs, 2 * i, 2 * cfg.numRuns) == Some(2 * i);
    RunFromCancelBefore(cfg, chat, obs, now, p, i);
  }

  /** A cancellation seen right after a successful run `i` is the first one
      from there when none was seen before it. */
  lemma CancelPointAfter(cfg: JobConfig, chat: Chat, obs: seq<bool>, now: Time, p: JobProgress, i: int)
    requires p.completedRuns == i && p.status == JobStatus.Running && !p.cancelRequested
    requires i < cfg.numRuns && !Observed(obs, 2 * i) && Observed(obs, 2 * i + 1)
    requires RunOutcome(cfg, chat, RunSeed(cfg.seed, i)).failure.None?
    ensures CancelPointEnd(cfg, now, p, i, FirstCancel(obs, 2 * i, 2 * cfg.numRuns), RunFrom(cfg, chat, obs, now, p, i))
  {
    assert FirstCancel(obs, 2 * i, 2 * cfg.numRuns) == Some(2 * i + 1);
    RunFromCancelAfter(cfg, chat, obs, now, p, i);
  }

  /** A run with no cancellation seen around it passes the outcome of the
      rest of the loop through. */
  lemma {:induction false} CancelPointNext(cfg: JobConfig, chat: Chat, obs: seq<bool>, now: Time, p: JobProgress, i: int)
    requires p.completedRuns == i && p.status == JobStatus.Running && !p.cancelRequested
    requires i < cfg.numRuns && !Observed(obs, 2 * i) && !Observed(obs, 2 * i + 1)
    requires RunsSucceed(cfg, chat, i)
    ensures CancelPointEnd(cfg, now, p, i, FirstCancel(obs, 2 * i, 2 * cfg.numRuns), RunFrom(cfg, chat, obs, now, p, i))
    decreases cfg.numRuns - i, 0
  {
    var q := RunFromNoCancel(cfg, chat, obs, now, p, i);
    if i + 1 < cfg.numRuns {
      RunFromCancelPoint(cfg, chat, obs, now, q, i + 1);
    }
    CancelPointJoin(cfg, chat, obs, now, p, q, i);
  }

  /** The step of `CancelPointNext` from the run after `i` back to `i`. */
  lemma CancelPointJoin(cfg: JobConfig, chat: Chat, obs: seq<bool>, now: Time, p: JobProgress, q: JobProgress, i: int)
    requires i < cfg.numRuns && !Observed(obs, 2 * i) && !Observed(obs, 2 * i + 1)
    requires RunFrom(cfg, chat, obs, now, p, i) == RunFrom(cfg, chat, obs, now, q, i + 1)
    requires q.completedRuns == i + 1 && !q.cancelRequested && q.startTime == p.startTime
    requires q.status == (if i + 1 >= cfg.numRuns then JobStatus.Finished else p.status)
    requires i + 1 >= cfg.numRuns ==> q.endTime == Some(now)
    requires i + 1 < cfg.numRuns ==>
      CancelPointEnd(cfg, now, q, i + 1, FirstCancel(obs, 2 * i + 2, 2 * cfg.numRuns), RunFrom(cfg, chat, obs, now, q, i + 1))
    ensures CancelPointEnd(cfg, now, p, i, FirstCancel(obs, 2 * i, 2 * cfg.numRuns), RunFrom(cfg, chat, obs, now, p, i))
  {
    assert FirstCancel(obs, 2 * i, 2 * cfg.numRuns) == FirstCancel(obs, 2 * i + 1, 2 * cfg.numRuns)
      == FirstCancel(obs, 2 * i + 2, 2 * cfg.numRuns);
    if i + 1 >= cfg.numRuns {
      assert RunFrom(cfg, chat, obs, now, q, i + 1) == RunEnd(q, None);
    }
  }

  /** A cancellation seen before run `i` stops the loop there: the run is
      not executed and not counted. */
  lemma RunFromCancelBefore(cfg: JobConfig, chat: Chat, obs: seq<bool>, now: Time, p: JobProgress, i: int)
    requires i < cfg.numRuns && Observed(obs, 2 * i)
    ensures RunFrom(cfg, chat, obs, now, p, i) ==
      RunEnd(p.(cancelRequested := true, status := Cancelled, endTime := Some(now)), None)
  {
  }

  /** A cancellation seen right after a successful run `i` still counts that
      run, then stops the loop. */
  lemma RunFromCancelAfter(cfg: JobConfig, chat: Chat, obs: seq<bool>, now: Time, p: JobProgress, i: int)
    requires i < cfg.numRuns && StartsRun(obs, p, i) && Observed(obs, 2 * i + 1)
    requires RunOutcome(cfg, chat, RunSeed(cfg.seed, i)).failure.None?
    ensures var e := RunFrom(cfg, chat, obs, now, p, i);
      e.failure.None? && e.job.status == Cancelled && e.job.endTime == Some(now) && e.job.cancelRequested &&
      e.job.completedRuns == i + 1 && e.job.startTime == p.startTime
  {
    var tokens := RunTokens(cfg, chat, RunSeed(cfg.seed, i));
    assert Step(cfg, chat, obs, now, p, i) == StepAfterRun(cfg, obs, now, p, i, tokens);
  }

  /** A successful run `i` with no cancellation seen around it is counted,
      and the loop goes on from the next index; after the last run the job
      is marked finished. */
  lemma RunFromNoCancel(cfg: JobConfig, chat: Chat, obs: seq<bool>, now: Time, p: JobProgress, i: int)
    returns (q: JobProgress)
    requires i < cfg.numRuns && StartsRun(obs, p, i) && !Observed(obs, 2 * i + 1)
    requires RunOutcome(cfg, chat, RunSeed(cfg.seed, i)).failure.None?
    ensures RunFrom(cfg, chat, obs, now, p, i) == RunFrom(cfg, chat, obs, now, q, i + 1)
    ensures q.completedRuns == i + 1 && !q.cancelRequested && q.startTime == p.startTime
    ensures q.status == (if i + 1 >= cfg.numRuns then JobStatus.Finished else p.status)
    ensures i + 1 >= cfg.numRuns ==> q.endTime == Some(now)
  {
    var tokens := RunTokens(cfg, chat, RunSeed(cfg.seed, i));
    q := StepAfterRun(cfg, obs, now, p, i, tokens).job;
    assert Step(cfg, chat, obs, now, p, i) == Continue(q);
  }

  /** `_process_batch_job` on a job that is not cancelled and has no
      cancellation pending, when no run raises. The job is resumed from
      `completed_runs`; it ends finished with `completed_runs == num_runs`
      (a job already at `num_runs` runs nothing) unless a checkpoint sees a
      cancellation, and then it ends cancelled with the runs before that
      checkpoint counted. Either way `start_time` is kept if it was set and
      every run counted is a run this call started. */
  lemma ProcessCancelPoint(cfg: JobConfig, chat: Chat, obs: seq<bool>, now: Time, p: JobProgress)
    requires p.status != Cancelled && !p.cancelRequested
    requires RunsSucceed(cfg, chat, p.completedRuns)
    ensures var e := Process(cfg, chat, obs, now, p);
      var fc := FirstCancel(obs, 2 * p.completedRuns, 2 * cfg.numRuns);
      e.failure.None? &&
      e.job.startTime == (if p.startTime.Some? then p.startTime else Some(now)) &&
      RunsStarted(p, e) == e.job.completedRuns - p.completedRuns &&
      (fc.None? ==>
         e.job.status == JobStatus.Finished && e.job.endTime == Some(now) &&
         e.job.completedRuns == (if p.completedRuns < cfg.numRuns then cfg.numRuns else p.completedRuns)) &&
      (fc.Some? ==>
         e.job.status == Cancelled && e.job.endTime == Some(now) &&
         e.job.completedRuns == (fc.value + 1) / 2)
  {
    var started := p.(status := JobStatus.Running, startTime := if p.startTime.Some? then p.startTime else Some(now));
    RunFromCancelPoint(cfg, chat, obs, now, started, p.completedRuns);
  }

  /** The run loop never lowers `completed_runs`, never takes it past
      `num_runs`, keeps `start_time`, and leaves the job running, finished
      or cancelled, whether or not a run raises. */
  lemma {:induction false} RunFromBounds(cfg: JobConfig, chat: Chat, obs: seq<bool>, now: Time, p: JobProgress, i: int)
    requires p.completedRuns == i && p.status == JobStatus.Running
    ensures var e := RunFrom(cfg, chat, obs, now, p, i);
      i <= e.job.completedRuns <= (if i < cfg.numRuns then cfg.numRuns else i) &&
      e.job.startTime == p.startTime &&
      e.job.status != Queued &&
      (e.failure.Some? ==> e.job.status == JobStatus.Running)
    decreases cfg.numRuns - i
  {
    if i < cfg.numRuns {
      match Step(cfg, chat, obs, now, p, i)
      case Stop(_) =>
      case Continue(q) =>
        if i + 1 < cfg.numRuns {
          RunFromBounds(cfg, chat, obs, now, q, i + 1);
        }
    }
  }

  /** Progress is monotone and bounded for every call of
      `_process_batch_job`: `completed_runs` never decreases and never
      passes `num_runs` (when it started within it), `start_time` is kept
      if set, and a call that returns without an error leaves the job
      finished or cancelled. A cancelled job is left as it is. */
  lemma ProcessProgress(cfg: JobConfig, chat: Chat, obs: seq<bool>, now: Time, p: JobProgress)
    ensures var e := Process(cfg, chat, obs, now, p);
      p.completedRuns <= e.job.completedRuns &&
      (p.completedRuns <= cfg.numRuns ==> e.job.completedRuns <= cfg.numRuns) &&
      (p.startTime.Some? ==> e.job.startTime == p.startTime) &&
      (e.failure.None? ==> e.job.status in {JobStatus.Finished, Cancelled}) &&
      (p.status == Cancelled ==> e == RunEnd(p, None))
  {
    if p.status != Cancelled {
      var started := p.(status := JobStatus.Running, startTime := if p.startTime.Some? then p.startTime else Some(now));
      RunFromBounds(cfg, chat, obs, now, started, p.completedRuns);
    }
  }

  /** `cancel_batch_job` on an existing job: the flag is always set; only a
      queued job is cancelled at once, with its end time. */
  function Cancel(p: JobProgress, now: Time): (r: JobProgress)
  {
    if p.status == Queued then p.(cancelRequested := true, status := Cancelled, endTime := Some(now))
    else p.(cancelRequested := true)
  }

  /** Cancelling always leaves the flag set, changes the status of a queued
      job only (to cancelled, with an end time), and touches no other
      field. */
  lemma CancelEffect(p: JobProgress, now: Time)
    ensures var r := Cancel(p, now);
      r.cancelRequested &&
      (r.status == Cancelled <==> p.status in {Queued, Cancelled}) &&
      (p.status != Queued ==> r.status == p.status && r.endTime == p.endTime) &&
      (p.status == Queued ==> r.endTime == Some(now)) &&
      r.completedRuns == p.completedRuns && r.startTime == p.startTime && r.totalTokens == p.totalTokens
  {
  }

  /** A queued job cancelled before its turn in the queue never runs: the
      worker leaves it exactly as the cancellation left it. A job already
      running when it is cancelled stops at its next checkpoint, with no
      further run counted. */
  lemma CancelThenProcess(cfg: JobConfig, chat: Chat, obs: seq<bool>, cancelledAt: Time, now: Time, p: JobProgress)
    ensures p.status == Queued ==>
      Process(cfg, chat, obs, now, Cancel(p, cancelledAt)) == RunEnd(Cancel(p, cancelledAt), None)
    ensures p.status == JobStatus.Running && p.completedRuns < cfg.numRuns ==>
      var e := Process(cfg, chat, obs, now, Cancel(p, cancelledAt));
      e.job.status == Cancelled && e.job.completedRuns == p.completedRuns &&
      RunsStarted(Cancel(p, cancelledAt), e) == 0
  {
    if p.status == JobStatus.Running && p.completedRuns < cfg.numRuns {
      var c := Cancel(p, cancelledAt);
      var started := c.(status := JobStatus.Running, startTime := if c.startTime.Some? then c.startTime else Some(now));
      assert !StartsRun(obs, started, c.completedRuns);
      assert RunFrom(cfg, chat, obs, now, started, c.completedRuns) == Step(cfg, chat, obs, now, started, c.completedRuns).end;
    }
  }

  /** `cancel_batch_job`: `job` is `None` for an unknown id, which is
      answered with a 404; otherwise the job is cancelled as `Cancel` says
      and returned. */
  method CancelBatchJob(job: BatchJob?, now: Time) returns (r: Result<JobProgress, ApiError>)
    modifies job
    ensures job == null ==> r == Err(Reject(404, "Batch job not found"))
    ensures job != null ==> job.State() == Cancel(old(job.State()), now) && r == Ok(job.State())
  {
    if job == null {
      return Err(Reject(404, "Batch job not found"));
    }
    job.cancelRequested := true;
    if job.status == Queued {
      job.status := Cancelled;
      job.endTime := Some(now);
    }
    return Ok(job.State());
  }

  /** The fields `create_batch_job` requires. */
  const JobFields: seq<string> := ["agent1_id", "agent2_id", "prompt", "ttl", "num_runs", "seed"]

  /** The 404 message for an unknown agent. */
  const UnknownAgent: string := "agent1_id or agent2_id does not exist"

  /** The field rules of `create_batch_job`: the body is read as
      `get_json(silent=True) or {}`; missing fields are a 400 that lists them
      sorted; the two agent ids go through `int()` and must name existing
      agents (`agents` maps an agent id to what the run loop reads of that
      agent and its model), else 404; the prompt is `str()` of the field
      (`repr` renders the values `str` leaves to `repr`); ttl and num_runs
      are `max(1, int(...))` and the seed is `int(...)`. A conversion that
      raises escapes the handler. */
  function NewJobConfig(body: Option<Json>, agents: map<int, AgentConfig>, repr: Json -> string): (r: Result<JobConfig, ApiError>)
  {
    var payload := RequestPayload(body);
    match MissingFields(payload, JobFields)
    case None => Err(Raised)
    case Some(missing) =>
      if missing != [] then Err(Reject(400, MissingMessage(missing)))
      else JobFromFields(payload, agents, repr)
  }

  /** The field rules of `create_batch_job` once every required key is
      present: the only answer left that is not a raise is the 404. */
  function JobFromFields(payload: Json, agents: map<int, AgentConfig>, repr: Json -> string): (r: Result<JobConfig, ApiError>)
    requires MissingFields(payload, JobFields) == Some([])
    ensures r.Err? && r.error.Reject? ==> r.error == Reject(404, UnknownAgent)
  {
    match (IntField(payload, "agent1_id"), IntField(payload, "agent2_id"))
    case (Some(a1), Some(a2)) =>
      if a1 !in agents || a2 !in agents then Err(Reject(404, UnknownAgent))
      else
        var ttl := IntField(payload, "ttl");
        var numRuns := IntField(payload, "num_runs");
        var seed := IntField(payload, "seed");
        if !payload.JObj? || ttl.None? || numRuns.None? || seed.None? then Err(Raised)
        else
          assert "prompt" in JobFields && In(payload, "prompt");
          Ok(JobConfig(agents[a1], agents[a2], Str(payload.fields["prompt"], repr),
                       AtLeastOne(ttl.value), AtLeastOne(numRuns.value), Some(seed.value)))
    case _ => Err(Raised)
  }

  /** `create_batch_job` answers 400 exactly when a required key is absent,
      listing the absent keys in sorted order. */
  lemma NewJobConfigMissing(body: Option<Json>, agents: map<int, AgentConfig>, repr: Json -> string)
    ensures var payload := RequestPayload(body);
      var r := NewJobConfig(body, agents, repr);
      (r.Err? && r.error.Reject? && r.error.code == 400 <==>
         SupportsIn(payload) && exists k :: k in JobFields && !In(payload, k)) &&
      (r.Err? && r.error.Reject? && r.error.code == 400 ==>
         var m := MissingFields(payload, JobFields).value;
         r.error.message == MissingMessage(m) && Sorted(m) &&
         forall k :: k in m <==> k in JobFields && !In(payload, k))
  {
    var payload := RequestPayload(body);
    var mf := MissingFields(payload, JobFields);
    var r := NewJobConfig(body, agents, repr);
    assert r.Err? && r.error.Reject? && r.error.code == 400 <==> mf.Some? && mf.value != [];
    MissingIffAbsent(payload, JobFields);
  }

  /** `create_batch_job` answers 404 exactly when every key is present and
      both ids convert to integers, but one of them names no agent. */
  lemma NewJobConfigUnknownAgent(body: Option<Json>, agents: map<int, AgentConfig>, repr: Json -> string)
    ensures var payload := RequestPayload(body);
      var r := NewJobConfig(body, agents, repr);
      var a1 := IntField(payload, "agent1_id");
      var a2 := IntField(payload, "agent2_id");
      r.Err? && r.error.Reject? && r.error.code == 404 <==>
        payload.JObj? && (forall k :: k in JobFields ==> k in payload.fields) &&
        a1.Some? && a2.Some? && (a1.value !in agents || a2.value !in agents)
  {
    var payload := RequestPayload(body);
    if payload.JObj? && (forall k :: k in JobFields ==> k in payload.fields) {
      assert forall k :: k in JobFields ==> In(payload, k);
    }
  }

  /** A job `create_batch_job` accepts names the requested agents, has ttl
      and run count at least one and at least what was asked, and carries
      the requested seed. */
  lemma NewJobConfigAccepted(body: Option<Json>, agents: map<int, AgentConfig>, repr: Json -> string)
    ensures var payload := RequestPayload(body);
      var r := NewJobConfig(body, agents, repr);
      var a1 := IntField(payload, "agent1_id");
      var a2 := IntField(payload, "agent2_id");
      var ttl := IntField(payload, "ttl");
      var numRuns := IntField(payload, "num_runs");
      r.Ok? ==>
        a1.Some? && a1.value in agents && r.value.agent1 == agents[a1.value] &&
        a2.Some? && a2.value in agents && r.value.agent2 == agents[a2.value] &&
        ttl.Some? && r.value.ttl >= 1 && r.value.ttl >= ttl.value &&
        numRuns.Some? && r.value.numRuns >= 1 && r.value.numRuns >= numRuns.value &&
        r.value.seed == IntField(payload, "seed") && r.value.seed.Some?
  {
  }

  /** `create_batch_job` up to the job's creation: a new queued job with id
      `id` for a request that passes the field rules. */
  method CreateBatchJob(id: int, body: Option<Json>, agents: map<int, AgentConfig>, repr: Json -> string)
    returns (r: Result<BatchJob, ApiError>)
    ensures NewJobConfig(body, agents, repr).Err? ==> r == Err(NewJobConfig(body, agents, repr).error)
    ensures NewJobConfig(body, agents, repr).Ok? ==>
      r.Ok? && fresh(r.value) && r.value.id == id && r.value.config == NewJobConfig(body, agents, repr).value &&
      r.value.State() == JobProgress(Queued, None, None, 0, None, false)
  {
    var cfg := NewJobConfig(body, agents, repr);
    if cfg.Err? {
      return Err(cfg.error);
    }
    var job := new BatchJob(id, cfg.value);
    return Ok(job);
  }
}
