/** Engine and model readiness (app/services/status_service.py): the pure
    decision tables `compute_model_status` and `compute_agent_status`, the
    bounded per-model status log, and the record updates made by
    `check_engine` and `record_model_load`. */
module StatusService {
  import opened Wrappers
  import opened Text
  import opened Entities

  /** The `load_state` a model status reports. */
  datatype LoadState = NotPresent | Warm | Cold

  function LoadStateName(s: LoadState): (r: string)
    ensures r != "error"
  {
    match s
    case NotPresent => "not_present"
    case Warm => "warm"
    case Cold => "cold"
  }

  /** The result of `compute_model_status`. */
  datatype ModelStatus = ModelStatus(existsOnDisk: bool, loadedInEngine: bool, loadState: LoadState)

  /** The result of `compute_agent_status`. */
  datatype AgentStatus = Ready | PartiallyReady | NotReady | Disabled

  function AgentStatusName(s: AgentStatus): string
  {
    match s
    case Ready => "ready"
    case PartiallyReady => "partially_ready"
    case NotReady => "not_ready"
    case Disabled => "disabled"
  }

  /** The `engine` part of a status payload. */
  datatype EngineState = EngineState(reachable: bool, lastChecked: Option<Time>, message: string, host: string)

  /** What a connector's `probe()` did: returned, or raised with this text. */
  datatype Probe = ProbeOk | ProbeFailed(error: string)

  /** One status-log line, `f"{to_iso(at)} {text}"`. */
  datatype LogEntry = LogEntry(at: Time, text: string)

  /** `a or b` for an optional text. */
  function TextOr(a: Option<string>, b: string): (r: string)
    ensures a.Some? && a.value != "" ==> r == a.value
    ensures a.None? || a.value == "" ==> r == b
  {
    if a.Some? && a.value != "" then a.value else b
  }

  /** `(model.engine or model.backend).lower()` */
  function EngineName(engine: Option<string>, backend: string): string
  {
    Lower(TextOr(engine, backend))
  }

  /** `_connector_for_model`: the connector the engine (else the backend)
      selects, or the `ValueError` text naming the backend. */
  function ModelConnector(engine: Option<string>, backend: string): (r: Result<ConnectorKind, string>)
    ensures r == Ok(Ollama) <==> EngineName(engine, backend) == "ollama"
    ensures r == Ok(Mlx) <==> EngineName(engine, backend) == "mlx"
    ensures r == Ok(TensorRT) <==> EngineName(engine, backend) in {"tensorrt", "tensorrt_llm", "tensorrt-llm"}
    ensures r.Err? ==> r.error == "Unsupported backend: " + backend
  {
    var name := EngineName(engine, backend);
    if name == "ollama" then Ok(Ollama)
    else if name == "mlx" then Ok(Mlx)
    else if name in {"tensorrt", "tensorrt_llm", "tensorrt-llm"} then Ok(TensorRT)
    else Err("Unsupported backend: " + backend)
  }

  /** `f"{model.host}:{model.port}"` */
  function HostLabel(host: string, port: int): string
  {
    host + ":" + IntToString(port)
  }

  /** The log key of a model, `f"model:{model.id}"`. */
  function LogKey(id: int): string
  {
    "model:" + IntToString(id)
  }

  /** `compute_model_status`: first match wins. `warm_status == "error"`
      means the files are missing; otherwise the model is warm when the
      engine is reachable and either lists it or it was warmed earlier. */
  function ComputeModelStatus(warmStatus: string, modelName: string, reachable: bool, loaded: seq<string>): (r: ModelStatus)
    ensures r.existsOnDisk <==> warmStatus != "error"
    ensures r.loadState == NotPresent <==> warmStatus == "error"
    ensures r.loadState == Warm <==> warmStatus != "error" && reachable && (modelName in loaded || warmStatus == "warm")
    ensures r.loadedInEngine <==> r.loadState == Warm
  {
    if warmStatus == "error" then ModelStatus(false, false, NotPresent)
    else if reachable && modelName in loaded then ModelStatus(true, true, Warm)
    else if warmStatus == "warm" then ModelStatus(true, reachable, if reachable then Warm else Cold)
    else ModelStatus(true, false, Cold)
  }

  /** The three table rows stated the way the source's tests read them. */
  lemma ModelStatusRows(warmStatus: string, modelName: string, reachable: bool, loaded: seq<string>)
    ensures warmStatus == "error" ==>
      ComputeModelStatus(warmStatus, modelName, reachable, loaded) == ModelStatus(false, false, NotPresent)
    ensures warmStatus != "error" && reachable && modelName in loaded ==>
      ComputeModelStatus(warmStatus, modelName, reachable, loaded) == ModelStatus(true, true, Warm)
    ensures warmStatus == "warm" && !(reachable && modelName in loaded) ==>
      ComputeModelStatus(warmStatus, modelName, reachable, loaded)
        == ModelStatus(true, reachable, if reachable then Warm else Cold)
    ensures warmStatus != "error" && warmStatus != "warm" && !(reachable && modelName in loaded) ==>
      ComputeModelStatus(warmStatus, modelName, reachable, loaded) == ModelStatus(true, false, Cold)
  {
  }

  /** `compute_agent_status`: first match wins. */
  function ComputeAgentStatus(agentStatus: string, loadState: LoadState, reachable: bool): (r: AgentStatus)
    ensures r == Disabled <==> agentStatus == "disabled"
    ensures r == Ready <==> agentStatus != "disabled" && loadState == Warm && reachable
    ensures r == PartiallyReady <==> agentStatus != "disabled" && loadState != NotPresent && !reachable
    ensures r == NotReady <==> agentStatus != "disabled" && (loadState == NotPresent || (loadState == Cold && reachable))
  {
    if agentStatus == "disabled" then Disabled
    else if loadState == Warm && reachable then Ready
    else if (loadState == Warm || loadState == Cold) && !reachable then PartiallyReady
    else
      assert loadState == NotPresent || reachable;
      NotReady
  }

  /** A model whose files are missing never yields a ready agent, and an
      unreachable engine never does either. */
  lemma ReadyNeedsWarmAndReachable(warmStatus: string, modelName: string, reachable: bool, loaded: seq<string>, agentStatus: string)
    ensures ComputeAgentStatus(agentStatus, ComputeModelStatus(warmStatus, modelName, reachable, loaded).loadState, reachable) == Ready
      <==> agentStatus != "disabled" && warmStatus != "error" && reachable && (modelName in loaded || warmStatus == "warm")
  {
  }

  /** `get_engine_state(model)` */
  function GetEngineState(model: Model): (r: EngineState)
    reads model
    ensures r.reachable <==> model.status == "green"
    ensures r.lastChecked == model.lastEngineCheckAt
    ensures r.message != ""
    ensures model.lastEngineMessage.Some? && model.lastEngineMessage.value != "" ==> r.message == model.lastEngineMessage.value
    ensures r.host == HostLabel(model.host, model.port)
  {
    EngineState(
      model.status == "green",
      model.lastEngineCheckAt,
      TextOr(model.lastEngineMessage, if model.status == "green" then "ok" else "status unknown"),
      HostLabel(model.host, model.port))
  }

  /** What the engine check observes: the connector lookup may fail with a
      `ValueError`, otherwise the probe decides. */
  function ProbeResult(engine: Option<string>, backend: string, probe: ConnectorKind -> Probe): (p: Probe)
  {
    match ModelConnector(engine, backend)
    case Ok(kind) => probe(kind)
    case Err(e) => ProbeFailed(e)
  }

  /** The message `check_engine` records: `"ok"`, else the error text, else
      `"connection failed"`. */
  function CheckMessage(p: Probe): (r: string)
    ensures r != ""
    ensures p.ProbeOk? ==> r == "ok"
    ensures p.ProbeFailed? && p.error != "" ==> r == p.error
  {
    match p
    case ProbeOk => "ok"
    case ProbeFailed(e) => if e == "" then "connection failed" else e
  }

  function CheckLogText(p: Probe, host: string): string
  {
    if p.ProbeOk? then "engine check ok at " + host
    else "engine check failed at " + host + ": " + CheckMessage(p)
  }

  function LoadLogText(ok: bool, message: string): string
  {
    "model reload " + (if ok then "ok" else "failed") + ": " + message
  }

  const MaxLogEntries: nat := 50

  /** The last `n` elements of `xs` (all of them when there are fewer). */
  function LastN<T>(xs: seq<T>, n: nat): (r: seq<T>)
    ensures |r| == if |xs| < n then |xs| else n
    ensures r == xs[|xs| - |r|..]
  {
    if |xs| <= n then xs else xs[|xs| - n..]
  }

  /** Appending to a bounded buffer of the last `n` elements keeps it the
      last `n` elements of the longer history. */
  lemma LastNAppend<T>(h: seq<T>, x: T, n: nat)
    requires n > 0
    ensures LastN(LastN(h, n) + [x], n) == LastN(h + [x], n)
  {
    var l := LastN(h, n);
    if |h| >= n {
      assert (l + [x])[1..] == h[|h| - n + 1..] + [x];
      assert (h + [x])[|h| + 1 - n..] == h[|h| - n + 1..] + [x];
    }
  }

  /** Python's `xs[-limit:]`: a positive limit keeps the last `limit`
      elements, zero keeps everything (`-0 == 0`), a negative limit drops the
      first `-limit`. */
  function SliceFromEnd<T>(xs: seq<T>, limit: int): (r: seq<T>)
    ensures limit > 0 ==> r == LastN(xs, limit)
    ensures limit == 0 ==> r == xs
    ensures limit < 0 ==> r == xs[if -limit < |xs| then -limit else |xs|..]
  {
    if limit > 0 then
      (if limit >= |xs| then xs else xs[|xs| - limit..])
    else if limit == 0 then xs
    else xs[if -limit < |xs| then -limit else |xs|..]
  }

  /** Each key's buffer holds the last `MaxLogEntries` entries of its history. */
  ghost predicate Buffered(logs: map<string, seq<LogEntry>>, history: map<string, seq<LogEntry>>) {
    logs.Keys == history.Keys &&
    forall k :: k in logs ==> logs[k] == LastN(history[k], MaxLogEntries)
  }

  lemma BufferedUpdate(logs: map<string, seq<LogEntry>>, history: map<string, seq<LogEntry>>, key: string, h: seq<LogEntry>)
    requires Buffered(logs, history)
    ensures Buffered(logs[key := LastN(h, MaxLogEntries)], history[key := h])
  {
  }

  /** `_STATUS_LOGS`: one `deque(maxlen=50)` per key. `history` is every
      entry ever appended; a deque keeps its last 50. */
  class StatusLogs {
    var logs: map<string, seq<LogEntry>>
    ghost var history: map<string, seq<LogEntry>>

    ghost predicate Valid()
      reads this
    {
      Buffered(logs, history)
    }

    constructor ()
      ensures Valid() && logs == map[] && history == map[]
    {
      logs := map[];
      history := map[];
    }

    function Entries(key: string): (r: seq<LogEntry>)
      reads this
      ensures Valid() ==> |r| <= MaxLogEntries
    {
      if key in logs then logs[key] else []
    }

    ghost function History(key: string): seq<LogEntry>
      reads this
    {
      if key in history then history[key] else []
    }

    /** `_append_log(key, text, at)` */
    method Append(key: string, entry: LogEntry)
      requires Valid()
      modifies this
      ensures Valid()
      ensures history == old(history)[key := old(History(key)) + [entry]]
      ensures logs == old(logs)[key := LastN(old(Entries(key)) + [entry], MaxLogEntries)]
      ensures Entries(key) != [] && Entries(key)[|Entries(key)| - 1] == entry
    {
      ghost var h := History(key) + [entry];
      var l := LastN(Entries(key) + [entry], MaxLogEntries);
      LastNAppend(History(key), entry, MaxLogEntries);
      BufferedUpdate(logs, history, key, h);
      logs := logs[key := l];
      history := history[key := h];
    }

    /** `recent_logs_for_model(model, limit)` */
    function Recent(id: int, limit: int): seq<LogEntry>
      reads this
    {
      SliceFromEnd(Entries(LogKey(id)), limit)
    }

    /** For any limit up to the deque's size, the recent entries are the
        newest `limit` entries ever logged, in order. */
    lemma RecentIsNewest(id: int, limit: int)
      requires Valid() && 0 < limit <= MaxLogEntries as int
      ensures Recent(id, limit) == LastN(History(LogKey(id)), limit)
    {
      var h := History(LogKey(id));
      var e := Entries(LogKey(id));
      assert e == LastN(h, MaxLogEntries);
    }
  }

  /** `check_engine(model)`: records the check time and message on the model,
      appends one log line, and reports the engine state. */
  method CheckEngine(model: Model, logs: StatusLogs, now: Time, probe: ConnectorKind -> Probe) returns (state: EngineState)
    requires logs.Valid()
    modifies model, logs
    ensures logs.Valid()
    ensures var p := ProbeResult(model.engine, model.backend, probe);
      state == EngineState(p.ProbeOk?, Some(now), CheckMessage(p), HostLabel(model.host, model.port)) &&
      logs.history == old(logs.history)[LogKey(model.id) := old(logs.History(LogKey(model.id))) + [LogEntry(now, CheckLogText(p, state.host))]]
    ensures model.lastEngineCheckAt == Some(now) && model.lastEngineMessage == Some(state.message)
    ensures model.Identity() == old(model.Identity())
    ensures model.status == old(model.status) && model.warmStatus == old(model.warmStatus)
    ensures model.lastLoadAttemptAt == old(model.lastLoadAttemptAt) && model.lastLoadMessage == old(model.lastLoadMessage)
  {
    var host := HostLabel(model.host, model.port);
    var p := ProbeResult(model.engine, model.backend, probe);
    var message := CheckMessage(p);
    var key := LogKey(model.id);
    var entry := LogEntry(now, CheckLogText(p, host));
    logs.Append(key, entry);
    model.SetEngineCheck(now, message);
    state := EngineState(p.ProbeOk?, Some(now), message, host);
  }

  /** `record_model_load(model, ok, message)` */
  method RecordModelLoad(model: Model, logs: StatusLogs, ok: bool, message: string, now: Time)
    requires logs.Valid()
    modifies model, logs
    ensures logs.Valid()
    ensures model.lastLoadAttemptAt == Some(now) && model.lastLoadMessage == Some(message)
    ensures logs.history == old(logs.history)[LogKey(model.id) := old(logs.History(LogKey(model.id))) + [LogEntry(now, LoadLogText(ok, message))]]
    ensures model.Identity() == old(model.Identity())
    ensures model.status == old(model.status) && model.warmStatus == old(model.warmStatus)
    ensures model.lastEngineCheckAt == old(model.lastEngineCheckAt) && model.lastEngineMessage == old(model.lastEngineMessage)
  {
    var key := LogKey(model.id);
    var entry := LogEntry(now, LoadLogText(ok, message));
    logs.Append(key, entry);
    model.SetLoadAttempt(now, message);
  }

  /** `_fetch_loaded_models(model)`: the connector's listing, or `[]` when
      the lookup or the listing fails. */
  function FetchLoaded(engine: Option<string>, backend: string, listModels: ConnectorKind -> Option<seq<string>>): (r: seq<string>)
    ensures ModelConnector(engine, backend).Err? ==> r == []
    ensures ModelConnector(engine, backend).Ok? ==> r == listModels(ModelConnector(engine, backend).value).GetOr([])
  {
    match ModelConnector(engine, backend)
    case Ok(kind) => listModels(kind).GetOr([])
    case Err(_) => []
  }

  /** The payload `build_model_status_payload` returns. */
  datatype ModelStatusPayload = ModelStatusPayload(
    engine: EngineState,
    model: ModelStatus,
    lastLoadAttempt: Option<Time>,
    lastLoadMessage: Option<string>,
    recent: seq<LogEntry>)

  const RecentLogLimit: int := 5

  /** What `build_model_status_payload(model, force_engine_check)` promises
      of its payload `p` and of the new state of `model` and `logs`. Unforced,
      the cached engine state is reported and the check fields and the log
      are kept; forced, a fresh check is stored on the row and logged once.
      The loaded list is asked for only when the engine is reachable, and the
      recent lines are the newest lines of that model's log. */
  twostate predicate ModelPayloadOf(model: Model, logs: StatusLogs, force: bool, now: Time,
                                    probe: ConnectorKind -> Probe, listModels: ConnectorKind -> Option<seq<string>>,
                                    p: ModelStatusPayload)
    reads model, logs
  {
    (!force ==>
      p.engine == old(GetEngineState(model)) && logs.history == old(logs.history) &&
      model.lastEngineCheckAt == old(model.lastEngineCheckAt) && model.lastEngineMessage == old(model.lastEngineMessage)) &&
    (force ==>
      var probed := ProbeResult(model.engine, model.backend, probe);
      p.engine == EngineState(probed.ProbeOk?, Some(now), CheckMessage(probed), HostLabel(model.host, model.port)) &&
      model.lastEngineCheckAt == Some(now) && model.lastEngineMessage == Some(CheckMessage(probed)) &&
      logs.history == old(logs.history)[LogKey(model.id) := old(logs.History(LogKey(model.id))) + [LogEntry(now, CheckLogText(probed, p.engine.host))]]) &&
    p.model == ComputeModelStatus(model.warmStatus, model.modelName, p.engine.reachable,
                                  if p.engine.reachable then FetchLoaded(model.engine, model.backend, listModels) else []) &&
    (!p.engine.reachable ==> p.model.loadState != Warm) &&
    p.lastLoadAttempt == model.lastLoadAttemptAt && p.lastLoadMessage == model.lastLoadMessage &&
    p.recent == logs.Recent(model.id, RecentLogLimit) && p.recent == LastN(logs.History(LogKey(model.id)), RecentLogLimit) &&
    model.Identity() == old(model.Identity()) &&
    model.status == old(model.status) && model.warmStatus == old(model.warmStatus) &&
    model.lastLoadAttemptAt == old(model.lastLoadAttemptAt) && model.lastLoadMessage == old(model.lastLoadMessage)
  }

  /** `build_model_status_payload(model, force_engine_check)`. */
  method BuildModelStatusPayload(model: Model, logs: StatusLogs, force: bool, now: Time,
                                 probe: ConnectorKind -> Probe, listModels: ConnectorKind -> Option<seq<string>>)
    returns (p: ModelStatusPayload)
    requires logs.Valid()
    modifies model, logs
    ensures logs.Valid()
    ensures ModelPayloadOf(model, logs, force, now, probe, listModels, p)
  {
    var engine: EngineState;
    if force {
      engine := CheckEngine(model, logs, now, probe);
    } else {
      engine := GetEngineState(model);
    }
    var loaded := if engine.reachable then FetchLoaded(model.engine, model.backend, listModels) else [];
    var status := ComputeModelStatus(model.warmStatus, model.modelName, engine.reachable, loaded);
    logs.RecentIsNewest(model.id, RecentLogLimit);
    p := ModelStatusPayload(engine, status, model.lastLoadAttemptAt, model.lastLoadMessage, logs.Recent(model.id, RecentLogLimit));
  }

  /** The payload `build_agent_status_payload` returns. */
  datatype AgentStatusPayload = AgentStatusPayload(
    modelPayload: ModelStatusPayload,
    modelId: int,
    enabled: bool,
    status: AgentStatus,
    lastAgentMessage: string)

  /** The agent part of `build_agent_status_payload`'s payload `p`: the
      agent's `model_id` column, enabled unless disabled, the status computed
      from the model payload (ready only when reachable and loaded), and the
      message naming that status. */
  predicate AgentFieldsOf(p: AgentStatusPayload, modelId: int, agentStatus: string) {
    p.modelId == modelId &&
    (p.enabled <==> agentStatus != "disabled") &&
    p.status == ComputeAgentStatus(agentStatus, p.modelPayload.model.loadState, p.modelPayload.engine.reachable) &&
    (p.status == Ready ==> p.modelPayload.engine.reachable && p.modelPayload.model.loadedInEngine) &&
    p.lastAgentMessage == "agent status=" + AgentStatusName(p.status)
  }

  /** `build_agent_status_payload(agent, force_engine_check)`. The source
      dereferences `agent.model` unguarded, so an agent whose model row is
      gone raises `AttributeError` (a 500); `None` stands for that raise, and
      then nothing has changed. */
  method BuildAgentStatusPayload(agent: Agent, logs: StatusLogs, force: bool, now: Time,
                                 probe: ConnectorKind -> Probe, listModels: ConnectorKind -> Option<seq<string>>)
    returns (r: Option<AgentStatusPayload>)
    requires logs.Valid()
    modifies agent.model, logs
    ensures logs.Valid()
    ensures agent.model == null ==> r.None? && unchanged(logs)
    ensures agent.model != null ==> r.Some?
    ensures r.Some? ==> AgentPayloadFor(agent.model, agent.modelId, agent.status, logs, force, now, probe, listModels, r.value)
  {
    if agent.model == null {
      return None;
    }
    var p := AgentStatusOfModel(agent.model, agent.modelId, agent.status, logs, force, now, probe, listModels);
    return Some(p);
  }

  /** The payload `p` for an agent whose model is `m`: its model part is what
      `build_model_status_payload` promises, with the matching new state of
      `m` and `logs`, and its agent part is as `AgentFieldsOf` states. */
  twostate predicate AgentPayloadFor(m: Model, modelId: int, agentStatus: string, logs: StatusLogs, force: bool, now: Time,
                                     probe: ConnectorKind -> Probe, listModels: ConnectorKind -> Option<seq<string>>,
                                     p: AgentStatusPayload)
    reads m, logs
  {
    ModelPayloadOf(m, logs, force, now, probe, listModels, p.modelPayload) && AgentFieldsOf(p, modelId, agentStatus)
  }

  /** `build_agent_status_payload` for an agent whose model is `m`, whose
      `model_id` column is `modelId` and whose stored status is `agentStatus`. */
  method AgentStatusOfModel(m: Model, modelId: int, agentStatus: string, logs: StatusLogs, force: bool, now: Time,
                            probe: ConnectorKind -> Probe, listModels: ConnectorKind -> Option<seq<string>>)
    returns (p: AgentStatusPayload)
    requires logs.Valid()
    modifies m, logs
    ensures logs.Valid()
    ensures AgentPayloadFor(m, modelId, agentStatus, logs, force, now, probe, listModels, p)
  {
    var mp := BuildModelStatusPayload(m, logs, force, now, probe, listModels);
    p := AgentPayloadOf(mp, modelId, agentStatus);
  }

  /** The agent part of `build_agent_status_payload` around the model
      payload `mp`. */
  function AgentPayloadOf(mp: ModelStatusPayload, modelId: int, agentStatus: string): (p: AgentStatusPayload)
    requires mp.model.loadedInEngine <==> mp.model.loadState == Warm
    ensures p.modelPayload == mp && p.modelId == modelId
    ensures p.enabled <==> agentStatus != "disabled"
    ensures p.status == ComputeAgentStatus(agentStatus, mp.model.loadState, mp.engine.reachable)
    ensures p.status == Ready ==> mp.engine.reachable && mp.model.loadedInEngine
    ensures p.lastAgentMessage == "agent status=" + AgentStatusName(p.status)
  {
    var status := ComputeAgentStatus(agentStatus, mp.model.loadState, mp.engine.reachable);
    AgentStatusPayload(mp, modelId, agentStatus != "disabled", status, "agent status=" + AgentStatusName(status))
  }
}
