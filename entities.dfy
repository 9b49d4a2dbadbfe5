/** The database rows the core reads and updates. The rows are in-memory
    objects here; commits, flushes and refreshes are not modelled. */
module Entities {
  import opened Wrappers

  /** A clock reading supplied by the caller (`datetime.utcnow()`). */
  type Time = int

  /** Which connector class a backend or engine name selects. */
  datatype ConnectorKind = Ollama | Mlx | TensorRT

  /** An inference endpoint with its cached status fields. */
  class Model {
    var id: int
    var name: string
    var host: string
    var port: int
    var backend: string
    var engine: Option<string>
    var modelName: string
    /** `"green"` after a successful refresh, `"red"` after a failed one. */
    var status: string
    /** `"warm"`, `"cold"`, `"error"`, `"not_present"`, ... */
    var warmStatus: string
    var lastEngineCheckAt: Option<Time>
    var lastEngineMessage: Option<string>
    var lastLoadAttemptAt: Option<Time>
    var lastLoadMessage: Option<string>

    function Identity(): ModelIdentity
      reads this
    {
      ModelIdentity(id, name, host, port, backend, engine, modelName)
    }

    /** Records an engine check: its time and message. */
    method SetEngineCheck(at: Time, message: string)
      modifies this
      ensures lastEngineCheckAt == Some(at) && lastEngineMessage == Some(message)
      ensures Identity() == old(Identity()) && status == old(status) && warmStatus == old(warmStatus)
      ensures lastLoadAttemptAt == old(lastLoadAttemptAt) && lastLoadMessage == old(lastLoadMessage)
    {
      lastEngineCheckAt := Some(at);
      lastEngineMessage := Some(message);
    }

    /** Records a load attempt: its time and message. */
    method SetLoadAttempt(at: Time, message: string)
      modifies this
      ensures lastLoadAttemptAt == Some(at) && lastLoadMessage == Some(message)
      ensures Identity() == old(Identity()) && status == old(status) && warmStatus == old(warmStatus)
      ensures lastEngineCheckAt == old(lastEngineCheckAt) && lastEngineMessage == old(lastEngineMessage)
    {
      lastLoadAttemptAt := Some(at);
      lastLoadMessage := Some(message);
    }

    constructor (id: int, name: string, host: string, port: int, backend: string,
                 engine: Option<string>, modelName: string, status: string, warmStatus: string)
      ensures this.id == id && this.name == name && this.host == host && this.port == port
      ensures this.backend == backend && this.engine == engine && this.modelName == modelName
      ensures this.status == status && this.warmStatus == warmStatus
      ensures lastEngineCheckAt == None && lastEngineMessage == None
      ensures lastLoadAttemptAt == None && lastLoadMessage == None
    {
      this.id := id;
      this.name := name;
      this.host := host;
      this.port := port;
      this.backend := backend;
      this.engine := engine;
      this.modelName := modelName;
      this.status := status;
      this.warmStatus := warmStatus;
      lastEngineCheckAt := None;
      lastEngineMessage := None;
      lastLoadAttemptAt := None;
      lastLoadMessage := None;
    }
  }

  /** The fields of a model that only the setup endpoints change: which
      endpoint and model it names. */
  datatype ModelIdentity = ModelIdentity(id: int, name: string, host: string, port: int,
                                         backend: string, engine: Option<string>, modelName: string)

  /** A configured agent: a model plus the generation settings for it. */
  class Agent {
    var id: int
    var name: string
    /** The `model_id` column; `model` is the row it names, `null` once that
        row has been deleted. */
    var modelId: int
    var model: Model?
    var systemPrompt: string
    var maxTokens: int
    var temperature: real
    /** `"disabled"` switches the agent off; any other value leaves it enabled. */
    var status: string

    constructor (id: int, name: string, modelId: int, model: Model?, systemPrompt: string,
                 maxTokens: int, temperature: real, status: string)
      ensures this.id == id && this.name == name && this.modelId == modelId && this.model == model
      ensures this.systemPrompt == systemPrompt && this.maxTokens == maxTokens
      ensures this.temperature == temperature && this.status == status
    {
      this.id := id;
      this.name := name;
      this.modelId := modelId;
      this.model := model;
      this.systemPrompt := systemPrompt;
      this.maxTokens := maxTokens;
      this.temperature := temperature;
      this.status := status;
    }
  }
}
