/** The setup endpoints (app/views/setup.py): the payload validators for
    models and agents, the connector choice and status refresh of a model,
    the agent summary with its effective status, the status tooltips and
    the outcome of a warm or reload call. Request bodies are `Json`
    values; a validator's result is the cleaned `data` dict or the error
    text of the 400 it causes. */
module Setup {
  import opened Wrappers
  import opened Text
  import opened PyJson
  import opened Security
  import opened Entities
  import opened StatusService

  /** `ValidationResult`: the cleaned data, or the error text. */
  type Validation = Result<map<string, Json>, string>

  const InvalidPayload: string := "Invalid JSON payload"

  /** The fields `create_model` and `create_agent` require. */
  const ModelFields: seq<string> := ["name", "host", "port", "engine", "model_name"]
  const AgentFields: seq<string> := ["name", "model_id", "system_prompt", "max_tokens", "temperature"]

  /** The text fields of a model payload, in the order they are cleaned. */
  const TextKeys: seq<string> := ["name", "host", "backend", "engine", "model_name", "selected_model"]

  /** The fields an agent payload may set. */
  const AgentKeys: set<string> := {"name", "model_id", "system_prompt", "max_tokens", "temperature"}

  // ---------------------------------------------------------------------
  // First failure wins
  // ---------------------------------------------------------------------

  /** How a validator converts one field of its payload. */
  datatype Check =
    /** `sanitize_text_input(value, key, max_length)` */
    | Text(maxLength: int)
    /** `int(value)` naming a model on the active engine */
    | ModelId(rows: seq<ModelRow>)
    /** `int(value)`, at least 1 */
    | MaxTokens
    /** `float(value)`, within [0, 2] */
    | Temperature

  /** The converted value of field `key`, or the error for it. */
  function Convert(c: Check, key: string, value: Json): Result<Json, string>
  {
    match c
    case Text(n) =>
      (match Sanitize(value, key, n)
       case Ok(s) => Ok(JStr(s))
       case Err(e) => Err(e))
    case ModelId(rows) => ModelIdField(value, rows)
    case MaxTokens => MaxTokensField(value)
    case Temperature => TemperatureField(value)
  }

  /** One field of a validator: once an earlier field has failed nothing
      changes; an absent field is skipped; a present one is converted and
      added to the data, or its conversion's error ends the validation. */
  function Field(fields: map<string, Json>, key: string, c: Check, acc: Validation): Validation
  {
    match acc
    case Err(_) => acc
    case Ok(data) =>
      if key !in fields then acc
      else
        match Convert(c, key, fields[key])
        case Err(e) => Err(e)
        case Ok(v) => Ok(data[key := v])
  }

  /** The fields `keys`, in order, each converted by `c`. */
  function CollectFrom(fields: map<string, Json>, keys: seq<string>, c: Check, acc: Validation): Validation
  {
    if keys == [] then acc
    else CollectFrom(fields, keys[1..], c, Field(fields, keys[0], c, acc))
  }

  /** Once a field has failed, the later fields change nothing. */
  lemma {:induction false} CollectFromFailed(fields: map<string, Json>, keys: seq<string>, c: Check, acc: Validation)
    requires acc.Err?
    ensures CollectFrom(fields, keys, c, acc) == acc
  {
    if keys != [] {
      CollectFromFailed(fields, keys[1..], c, acc);
    }
  }

  /** The walk succeeds exactly when every present key converts. */
  lemma {:induction false} CollectFromOk(fields: map<string, Json>, keys: seq<string>, c: Check, acc: map<string, Json>)
    ensures CollectFrom(fields, keys, c, Ok(acc)).Ok? <==>
      forall j :: 0 <= j < |keys| && keys[j] in fields ==> Convert(c, keys[j], fields[keys[j]]).Ok?
  {
    if keys != [] {
      var next := Field(fields, keys[0], c, Ok(acc));
      if next.Err? {
        CollectFromFailed(fields, keys[1..], c, next);
      } else {
        CollectFromOk(fields, keys[1..], c, next.value);
        assert forall j :: 1 <= j < |keys| ==> keys[j] == keys[1..][j - 1];
      }
    }
  }

  /** A successful walk holds `acc` plus every present key, each with its
      converted value, and nothing else. */
  lemma {:induction false} CollectFromData(fields: map<string, Json>, keys: seq<string>, c: Check, acc: map<string, Json>)
    requires CollectFrom(fields, keys, c, Ok(acc)).Ok?
    ensures var d := CollectFrom(fields, keys, c, Ok(acc)).value;
      (forall k :: k in d <==> k in acc || (k in keys && k in fields)) &&
      (forall k :: k in keys && k in fields ==> Convert(c, k, fields[k]).Ok? && d[k] == Convert(c, k, fields[k]).value) &&
      (forall k :: k in acc && k !in keys ==> d[k] == acc[k])
  {
    if keys != [] {
      var next := Field(fields, keys[0], c, Ok(acc));
      if next.Err? {
        CollectFromFailed(fields, keys[1..], c, next);
      } else {
        CollectFromData(fields, keys[1..], c, next.value);
        CollectFromOk(fields, keys, c, acc);
        assert forall k :: k in keys && k in fields ==> exists j :: 0 <= j < |keys| && keys[j] == k;
      }
    }
  }

  // ---------------------------------------------------------------------
  // _validate_model_payload
  // ---------------------------------------------------------------------

  /** The cleaned host, when there is one, passes `validate_host`. */
  predicate HostOk(data: map<string, Json>) {
    "host" !in data || (data["host"].JStr? && ValidateHost(data["host"].s))
  }

  /** `int(payload["port"])` within 1..65535, or the error for it. */
  function PortField(value: Json): (r: Result<int, string>)
    ensures r.Ok? <==> ToInt(value).Some? && 1 <= ToInt(value).value <= 65535
    ensures r.Ok? ==> Some(r.value) == ToInt(value)
    ensures ToInt(value).None? ==> r == Err("port must be an integer")
    ensures ToInt(value).Some? && r.Err? ==> r == Err("port must be between 1 and 65535")
  {
    match ToInt(value)
    case None => Err("port must be an integer")
    case Some(p) => if 1 <= p <= 65535 then Ok(p) else Err("port must be between 1 and 65535")
  }

  /** What `_validate_model_payload(body, required)` returns; `body` is
      `request.get_json(silent=True)`, `None` when there is no JSON body. */
  function ModelValidation(body: Option<Json>, required: seq<string>): Validation
  {
    if body.None? || !body.value.JObj? then Err(InvalidPayload)
    else
      var missing := MissingFields(body.value, required).value;
      if missing != [] then Err(MissingMessage(missing))
      else
        var fields := body.value.fields;
        match CollectFrom(fields, TextKeys, Text(255), Ok(map[]))
        case Err(e) => Err(e)
        case Ok(data) =>
          if !HostOk(data) then Err("host contains invalid characters")
          else if "port" !in fields then Ok(data)
          else
            match PortField(fields["port"])
            case Err(e) => Err(e)
            case Ok(p) => Ok(data["port" := JInt(p)])
  }

  /** `_validate_model_payload`: the text fields are cleaned one by one,
      the first that fails ends the validation, then the host and the port
      are checked. */
  method ValidateModelPayload(body: Option<Json>, required: seq<string>) returns (r: Validation)
    ensures r == ModelValidation(body, required)
  {
    if body.None? || !body.value.JObj? {
      return Err(InvalidPayload);
    }
    var missing := MissingFields(body.value, required).value;
    if missing != [] {
      return Err(MissingMessage(missing));
    }
    var fields := body.value.fields;
    var cleaned := CleanTextFields(fields);
    if cleaned.Err? {
      return cleaned;
    }
    var data := cleaned.value;
    if "host" in data && !(data["host"].JStr? && ValidateHost(data["host"].s)) {
      return Err("host contains invalid characters");
    }
    if "port" in fields {
      var port := ToInt(fields["port"]);
      if port.None? {
        return Err("port must be an integer");
      }
      if !(1 <= port.value <= 65535) {
        return Err("port must be between 1 and 65535");
      }
      data := data["port" := JInt(port.value)];
    }
    return Ok(data);
  }

  /** The loop of `_validate_model_payload` over the text fields: each
      present one is sanitized into the data, and the first that fails
      ends the validation with its error. */
  method CleanTextFields(fields: map<string, Json>) returns (r: Validation)
    ensures r == CollectFrom(fields, TextKeys, Text(255), Ok(map[]))
  {
    var data: map<string, Json> := map[];
    for i := 0 to |TextKeys|
      invariant CollectFrom(fields, TextKeys, Text(255), Ok(map[])) == CollectFrom(fields, TextKeys[i..], Text(255), Ok(data))
    {
      var key := TextKeys[i];
      assert TextKeys[i..][1..] == TextKeys[i + 1..];
      if key in fields {
        var cleaned := Sanitize(fields[key], key, 255);
        if cleaned.Err? {
          CollectFromFailed(fields, TextKeys[i + 1..], Text(255), Err(cleaned.error));
          return Err(cleaned.error);
        }
        data := data[key := JStr(cleaned.value)];
      }
    }
    return Ok(data);
  }

  /** A payload that is not a JSON object is refused as such, and one that
      lacks required fields is refused with those fields listed sorted. */
  lemma ModelValidationRefusals(body: Option<Json>, required: seq<string>)
    ensures body.None? || !body.value.JObj? ==> ModelValidation(body, required) == Err(InvalidPayload)
    ensures body.Some? && body.value.JObj? && (exists k :: k in required && k !in body.value.fields) ==>
      var m := MissingFields(body.value, required).value;
      ModelValidation(body, required) == Err(MissingMessage(m)) && Sorted(m) &&
      (forall k :: k in m <==> k in required && k !in body.value.fields)
  {
  }

  /** A model payload is accepted exactly when it is an object holding the
      required fields whose present text fields clean, whose host passes
      `validate_host` and whose port is an integer in 1..65535. */
  lemma ModelValidationAccepts(body: Option<Json>, required: seq<string>)
    ensures ModelValidation(body, required).Ok? <==>
      body.Some? && body.value.JObj? &&
      (forall k :: k in required ==> k in body.value.fields) &&
      (forall k :: k in TextKeys && k in body.value.fields ==> Sanitize(body.value.fields[k], k, 255).Ok?) &&
      ("host" in body.value.fields ==> ValidateHost(Sanitize(body.value.fields["host"], "host", 255).value)) &&
      ("port" in body.value.fields ==> PortField(body.value.fields["port"]).Ok?)
  {
    if body.Some? && body.value.JObj? {
      var fields := body.value.fields;
      var mf := MissingFields(body.value, required);
      if mf.value == [] {
        assert forall k :: k in required ==> k in fields;
      }
      CollectFromOk(fields, TextKeys, Text(255), map[]);
      assert forall k :: k in TextKeys <==> exists j :: 0 <= j < |TextKeys| && TextKeys[j] == k;
      var c := CollectFrom(fields, TextKeys, Text(255), Ok(map[]));
      if c.Ok? {
        CollectFromData(fields, TextKeys, Text(255), map[]);
        assert "host" in TextKeys;
      }
    }
  }

  /** Accepted model data holds only recognised fields that the payload
      has, and every such field: the text fields cleaned, the host valid,
      the port an integer in 1..65535. */
  lemma ModelValidationData(body: Option<Json>, required: seq<string>)
    requires body.Some? && body.value.JObj? && ModelValidation(body, required).Ok?
    ensures var fields := body.value.fields;
      var data := ModelValidation(body, required).value;
      (forall k :: k in data <==> (k in TextKeys || k == "port") && k in fields) &&
      (forall k :: k in TextKeys && k in fields ==>
         Sanitize(fields[k], k, 255).Ok? && k in data && data[k] == JStr(Sanitize(fields[k], k, 255).value)) &&
      ("host" in data ==> data["host"].JStr? && ValidateHost(data["host"].s)) &&
      ("port" in data ==> data["port"].JInt? && 1 <= data["port"].i <= 65535 && ToInt(fields["port"]) == Some(data["port"].i))
  {
    var fields := body.value.fields;
    var c := CollectFrom(fields, TextKeys, Text(255), Ok(map[]));
    assert c.Ok? && HostOk(c.value);
    CollectFromData(fields, TextKeys, Text(255), map[]);
    assert "port" !in TextKeys;
    var data := ModelValidation(body, required).value;
    if "port" in fields {
      assert data == c.value["port" := JInt(PortField(fields["port"]).value)];
    } else {
      assert data == c.value;
    }
  }

  /** The host is tested after cleaning, where `validate_host` as written
      and the whole-string match agree. */
  lemma SanitizedHostCheck(value: Json)
    requires Sanitize(value, "host", 255).Ok?
    ensures var h := Sanitize(value, "host", 255).value;
      ValidateHostAsWritten(h) == ValidateHost(h)
  {
    SanitizedIsClean(value, "host", 255);
    AsWrittenAgreesOnStripped(Sanitize(value, "host", 255).value);
  }

  // ---------------------------------------------------------------------
  // The model table, _active_backend_engine and _connector_for_model
  // ---------------------------------------------------------------------

  /** The columns of a model row the agent validator reads. */
  datatype ModelRow = ModelRow(id: int, status: string, engine: Option<string>, backend: string)

  function RowOf(m: Model): ModelRow
    reads m
  {
    ModelRow(m.id, m.status, m.engine, m.backend)
  }

  /** `db.session.get(Model, id)` over the rows of the table. */
  function FindRow(rows: seq<ModelRow>, id: int): (r: Option<ModelRow>)
    ensures r.Some? ==> r.value in rows && r.value.id == id
    ensures r.None? <==> forall row :: row in rows ==> row.id != id
  {
    if rows == [] then None
    else if rows[0].id == id then Some(rows[0])
    else FindRow(rows[1..], id)
  }

  /** The green model with the smallest id, the first one
      `filter_by(status="green").order_by(Model.id.asc()).first()` gives. */
  function ActiveRow(rows: seq<ModelRow>): (r: Option<ModelRow>)
    ensures r.None? <==> forall row :: row in rows ==> row.status != "green"
    ensures r.Some? ==> (r.value in rows && r.value.status == "green" &&
      forall row :: row in rows && row.status == "green" ==> r.value.id <= row.id)
  {
    if rows == [] then None
    else
      var rest := ActiveRow(rows[1..]);
      assert forall row :: row in rows ==> row == rows[0] || row in rows[1..];
      if rows[0].status == "green" && (rest.None? || rows[0].id <= rest.value.id) then Some(rows[0])
      else rest
  }

  /** `_active_backend_engine()`: the lower-cased engine (else backend) of
      the first green model, or `None` when no model is green. */
  function ActiveBackendEngine(rows: seq<ModelRow>): (r: Option<string>)
    ensures r.None? <==> forall row :: row in rows ==> row.status != "green"
    ensures r.Some? ==> (exists row :: (row in rows && row.status == "green" &&
      (forall other :: other in rows && other.status == "green" ==> row.id <= other.id) &&
      r.value == EngineName(row.engine, row.backend)))
  {
    match ActiveRow(rows)
    case None => None
    case Some(row) => Some(EngineName(row.engine, row.backend))
  }

  /** `_connector_for_model`: `ollama`, `mlx`, or `tensorrt`/`tensorrt_llm`
      by the lower-cased engine (else backend); anything else is the
      `ValueError` naming the backend. */
  function SetupConnector(engine: Option<string>, backend: string): (r: Result<ConnectorKind, string>)
    ensures r == Ok(Ollama) <==> EngineName(engine, backend) == "ollama"
    ensures r == Ok(Mlx) <==> EngineName(engine, backend) == "mlx"
    ensures r == Ok(TensorRT) <==> EngineName(engine, backend) in {"tensorrt", "tensorrt_llm"}
    ensures r.Err? ==> r.error == "Unsupported backend: " + backend
  {
    var name := EngineName(engine, backend);
    if name == "ollama" then Ok(Ollama)
    else if name == "mlx" then Ok(Mlx)
    else if name == "tensorrt" || name == "tensorrt_llm" then Ok(TensorRT)
    else Err("Unsupported backend: " + backend)
  }

  /** The setup views and the status service pick the same connector for
      every name but `tensorrt-llm`, which only the status service accepts. */
  lemma ConnectorChoicesAgree(engine: Option<string>, backend: string)
    ensures EngineName(engine, backend) != "tensorrt-llm" ==>
      SetupConnector(engine, backend) == ModelConnector(engine, backend)
    ensures EngineName(engine, backend) == "tensorrt-llm" ==>
      SetupConnector(engine, backend).Err? && ModelConnector(engine, backend) == Ok(TensorRT)
  {
    var name := EngineName(engine, backend);
    if name == "tensorrt-llm" {
      assert name != "tensorrt" && name != "tensorrt_llm" && name != "ollama" && name != "mlx";
    }
  }

  // ---------------------------------------------------------------------
  // _validate_agent_payload
  // ---------------------------------------------------------------------

  /** `int(value)` of the `model_id` field: the id of an existing model
      whose engine matches the active engine, when there is one. */
  function ModelIdField(value: Json, rows: seq<ModelRow>): (r: Result<Json, string>)
    ensures r.Ok? <==> (ToInt(value).Some? && FindRow(rows, ToInt(value).value).Some? &&
      var row := FindRow(rows, ToInt(value).value).value;
      var active := ActiveBackendEngine(rows);
      (active.None? || active.value == "" || EngineName(row.engine, row.backend) == active.value))
    ensures r.Ok? ==> r.value == JInt(ToInt(value).value)
    ensures ToInt(value).None? ==> r == Err("model_id must be an integer")
    ensures ToInt(value).Some? && FindRow(rows, ToInt(value).value).None? ==> r == Err("model_id does not exist")
  {
    match ToInt(value)
    case None => Err("model_id must be an integer")
    case Some(id) =>
      match FindRow(rows, id)
      case None => Err("model_id does not exist")
      case Some(row) =>
        var active := ActiveBackendEngine(rows);
        if active.Some? && active.value != "" && EngineName(row.engine, row.backend) != active.value
        then Err("Engine mismatch")
        else Ok(JInt(id))
  }

  /** `int(value)` of the `max_tokens` field, at least 1. */
  function MaxTokensField(value: Json): (r: Result<Json, string>)
    ensures r.Ok? <==> ToInt(value).Some? && ToInt(value).value >= 1
    ensures r.Ok? ==> r.value == JInt(ToInt(value).value)
    ensures ToInt(value).None? ==> r == Err("max_tokens must be an integer")
    ensures ToInt(value).Some? && r.Err? ==> r == Err("max_tokens must be greater than 0")
  {
    match ToInt(value)
    case None => Err("max_tokens must be an integer")
    case Some(n) => if n < 1 then Err("max_tokens must be greater than 0") else Ok(JInt(n))
  }

  /** `float(value)` of the `temperature` field, within [0, 2]; an infinite
      or NaN value fails the range test. */
  function TemperatureField(value: Json): (r: Result<Json, string>)
    ensures r.Ok? <==> ToFloat(value).Some? && ToFloat(value).value.Finite? && 0.0 <= ToFloat(value).value.r <= 2.0
    ensures r.Ok? ==> r.value == JFloat(ToFloat(value).value.r)
    ensures ToFloat(value).None? ==> r == Err("temperature must be a number")
    ensures ToFloat(value).Some? && r.Err? ==> r == Err("temperature must be between 0 and 2")
  {
    match ToFloat(value)
    case None => Err("temperature must be a number")
    case Some(NonFinite) => Err("temperature must be between 0 and 2")
    case Some(Finite(t)) => if 0.0 <= t <= 2.0 then Ok(JFloat(t)) else Err("temperature must be between 0 and 2")
  }

  /** The fields of an agent payload, checked in the order name, model_id,
      system_prompt, max_tokens, temperature. */
  function AgentData(fields: map<string, Json>, rows: seq<ModelRow>): Validation
  {
    var name := Field(fields, "name", Text(255), Ok(map[]));
    var model := Field(fields, "model_id", ModelId(rows), name);
    var prompt := Field(fields, "system_prompt", Text(12000), model);
    var tokens := Field(fields, "max_tokens", MaxTokens, prompt);
    Field(fields, "temperature", Temperature, tokens)
  }

  /** What `_validate_agent_payload(body, required)` returns when the model
      table holds `rows`. */
  function AgentValidation(body: Option<Json>, required: seq<string>, rows: seq<ModelRow>): Validation
  {
    if body.None? || !body.value.JObj? then Err(InvalidPayload)
    else
      var missing := MissingFields(body.value, required).value;
      if missing != [] then Err(MissingMessage(missing))
      else AgentData(body.value.fields, rows)
  }

  /** `_validate_agent_payload`: the name, the model, the system prompt,
      `max_tokens` and `temperature` are checked in this order and the
      first failure is returned. */
  method ValidateAgentPayload(body: Option<Json>, required: seq<string>, rows: seq<ModelRow>) returns (r: Validation)
    ensures r == AgentValidation(body, required, rows)
  {
    if body.None? || !body.value.JObj? {
      return Err(InvalidPayload);
    }
    var missing := MissingFields(body.value, required).value;
    if missing != [] {
      return Err(MissingMessage(missing));
    }
    r := CheckAgentFields(body.value.fields, rows);
  }

  /** The field checks of `_validate_agent_payload`, in its order; each
      check returns early with its error, which the later steps pass on. */
  method CheckAgentFields(fields: map<string, Json>, rows: seq<ModelRow>) returns (r: Validation)
    ensures r == AgentData(fields, rows)
  {
    r := CheckField(fields, "name", Text(255), Ok(map[]));
    r := CheckField(fields, "model_id", ModelId(rows), r);
    r := CheckField(fields, "system_prompt", Text(12000), r);
    r := CheckField(fields, "max_tokens", MaxTokens, r);
    r := CheckField(fields, "temperature", Temperature, r);
  }

  /** One field check of a validator: an absent field is skipped, a present
      one is converted into the data or ends the validation with its
      error. */
  method CheckField(fields: map<string, Json>, key: string, c: Check, acc: Validation) returns (r: Validation)
    ensures r == Field(fields, key, c, acc)
  {
    if acc.Err? || key !in fields {
      return acc;
    }
    var value := fields[key];
    var converted: Result<Json, string>;
    match c {
      case Text(n) =>
        var s := Sanitize(value, key, n);
        if s.Err? {
          return Err(s.error);
        }
        converted := Ok(JStr(s.value));
      case ModelId(table) =>
        converted := ModelIdField(value, table);
      case MaxTokens =>
        converted := MaxTokensField(value);
      case Temperature =>
        converted := TemperatureField(value);
    }
    if converted.Err? {
      return Err(converted.error);
    }
    r := Ok(acc.value[key := converted.value]);
  }

  /** An agent payload that is not an object, or that lacks required
      fields, is refused before any field is checked. */
  lemma AgentValidationRefusals(body: Option<Json>, required: seq<string>, rows: seq<ModelRow>)
    ensures body.None? || !body.value.JObj? ==> AgentValidation(body, required, rows) == Err(InvalidPayload)
    ensures body.Some? && body.value.JObj? && (exists k :: k in required && k !in body.value.fields) ==>
      var m := MissingFields(body.value, required).value;
      AgentValidation(body, required, rows) == Err(MissingMessage(m)) && Sorted(m) &&
      (forall k :: k in m <==> k in required && k !in body.value.fields)
  {
  }

  /** A field passes when it is absent or its check accepts it. */
  predicate Passes(fields: map<string, Json>, key: string, c: Check) {
    key !in fields || Convert(c, key, fields[key]).Ok?
  }

  /** The first failing field decides the error: the name, then the model
      (not an integer, unknown, then engine mismatch), then the system
      prompt, then `max_tokens`, then `temperature`; with none failing the
      data is accepted. */
  lemma AgentDataFirstFailure(fields: map<string, Json>, rows: seq<ModelRow>)
    ensures var r := AgentData(fields, rows);
      (!Passes(fields, "name", Text(255)) ==>
         r == Err(Sanitize(fields["name"], "name", 255).error)) &&
      (Passes(fields, "name", Text(255)) && !Passes(fields, "model_id", ModelId(rows)) ==>
         r == Err(ModelIdField(fields["model_id"], rows).error)) &&
      (Passes(fields, "name", Text(255)) && Passes(fields, "model_id", ModelId(rows)) &&
       !Passes(fields, "system_prompt", Text(12000)) ==>
         r == Err(Sanitize(fields["system_prompt"], "system_prompt", 12000).error)) &&
      (Passes(fields, "name", Text(255)) && Passes(fields, "model_id", ModelId(rows)) &&
       Passes(fields, "system_prompt", Text(12000)) && !Passes(fields, "max_tokens", MaxTokens) ==>
         r == Err(MaxTokensField(fields["max_tokens"]).error)) &&
      (Passes(fields, "name", Text(255)) && Passes(fields, "model_id", ModelId(rows)) &&
       Passes(fields, "system_prompt", Text(12000)) && Passes(fields, "max_tokens", MaxTokens) &&
       !Passes(fields, "temperature", Temperature) ==>
         r == Err(TemperatureField(fields["temperature"]).error)) &&
      (r.Ok? <==> (Passes(fields, "name", Text(255)) && Passes(fields, "model_id", ModelId(rows)) &&
         Passes(fields, "system_prompt", Text(12000)) && Passes(fields, "max_tokens", MaxTokens) &&
         Passes(fields, "temperature", Temperature)))
  {
  }

  /** Accepted agent data holds exactly the recognised fields the payload
      has: the name and prompt cleaned, an existing model on the active
      engine, at least one token and a temperature in [0, 2]. */
  lemma AgentDataAccepted(fields: map<string, Json>, rows: seq<ModelRow>)
    requires AgentData(fields, rows).Ok?
    ensures var data := AgentData(fields, rows).value;
      (forall k :: k in data <==> k in AgentKeys && k in fields) &&
      ("name" in data ==> (Sanitize(fields["name"], "name", 255).Ok? &&
         data["name"] == JStr(Sanitize(fields["name"], "name", 255).value))) &&
      ("system_prompt" in data ==> (Sanitize(fields["system_prompt"], "system_prompt", 12000).Ok? &&
         data["system_prompt"] == JStr(Sanitize(fields["system_prompt"], "system_prompt", 12000).value))) &&
      ("model_id" in data ==> data["model_id"].JInt? && FindRow(rows, data["model_id"].i).Some?) &&
      ("max_tokens" in data ==> data["max_tokens"].JInt? && data["max_tokens"].i >= 1) &&
      ("temperature" in data ==> data["temperature"].JFloat? && 0.0 <= data["temperature"].f <= 2.0)
  {
    var name := Field(fields, "name", Text(255), Ok(map[]));
    FieldAdds(fields, "name", Text(255), map[]);
    var model := Field(fields, "model_id", ModelId(rows), name);
    FieldAdds(fields, "model_id", ModelId(rows), name.value);
    var prompt := Field(fields, "system_prompt", Text(12000), model);
    FieldAdds(fields, "system_prompt", Text(12000), model.value);
    var tokens := Field(fields, "max_tokens", MaxTokens, prompt);
    FieldAdds(fields, "max_tokens", MaxTokens, prompt.value);
    FieldAdds(fields, "temperature", Temperature, tokens.value);
  }

  /** A field that passes adds its converted value under its key, when the
      payload has it, and keeps the rest of the data. */
  lemma FieldAdds(fields: map<string, Json>, key: string, c: Check, acc: map<string, Json>)
    requires Field(fields, key, c, Ok(acc)).Ok?
    ensures var d := Field(fields, key, c, Ok(acc)).value;
      (forall k :: k in d <==> k in acc || (k == key && key in fields)) &&
      (key in fields ==> Convert(c, key, fields[key]).Ok? && d[key] == Convert(c, key, fields[key]).value) &&
      (forall k :: k in acc && k != key ==> d[k] == acc[k])
  {
  }

  /** An accepted model id names a model on the engine of the active
      (first green) model, when that engine is named. */
  lemma AgentDataSameEngine(fields: map<string, Json>, rows: seq<ModelRow>)
    requires AgentData(fields, rows).Ok? && "model_id" in fields
    ensures var data := AgentData(fields, rows).value;
      "model_id" in data && data["model_id"].JInt? && FindRow(rows, data["model_id"].i).Some? &&
      var row := FindRow(rows, data["model_id"].i).value;
      var active := ActiveBackendEngine(rows);
      (active.None? || active.value == "" || EngineName(row.engine, row.backend) == active.value)
  {
  }

  // ---------------------------------------------------------------------
  // _refresh_model_status
  // ---------------------------------------------------------------------

  /** A connector's `list_models()`: the loaded model names, or the text of
      the `ConnectorError` it raises. */
  type Listing = ConnectorKind -> Result<seq<string>, string>

  /** The connector calls of a refresh: choosing the connector, `probe()`,
      then `list_models()`; the listing, or the text of the first error. */
  function EngineCheck(engine: Option<string>, backend: string, probe: ConnectorKind -> Probe, listModels: Listing)
    : (r: Result<seq<string>, string>)
    ensures r.Ok? <==> (SetupConnector(engine, backend).Ok? &&
      probe(SetupConnector(engine, backend).value).ProbeOk? && listModels(SetupConnector(engine, backend).value).Ok?)
    ensures r.Ok? ==> r == listModels(SetupConnector(engine, backend).value)
  {
    match SetupConnector(engine, backend)
    case Err(e) => Err(e)
    case Ok(kind) =>
      match probe(kind)
      case ProbeFailed(e) => Err(e)
      case ProbeOk => listModels(kind)
  }

  /** The fields a refresh writes on a model. */
  datatype Refresh = Refresh(status: string, warmStatus: string, message: string)

  /** `_refresh_model_status` given what the connector calls gave: green
      with message `ok` when they all succeeded, red with the error text
      (or `connection failed` for an empty one) otherwise; the warm status
      becomes the `load_state` computed from the old warm status and the
      listing (empty when red). */
  function Refreshed(warmStatus: string, modelName: string, check: Result<seq<string>, string>): (r: Refresh)
    ensures r.status == "green" <==> check.Ok?
    ensures r.status == "green" || r.status == "red"
    ensures r.message != "" && (check.Ok? ==> r.message == "ok")
    ensures check.Err? && check.error != "" ==> r.message == check.error
    ensures r.warmStatus == "warm" || r.warmStatus == "cold" || r.warmStatus == "not_present"
    ensures r.warmStatus == "not_present" <==> warmStatus == "error"
    ensures r.warmStatus == "warm" <==> warmStatus != "error" && check.Ok? && (modelName in check.value || warmStatus == "warm")
  {
    var ok := check.Ok?;
    var loaded := if ok then check.value else [];
    var state := ComputeModelStatus(warmStatus, modelName, ok, loaded);
    Refresh(if ok then "green" else "red",
            LoadStateName(state.loadState),
            if ok then "ok" else if check.error == "" then "connection failed" else check.error)
  }

  /** `_refresh_model_status(model)` at time `now`. */
  method RefreshModelStatus(model: Model, now: Time, probe: ConnectorKind -> Probe, listModels: Listing)
    modifies model
    ensures var r := Refreshed(old(model.warmStatus), model.modelName,
                               EngineCheck(model.engine, model.backend, probe, listModels));
      model.status == r.status && model.warmStatus == r.warmStatus &&
      model.lastEngineCheckAt == Some(now) && model.lastEngineMessage == Some(r.message)
    ensures model.Identity() == old(model.Identity())
    ensures model.lastLoadAttemptAt == old(model.lastLoadAttemptAt) && model.lastLoadMessage == old(model.lastLoadMessage)
  {
    var check := EngineCheck(model.engine, model.backend, probe, listModels);
    var r := Refreshed(model.warmStatus, model.modelName, check);
    model.SetEngineCheck(now, r.message);
    model.status := r.status;
    model.warmStatus := r.warmStatus;
  }

  // ---------------------------------------------------------------------
  // _agent_to_dict
  // ---------------------------------------------------------------------

  /** The colour each aggregate agent status is shown in. */
  function EffectiveStatus(s: AgentStatus): (c: string)
    ensures c == "green" <==> s == Ready
    ensures c == "yellow" <==> s == PartiallyReady
    ensures c == "red" <==> s == NotReady
    ensures c == "gray" <==> s == Disabled
  {
    match s
    case Ready => "green"
    case PartiallyReady => "yellow"
    case NotReady => "red"
    case Disabled => "gray"
  }

  /** The dict `_agent_to_dict` returns. */
  datatype AgentView = AgentView(
    id: int, name: string, modelId: int, modelName: Option<string>, engine: Option<string>,
    systemPrompt: string, maxTokens: int, temperature: real, status: string,
    modelStatus: string, effectiveStatus: string, aggregateStatus: AgentStatus)

  /** `_agent_to_dict(agent)`: the engine counts as reachable when the
      model is green and the model as warm when its warm status is `warm`,
      so the load state is only ever warm or cold. */
  function AgentToDict(agent: Agent): (v: AgentView)
    reads agent, agent.model
    ensures v.effectiveStatus == EffectiveStatus(v.aggregateStatus)
    ensures v.aggregateStatus == Disabled <==> agent.status == "disabled"
    ensures v.aggregateStatus == Ready <==>
      agent.status != "disabled" && agent.model != null && agent.model.status == "green" && agent.model.warmStatus == "warm"
    ensures v.aggregateStatus == NotReady <==>
      agent.status != "disabled" && agent.model != null && agent.model.status == "green" && agent.model.warmStatus != "warm"
    ensures v.aggregateStatus == PartiallyReady <==>
      agent.status != "disabled" && (agent.model == null || agent.model.status != "green")
    ensures v.modelStatus == (if agent.model == null then "red" else agent.model.status)
    ensures agent.model == null ==> v.modelName.None? && v.engine.None?
    ensures agent.model != null ==> v.modelName == Some(agent.model.name) && v.engine == agent.model.engine
    ensures v.modelId == agent.modelId && v.id == agent.id && v.name == agent.name && v.systemPrompt == agent.systemPrompt &&
      v.maxTokens == agent.maxTokens && v.temperature == agent.temperature && v.status == agent.status
  {
    var m := agent.model;
    var reachable := m != null && m.status == "green";
    var load := if m != null && m.warmStatus == "warm" then Warm else Cold;
    var aggregate := ComputeAgentStatus(agent.status, load, reachable);
    AgentView(agent.id, agent.name, agent.modelId,
              if m == null then None else Some(m.name),
              if m == null then None else m.engine,
              agent.systemPrompt, agent.maxTokens, agent.temperature, agent.status,
              if m == null then "red" else m.status,
              EffectiveStatus(aggregate), aggregate)
  }

  // ---------------------------------------------------------------------
  // Tooltips and the warm/reload outcome
  // ---------------------------------------------------------------------

  const ModelMissingTip: string := "Model files not found on host. Add model files or update model path."
  const ModelColdTip: string := "Model present on disk but not loaded in engine. Click to load."
  const ModelWarmTip: string := "Model loaded in inference engine (cached). Last loaded "

  /** The model tooltip of `get_model_status_v1`; `lastLoaded` is the
      rendered time of the last load attempt. */
  function ModelTooltip(state: LoadState, lastLoaded: string): (t: string)
    ensures state == NotPresent ==> t == ModelMissingTip
    ensures state == Cold ==> t == ModelColdTip
    ensures state == Warm ==>
      ModelWarmTip <= t && |t| == |ModelWarmTip| + |lastLoaded| + 1 &&
      t[|ModelWarmTip|..|t| - 1] == lastLoaded && t[|t| - 1] == '.'
  {
    match state
    case NotPresent => ModelMissingTip
    case Cold => ModelColdTip
    case Warm =>
      var t := ModelWarmTip + lastLoaded + ".";
      assert t[|ModelWarmTip|..|t| - 1] == lastLoaded;
      t
  }

  const EngineReachableTip: string := "Inference engine reachable. Last checked "
  const EngineUnreachableTip: string := "Inference engine unreachable at "

  /** The engine tooltip of `get_model_status_v1`; `lastChecked` is the
      rendered time of the last engine check. */
  function EngineTooltip(engine: EngineState, lastChecked: string): (t: string)
    ensures engine.reachable ==> EngineReachableTip <= t
    ensures !engine.reachable ==> EngineUnreachableTip + engine.host <= t
  {
    if engine.reachable then EngineReachableTip + lastChecked + "."
    else EngineUnreachableTip + engine.host + ". Last checked " + lastChecked + ". Click for diagnostics and retry."
  }

  /** The engine tooltip says whether the engine is reachable. */
  lemma EngineTooltipNamesReachability(engine: EngineState, lastChecked: string)
    ensures EngineReachableTip <= EngineTooltip(engine, lastChecked) <==> engine.reachable
  {
    var t := EngineTooltip(engine, lastChecked);
    if !engine.reachable {
      assert t[17] == EngineUnreachableTip[17] == 'u';
      assert EngineReachableTip[17] == 'r';
    }
  }

  /** The tooltip `get_agent_status_v1` shows for each agent status. */
  function AgentTooltip(s: AgentStatus): string
  {
    match s
    case Ready => "Agent ready to accept queries: engine reachable and model loaded."
    case PartiallyReady => "Agent is configured but runtime unavailable (engine unreachable or model not loaded). Click for diagnostics."
    case NotReady => "Agent cannot run (model missing or configuration error). Click to view error."
    case Disabled => "Agent is disabled."
  }

  /** How a warm or reload call reports `warm_model`'s result. */
  datatype LoadOutcome = LoadOutcome(ok: bool, message: string)

  function LoadResult(status: string): (r: LoadOutcome)
    ensures r.ok <==> status == "warm"
    ensures r.message == "loaded ok" <==> r.ok
    ensures !r.ok ==> r.message == "failed to load"
  {
    if status == "warm" then LoadOutcome(true, "loaded ok") else LoadOutcome(false, "failed to load")
  }

  /** The reply of a warm or reload call: the model, `warm_model`'s result
      and the message recorded for it. */
  datatype LoadReply = LoadReply(modelId: int, status: string, message: string)

  /** Loading `model`: `warm_model` left `status` as its warm status and
      returned it; the attempt is recorded with the message for it. */
  method LoadModel(model: Model, logs: StatusLogs, status: string, now: Time) returns (reply: LoadReply)
    requires logs.Valid()
    modifies model, logs
    ensures logs.Valid()
    ensures reply == LoadReply(model.id, status, LoadResult(status).message)
    ensures model.warmStatus == status && model.status == old(model.status)
    ensures model.lastLoadAttemptAt == Some(now) && model.lastLoadMessage == Some(LoadResult(status).message)
    ensures logs.history == old(logs.history)[LogKey(model.id) :=
      old(logs.History(LogKey(model.id))) + [LogEntry(now, LoadLogText(LoadResult(status).ok, LoadResult(status).message))]]
    ensures model.Identity() == old(model.Identity())
    ensures model.lastEngineCheckAt == old(model.lastEngineCheckAt) && model.lastEngineMessage == old(model.lastEngineMessage)
  {
    model.warmStatus := status;
    var outcome := LoadResult(status);
    RecordModelLoad(model, logs, outcome.ok, outcome.message, now);
    reply := LoadReply(model.id, status, outcome.message);
  }

  /** What loading `model` leaves behind, as `LoadModel` states it: the warm
      status, the attempt's time and message, one more log line for the
      model, and the rest of the row as it was. */
  twostate predicate Loaded(model: Model, logs: StatusLogs, status: string, now: Time)
    reads model, logs
  {
    model.warmStatus == status && model.status == old(model.status) &&
    model.lastLoadAttemptAt == Some(now) && model.lastLoadMessage == Some(LoadResult(status).message) &&
    model.lastEngineCheckAt == old(model.lastEngineCheckAt) && model.lastEngineMessage == old(model.lastEngineMessage) &&
    model.Identity() == old(model.Identity()) &&
    logs.history == old(logs.history)[LogKey(model.id) :=
      old(logs.History(LogKey(model.id))) + [LogEntry(now, LoadLogText(LoadResult(status).ok, LoadResult(status).message))]]
  }

  /** `warm_model_endpoint`: `model_id` from the body must convert with
      `int()` (400) and name a model (404); `status` is what `warm_model`
      returns for it. A body that is not an object raises. */
  method WarmModelEndpoint(body: Option<Json>, models: map<int, Model>, logs: StatusLogs, status: string, now: Time)
    returns (r: Result<LoadReply, ApiError>)
    requires logs.Valid()
    requires forall id :: id in models ==> models[id].id == id
    modifies models.Values, logs
    ensures logs.Valid()
    ensures var payload := RequestPayload(body);
      !payload.JObj? ==> r == Err(Raised)
    ensures var payload := RequestPayload(body);
      payload.JObj? ==>
        var id := ToInt(GetOr(payload.fields, "model_id", JNull));
        (id.None? ==> r == Err(Reject(400, "model_id must be an integer"))) &&
        (id.Some? && id.value !in models ==> r == Err(Reject(404, "Model not found"))) &&
        (id.Some? && id.value in models ==>
           r == Ok(LoadReply(id.value, status, LoadResult(status).message)) &&
           Loaded(models[id.value], logs, status, now) &&
           forall other :: other in models && other != id.value ==> unchanged(models[other]))
    ensures r.Err? ==> unchanged(logs) && forall other :: other in models ==> unchanged(models[other])
  {
    var payload := RequestPayload(body);
    if !payload.JObj? {
      return Err(Raised);
    }
    var id := ToInt(GetOr(payload.fields, "model_id", JNull));
    if id.None? {
      return Err(Reject(400, "model_id must be an integer"));
    }
    if id.value !in models {
      return Err(Reject(404, "Model not found"));
    }
    var model := models[id.value];
    var reply := LoadModel(model, logs, status, now);
    return Ok(reply);
  }

  /** `reload_model_v1`: the model named in the path must exist (404);
      otherwise it is loaded as by the warm endpoint. */
  method ReloadModel(modelId: int, models: map<int, Model>, logs: StatusLogs, status: string, now: Time)
    returns (r: Result<LoadReply, ApiError>)
    requires logs.Valid()
    requires forall id :: id in models ==> models[id].id == id
    modifies models.Values, logs
    ensures logs.Valid()
    ensures modelId !in models ==> r == Err(Reject(404, "Model not found"))
    ensures modelId in models ==>
      r == Ok(LoadReply(modelId, status, LoadResult(status).message)) &&
      Loaded(models[modelId], logs, status, now) &&
      forall other :: other in models && other != modelId ==> unchanged(models[other])
    ensures r.Err? ==> unchanged(logs) && forall other :: other in models ==> unchanged(models[other])
  {
    if modelId !in models {
      return Err(Reject(404, "Model not found"));
    }
    var reply := LoadModel(models[modelId], logs, status, now);
    return Ok(reply);
  }
}
