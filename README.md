# bench_duo core, modelled in Dafny

bench_duo is a Flask application for benchmarking local language-model
endpoints (Ollama, MLX, TensorRT-LLM). Users register **models** (an
inference endpoint plus a model name) and **agents** (a model with a system
prompt, a token budget and a temperature), run two agents against each
other in **batch jobs** or in an interactive **chat**, and have finished
conversations scored by a panel of **judge** models whose verdicts an
**aggregator** combines.

This project models the core of that application:

- `security.dfy` (`Security`): `sanitize_text_input` and `validate_host`.
- `status_service.dfy` (`StatusService`): the engine and model status
  decision tables, the bounded status log, engine checks, load records and
  the status payloads.
- `setup.dfy` (`Setup`): the setup endpoints' validators for model and agent
  payloads, the status refresh, the agent summary, the connector choice,
  the active engine, the v1 tooltips and the warm and reload calls.
- `batch.dfy` (`Batch`) and `turns.dfy` (`Turns`): the batch worker's
  alternating conversation loop, token counting, cancellation and the
  checks on a new job's fields.
- `chat.dfy` (`Chat`): the chat start handler and the chat task.
- `evaluator.dfy` (`Evaluator`): transcript rendering, JSON-block
  extraction, judge normalisation and the code aggregate.
- `evaluate.dfy` (`Evaluate`): the evaluation endpoint.
- `pyjson.dfy` (`PyJson`), `text.dfy` (`Text`), `entities.dfy`
  (`Entities`) and `wrappers.dfy` (`Wrappers`) are shared pieces. They
  cover decoded JSON values and Python's `int()`, `float()`, truthiness
  and `in`, plus the string operations the core uses and the database
  rows it updates.

Database rows whose fields the code updates in place are classes
(`Entities.Model`, `Entities.Agent`, `Turns.Conversation`,
`Batch.BatchJob`, `Evaluate.EvaluationJob`, `StatusService.StatusLogs`).
Validators and decision tables are functions over datatypes. The loops of
the source are methods with loop invariants, proved against a function
that states their result; the list comprehension that asks each judge in
turn is the recursive function `Evaluate.RunJudges`, since it only
collects values. The clock, connectors,
the JSON codec and the message queue are parameters of the operations that
use them.

## Model

| member | source | states |
|---|---|---|
| Security.RemoveNul | app/security.py:14 | no NUL character remains; a NUL-free string is unchanged; exactly the NULs are dropped |
| Security.Sanitize | app/security.py:10-19 | a non-string is refused as "must be a string"; an empty cleaned text is refused as "must be a non-empty string"; a text longer than the limit is refused as "is too long"; otherwise the result is the NUL-free, stripped text |
| Security.NoNulSurvivesStrip | app/security.py:14 | stripping never adds a NUL |
| Security.SanitizedIsClean | app/security.py:14-19 | an accepted value has no NUL, is non-empty, is within the limit and has no whitespace at either end |
| Security.SanitizeIdempotent | app/security.py:10-19 | sanitizing a sanitized value returns it unchanged |
| Security.HostCharsAreNotSpace | app/security.py:7 | no character of the host pattern is whitespace |
| Security.ValidateHost | app/security.py:22-38 | a host is accepted iff it is a loopback name, or it matches the host pattern as a whole with no leading or trailing `-` and no `..`; an accepted non-loopback host has no whitespace |
| Security.MatchesHostPatternAsWritten | app/security.py:7 | what `re.match` of the host pattern accepts: the whole string matches, or it is one trailing newline after a whole-string match |
| Security.ValidateHostAsWritten | app/security.py:22-38 | `validate_host` with the pattern as `re.match` applies it; TrailingNewlineAccepted shows the one host it lets through, and AsWrittenAgreesOnStripped that it agrees with ValidateHost on every host without trailing whitespace |
| Security.JoinSplitOn | app/security.py:30 | joining the parts of a split on `c` gives the string back |
| Security.JoinedOctetsShape | app/security.py:30-35 | non-empty, dot-free parts joined on `.` have no `..` and no dot at either end |
| Security.SubstringDoubleDot | app/security.py:35 | a text without adjacent dots does not contain `..` |
| Security.IPv4Shape | app/security.py:29-35 | an IPv4 address also passes the host-name tests, so the address branch never changes the answer |
| Security.OctetHasNoDot | app/security.py:30 | an octet is a non-empty run of digits without a dot |
| Security.JoinChars | app/security.py:30 | digit strings joined on `.` hold only digits and dots |
| Security.AsWrittenAgreesOnStripped | app/security.py:22-38 | on text without trailing whitespace, which is all that sanitized callers pass, the as-written check and the whole-string check agree |
| Security.TrailingNewlineAccepted | app/security.py:7-26 | `"a\n"` passes the check as written and fails the whole-string check |
| PyJson.Or | app/views/setup.py:319 | `a or b` gives `a` when it is truthy and `b` otherwise |
| PyJson.RequestPayload | app/views/setup.py:319 | a missing or falsy body becomes the empty object; a truthy body is kept |
| PyJson.TruncateReal | app/views/setup.py:147 | `int()` of a float truncates toward zero |
| PyJson.ToInt | app/views/setup.py:147-149 | `int()` of an int, bool, float or numeric string; `None` for null, lists and objects |
| PyJson.ToFloat | app/views/setup.py:212-215 | `float()` of ints and floats is finite; null, lists and objects give `None` |
| PyJson.Subscript | app/views/setup.py:147 | `v[key]` is defined exactly for an object holding the key, and gives its value |
| PyJson.GetOr | app/views/setup.py:136 | `get` with a default gives the stored value or the default |
| PyJson.Absent | app/views/setup.py:129 | the required keys the payload lacks, no more and no fewer |
| PyJson.MissingFields | app/views/setup.py:129 | the missing fields are sorted and are exactly the required fields the payload lacks; `None` when the membership test raises |
| PyJson.MissingIffAbsent | app/views/setup.py:129 | the missing-field list is present and non-empty exactly when the payload supports `in` and lacks a required key |
| PyJson.IntField | app/views/evaluate.py:23-31 | `int(payload[key])` is defined only for a present key, and is `int()` of its value |
| PyJson.Str | app/views/evaluate.py:45-50 | `str()` of strings, integers, booleans and `None` |
| PyJson.ToIntOfRenderedInt | app/views/evaluate.py:23-31 | `int(str(i))` gives `i` back |
| Entities.Model.SetEngineCheck | app/services/status_service.py:60-61 | records the check time and message and changes nothing else |
| Entities.Model.SetLoadAttempt | app/services/status_service.py:181-182 | records the load time and message and changes nothing else |
| Entities.Model.constructor | app/views/setup.py:241-243 | a model row created from its columns (`Model(**payload)`), with no engine check and no load attempt yet |
| Entities.Agent.constructor | app/views/setup.py:407 | an agent row created from its columns (`Agent(**validation.data)`), with the given `model_id`, model and settings |
| StatusService.LoadStateName | app/services/status_service.py:102-122 | no load state is named `"error"` |
| StatusService.TextOr | app/services/status_service.py:34 | `a or b` on optional text: `a` when it is non-empty, else `b` |
| StatusService.EngineName | app/services/status_service.py:34 | the engine, or the backend when the engine is missing or empty, lower-cased; ModelConnector and ConnectorChoicesAgree state the choices that depend on it |
| StatusService.ModelConnector | app/services/status_service.py:33-41 | the lower-cased engine, else the backend, selects Ollama, MLX or TensorRT (three spellings); anything else is refused naming the backend |
| StatusService.ComputeModelStatus | app/services/status_service.py:92-123 | not on disk iff `warm_status` is `"error"`; warm iff on disk, the engine is reachable and the model is listed or was warmed; loaded iff warm |
| StatusService.ModelStatusRows | app/services/status_service.py:93-123 | the four rows of the decision table, each in full |
| StatusService.ComputeAgentStatus | app/services/status_service.py:126-134 | disabled iff the agent is; ready iff warm and reachable; partially ready iff present and unreachable; not ready otherwise |
| StatusService.ReadyNeedsWarmAndReachable | app/services/status_service.py:92-134 | an agent is ready iff it is enabled, its model's files exist, the engine is reachable, and the model is listed or was warmed |
| StatusService.GetEngineState | app/services/status_service.py:82-89 | reachable iff the model is green; the message is never empty and is the stored message when there is one |
| StatusService.CheckMessage | app/services/status_service.py:59-70 | `"ok"` after a successful probe, else the error text; never empty |
| StatusService.LastN | app/services/status_service.py:10 | the last `n` elements, or all of them when there are fewer |
| StatusService.LastNAppend | app/services/status_service.py:10-46 | appending to a buffer of the last `n` entries keeps it the last `n` entries of the longer history |
| StatusService.SliceFromEnd | app/services/status_service.py:50 | `xs[-limit:]` for positive, zero and negative limits |
| StatusService.BufferedUpdate | app/services/status_service.py:10-46 | the bounded-log invariant survives replacing one key's history and buffer |
| StatusService.StatusLogs.constructor | app/services/status_service.py:10 | the logs start empty |
| StatusService.StatusLogs.Entries | app/services/status_service.py:10 | a key's buffer holds at most 50 entries |
| StatusService.StatusLogs.Append | app/services/status_service.py:44-46 | appends the entry to the key's history, keeps the last 50 in its buffer, and the entry is the newest |
| StatusService.StatusLogs.RecentIsNewest | app/services/status_service.py:49-50 | for a limit up to 50, the recent entries are the newest `limit` entries ever logged, in order |
| StatusService.CheckEngine | app/services/status_service.py:53-79 | reachable iff the connector is found and its probe succeeds; records the check time and message; appends one log line; changes nothing else on the model |
| StatusService.RecordModelLoad | app/services/status_service.py:179-183 | records the load time and message, appends one log line, and changes nothing else on the model |
| StatusService.FetchLoaded | app/services/status_service.py:137-142 | the connector's listing, or `[]` when the lookup or the listing fails |
| StatusService.BuildModelStatusPayload | app/services/status_service.py:145-157 | ensures `ModelPayloadOf`: unforced, the cached engine state, with the check fields and the log unchanged; forced, a fresh check whose time and message are stored on the row and whose one line is appended to that model's log; the model status is computed from the engine state and from the listing, which is fetched only when reachable; never warm when unreachable; the load fields are the row's; the recent lines are the newest lines of that model's log; the row's other columns are kept |
| StatusService.BuildAgentStatusPayload | app/services/status_service.py:160-176 | an agent whose model row is gone raises (`None`) and changes neither the logs nor any row; otherwise `AgentPayloadFor`: the model part and the new state of the model row and the logs are exactly what `build_model_status_payload` promises (`ModelPayloadOf`), and the agent part carries the agent's `model_id` column, is enabled iff not disabled, has its status computed from the model payload, is ready only when reachable and loaded, and names the status in its message |
| StatusService.AgentStatusOfModel | app/services/status_service.py:160-176 | the payload for an agent of a present model satisfies `AgentPayloadFor`: the model payload and new state as `ModelPayloadOf` states, and the agent fields as `AgentFieldsOf` states |
| StatusService.AgentPayloadOf | app/services/status_service.py:166-176 | the agent fields around a model payload: enabled iff not disabled, ready only with a reachable engine that has the model loaded, and the message naming the status |
| Setup.CollectFromFailed | app/views/setup.py:134-140 | once a field has failed, the later fields change nothing |
| Setup.CollectFromOk | app/views/setup.py:134-140 | the walk over the text fields succeeds iff every present one converts |
| Setup.CollectFromData | app/views/setup.py:134-140 | a successful walk holds exactly the earlier data plus every present field, each with its converted value |
| Setup.PortField | app/views/setup.py:145-151 | the port is accepted iff `int()` gives a value in 1..65535; otherwise the integer or the range error |
| Setup.ValidateModelPayload | app/views/setup.py:125-153 | the validator's result is the model-validation function's |
| Setup.CleanTextFields | app/views/setup.py:133-140 | the loop over the six text fields gives the walk's result, stopping at the first failure |
| Setup.ModelValidationRefusals | app/views/setup.py:126-131 | a non-object is refused as "Invalid JSON payload"; missing required fields are refused, listed sorted and exactly |
| Setup.ModelValidation | app/views/setup.py:125-156 | `_validate_model_payload` as a value; its refusals and acceptances are stated by ModelValidationRefusals and ModelValidationAccepts |
| Setup.ModelValidationAccepts | app/views/setup.py:125-153 | a model payload is accepted iff it is an object with the required fields, its text fields clean, its host is valid and its port is in range |
| Setup.ModelValidationData | app/views/setup.py:133-153 | accepted data holds exactly the recognised fields the payload has: the text fields cleaned, a valid host, a port in 1..65535 |
| Setup.SanitizedHostCheck | app/views/setup.py:138-142 | on a sanitized host, `validate_host` as written and the whole-string check agree |
| Setup.FindRow | app/views/setup.py:187-189 | the row with the given id, or none when no row has it |
| Setup.ActiveRow | app/views/setup.py:159 | the green row with the smallest id, or none when no row is green |
| Setup.ActiveBackendEngine | app/views/setup.py:158-162 | none iff no model is green; otherwise the lower-cased engine, else backend, of the green model with the smallest id |
| Setup.SetupConnector | app/views/setup.py:86-94 | the lower-cased engine, else backend, selects Ollama, MLX or TensorRT (`tensorrt`, `tensorrt_llm`); anything else is refused naming the backend |
| Setup.ConnectorChoicesAgree | app/views/setup.py:86-94 | this choice and the status service's agree, except that only the latter accepts `tensorrt-llm` |
| Setup.ModelIdField | app/views/setup.py:181-194 | `model_id` is accepted iff it converts, names a model, and that model's engine matches the active engine when there is one; otherwise the integer or the existence error |
| Setup.MaxTokensField | app/views/setup.py:203-209 | `max_tokens` is accepted iff it converts to at least 1; otherwise the integer or the bound error |
| Setup.TemperatureField | app/views/setup.py:211-217 | `temperature` is accepted iff it converts to a finite number in [0, 2]; otherwise the number or the range error |
| Setup.ValidateAgentPayload | app/views/setup.py:164-219 | the validator's result is the agent-validation function's |
| Setup.CheckAgentFields | app/views/setup.py:172-219 | the five field checks in order give the agent-data function's result |
| Setup.CheckField | app/views/setup.py:174-217 | one field check: an absent field is skipped, a present one is added converted, or its error ends the validation |
| Setup.AgentValidationRefusals | app/views/setup.py:165-170 | a non-object is refused as "Invalid JSON payload"; missing required fields are refused, listed sorted and exactly |
| Setup.AgentValidation | app/views/setup.py:164-220 | `_validate_agent_payload` as a value; its refusals and acceptances are stated by AgentValidationRefusals, AgentDataFirstFailure and AgentDataAccepted |
| Setup.AgentDataFirstFailure | app/views/setup.py:174-219 | the first failing check decides the error, in the order name, model, system prompt, `max_tokens`, `temperature`; the data is accepted iff none fails |
| Setup.AgentDataAccepted | app/views/setup.py:172-219 | accepted data holds exactly the recognised fields present: name and prompt cleaned, an existing model, at least one token, a temperature in [0, 2] |
| Setup.FieldAdds | app/views/setup.py:174-217 | a passing field adds its converted value under its key and keeps the rest |
| Setup.AgentDataSameEngine | app/views/setup.py:187-194 | an accepted model is on the active engine, when that engine is named |
| Setup.EngineCheck | app/views/setup.py:102-105 | succeeds iff the connector is found, `probe()` succeeds and `list_models()` succeeds, and then gives the listing |
| Setup.Refreshed | app/views/setup.py:97-116 | green iff the check succeeded; the message is `"ok"`, else the error text, never empty; warm, cold or not present, not present iff the old warm status was `"error"`, warm iff reachable and listed or warmed before |
| Setup.RefreshModelStatus | app/views/setup.py:97-116 | sets the status, warm status, check time and message as the refresh states, and nothing else on the model |
| Setup.EffectiveStatus | app/views/setup.py:64-69 | ready is green, partially ready is yellow, not ready is red, disabled is gray, each in both directions |
| Setup.AgentToDict | app/views/setup.py:56-83 | the summary's status is computed as if the load state were only warm or cold: ready iff green and warm, not ready iff green and not warm, partially ready iff the model is missing or not green; `model_id` is the agent's own column, kept when the model row is gone, and the other fields are copied |
| Setup.ModelTooltip | app/views/setup.py:463-469 | the fixed texts for a missing and a cold model; a warm model's text is the warm prefix, then exactly the rendered last load, then a full stop |
| Setup.EngineTooltip | app/views/setup.py:457-461 | a reachable engine's text, or an unreachable one's naming the host |
| Setup.EngineTooltipNamesReachability | app/views/setup.py:457-461 | the tooltip starts with the reachable text iff the engine is reachable |
| Setup.LoadResult | app/views/setup.py:330-331 | ok iff `warm_model` returned `"warm"`; the message is "loaded ok" iff ok, else "failed to load" |
| Setup.LoadModel | app/views/setup.py:329-332 | sets the warm status, records the load attempt with the message for it, and changes nothing else that identifies the model |
| Setup.WarmModelEndpoint | app/views/setup.py:317-335 | a non-object body raises; a non-integer id is a 400; an unknown id is a 404; otherwise the model is loaded: the attempt time and message are recorded, one line is appended to its log, the reply carries its status and message, and no other model changes; on every error path nothing changes |
| Setup.ReloadModel | app/views/setup.py:524-536 | an unknown id is a 404 and changes nothing; otherwise the model is loaded: the attempt time and message are recorded, one line is appended to its log, the reply carries its status and message, and no other model changes |
| Batch.BatchJob.constructor | app/views/batch.py:208-216 | a new job is queued with nothing run, no times and no cancellation |
| Batch.BatchJob.SetState | app/views/batch.py:119-148 | writes exactly the fields processing and cancelling change |
| Batch.RunSeed | app/views/batch.py:126 | no seed for an unseeded job; otherwise the job's seed plus the run index |
| Batch.RunSeedsDiffer | app/views/batch.py:126 | distinct runs of a seeded job get distinct seeds |
| Batch.RunSingleConversation | app/views/batch.py:37-100 | a fresh conversation holding the prompt and then one message per turn; finished with the token total when no connector raised, left running with the error otherwise |
| Batch.RunTurns | app/views/batch.py:63-94 | the turn loop stores one message per turn of the conversation, keeps the row, and adds every reply's tokens |
| Batch.RunBatchStep | app/views/batch.py:120-143 | one loop iteration as the step function states it: a run is started iff no cancellation is seen first; it stores the run's record, and counts it iff it succeeded |
| Batch.RecordRun | app/views/batch.py:131-143 | after a successful run: counts it, then stops on a cancellation or marks the job finished after its last run |
| Batch.RunRecords | app/views/batch.py:119-127 | the records of `n` consecutive runs, `n` of them |
| Batch.RunRecordsAt | app/views/batch.py:119-127 | record `k` is run `i0 + k`, with its id, its seed and its messages |
| Batch.RunRecordsSnoc | app/views/batch.py:119-127 | one more run appends its record |
| Batch.RunFromStop | app/views/batch.py:121-139 | an iteration that stops ends the loop |
| Batch.RunFromContinue | app/views/batch.py:119-143 | an iteration that goes on hands its fields to the next index |
| Batch.ProcessUnfold | app/views/batch.py:109-148 | a job that is not cancelled is marked running, its loop runs, and it is marked finished if the loop left it running |
| Batch.ProcessBatchJob | app/views/batch.py:103-148 | a missing job does nothing; otherwise the job ends as the processing function states, and the runs it stored are the records of the runs it started |
| Batch.RunLoop | app/views/batch.py:119-143 | the loop ends as the loop function states, and stores one record per run started |
| Batch.FirstCancelIsFirst | app/views/batch.py:120-135 | the earliest checkpoint that sees a cancellation, and none exactly when no checkpoint in range does |
| Batch.RunFromCancelPoint | app/views/batch.py:119-143 | when every run succeeds, the first cancellation seen decides the end: before run `k` it stops with `k` runs counted, right after run `k` with `k + 1`; with none the job finishes with every run counted |
| Batch.Step | app/views/batch.py:119-142 | one pass of the worker loop: stop on a cancel seen before the run or on a failed run, otherwise count the run and stop on a cancel seen after it; RunBatchStep performs it on the job |
| Batch.RunFrom | app/views/batch.py:118-142 | the worker loop from run `i` on; its end is stated by RunFromCancelPoint |
| Batch.Process | app/views/batch.py:103-148 | `_process_batch_job` on an existing job; ProcessProgress and CancelThenProcess state its outcomes and ProcessBatchJob performs it |
| Batch.RunFromCancelBefore | app/views/batch.py:120-124 | a cancellation seen before run `i` stops the loop there, with the run neither executed nor counted |
| Batch.RunFromCancelAfter | app/views/batch.py:131-139 | a cancellation seen right after a successful run still counts it, then stops the loop |
| Batch.RunFromNoCancel | app/views/batch.py:127-143 | a successful run without a cancellation is counted and the loop goes on; after the last run the job is finished |
| Batch.ProcessCancelPoint | app/views/batch.py:103-148 | a job resumes from its completed runs and ends finished with every run counted, or cancelled at the first cancellation seen |
| Batch.RunFromBounds | app/views/batch.py:119-143 | the loop never lowers the run count or takes it past the total, keeps the start time, and leaves the job running, finished or cancelled |
| Batch.ProcessProgress | app/views/batch.py:103-148 | the run count is monotone and bounded, the start time is kept, a call without an error leaves the job finished or cancelled, and a cancelled job is untouched |
| Batch.CancelEffect | app/views/batch.py:251-254 | cancelling sets the flag, cancels a queued job at once with an end time, and changes nothing else |
| Batch.CancelThenProcess | app/views/batch.py:109-254 | a queued job cancelled before it runs is never run; a running job stops at its next checkpoint with no further run counted |
| Batch.CancelBatchJob | app/views/batch.py:245-257 | an unknown job is a 404; otherwise the job is cancelled as stated and returned |
| Batch.Cancel | app/views/batch.py:251-255 | the cancel request on an existing job; CancelEffect states its effect |
| Batch.NewJobConfigMissing | app/views/batch.py:197-201 | a 400 exactly when a required key is absent, listing the absent keys sorted |
| Batch.NewJobConfig | app/views/batch.py:196-216 | what `create_batch_job` checks and stores; its 400 is stated by NewJobConfigMissing and its accepted jobs by JobFromFields |
| Batch.JobFromFields | app/views/batch.py:203-216 | once every key is present, the only error answer left is the 404 for an unknown agent |
| Batch.NewJobConfigUnknownAgent | app/views/batch.py:203-206 | a 404 exactly when every key is present and both ids convert but one names no agent |
| Batch.NewJobConfigAccepted | app/views/batch.py:203-216 | an accepted job names the requested agents, has ttl and run count at least one and at least what was asked, and the requested seed |
| Batch.CreateBatchJob | app/views/batch.py:195-218 | a request refused by the field rules gets their error; otherwise a fresh queued job with the accepted configuration |
| Turns.ConfigOf | app/views/batch.py:22-78 | the agent's prompt and settings are its own; with a model row, the connector is chosen from that model's backend; without one, the connector is the `AttributeError` a turn raises |
| Turns.CountTokens | app/views/batch.py:33-34 | at least one token |
| Turns.CountTokensIsWords | app/views/batch.py:33-34 | the count is the number of whitespace-separated words, or one when there is none |
| Turns.CountTokensOfWords | app/views/batch.py:33-34 | words joined by single spaces count one token each |
| Turns.CountTokensOfBlank | app/views/batch.py:33-34 | blank text counts one token |
| Turns.AgentConnectorDispatch | app/views/batch.py:22-30 | each connector is chosen by exactly its lower-cased backend names; any other backend is refused naming it |
| Turns.AgentConnector | app/views/batch.py:22-30 | `_connector_for_agent`; AgentConnectorDispatch states which names choose which connector |
| Turns.SenderFor | app/views/batch.py:64-66 | a turn's sender is agent1 or agent2, never the user |
| Turns.TakeTurn | app/views/batch.py:64-80 | one iteration asks the agent of turn `t` with its system prompt, the current text and its settings, and gives the next turn |
| Turns.Converse | app/views/batch.py:63-94 | at most `n` turns, and exactly `n` when nothing failed |
| Turns.ExtendTurnsFit | app/views/batch.py:63-94 | the next turn fits the conversation |
| Turns.ConverseTurns | app/views/batch.py:63-94 | every turn alternates agents starting with agent1, answers the prompt or the previous reply, and is the connector's reply |
| Turns.ConversePrefix | app/views/batch.py:63-94 | running more turns only extends the conversation, and a failure ends it for good |
| Turns.ConverseFailure | app/views/batch.py:68-80 | an early stop carries the error of the next turn |
| Turns.ConverseTotal | app/views/batch.py:63-94 | with connectors that never fail, all `n` turns happen |
| Turns.AgentMessagesSnoc | app/views/batch.py:84-92 | one more turn appends its message |
| Turns.MessagesOfFittingTurns | app/views/batch.py:84-94 | messages stored from fitting turns read back as a transcript of them |
| Turns.ConversationMessages | app/views/batch.py:84-94 | a conversation's stored agent messages alternate senders and each answers the previous one |
| Turns.ReplyTokensSnoc | app/views/batch.py:81-82 | one more turn adds its reply's tokens |
| Turns.ReplyTokens | app/views/batch.py:81-82 | at least one token per reply |
| Turns.Conversation.constructor | app/views/batch.py:38-44 | a new running conversation without messages |
| Turns.Conversation.AddMessage | app/views/batch.py:84-92 | appends one message and keeps the row |
| Turns.Conversation.Finish | app/views/batch.py:96-97 | marks the row finished at `now` and keeps the messages |
| Turns.ConverseStep | app/views/batch.py:63-94 | one more turn either stops with its error or appends the next turn |
| Chat.TurnEffects | app/views/chat.py:62-103 | two effects per turn |
| Chat.TurnEffectsAt | app/views/chat.py:80-102 | turn `k` stores its message, then emits it with `done` set iff it is the last turn |
| Chat.ChatEffectsShape | app/views/chat.py:49-118 | each completed turn stores then emits its reply, alternating senders; a full run ends with `chat_end`; a run that raised emits nothing after its last completed turn |
| Chat.TurnEffectsSnoc | app/views/chat.py:62-103 | one more turn appends its two effects |
| Chat.ChatTurns | app/views/chat.py:62-103 | the loop stores one message per turn of the conversation, keeps the row, and emits as stated |
| Chat.StoreAndEmit | app/views/chat.py:80-102 | stores one message, keeps the row, and emits it |
| Chat.ProcessChatTask | app/views/chat.py:49-118 | a missing conversation does nothing; otherwise the turns of the conversation are stored and emitted, and the row is finished iff no connector raised |
| Chat.StartFieldsMissing | app/views/chat.py:131-135 | a 400 exactly when a required key is absent, listing the absent keys sorted |
| Chat.StartFields | app/views/chat.py:130-147 | the checks of `handle_start_chat` before it stores the conversation; StartFieldsMissing and StartFieldsAccepted state its answers |
| Chat.StartFromFields | app/views/chat.py:137-156 | once every key is present, the only error answer left is the 404 for an unknown agent |
| Chat.StartFieldsAccepted | app/views/chat.py:137-156 | an accepted start names the requested agents, has a ttl at least one and at least what was asked, the requested seed, and the prompt as `str()` renders it |
| Chat.StartChat | app/views/chat.py:130-159 | a refused request gets the field rules' error; otherwise a fresh running conversation holding the prompt as its only message |
| Chat.StartedChatTotal | app/views/chat.py:130-172 | with connectors that never fail, a started chat ends with the prompt plus one message per turn |
| Evaluator.Lines | app/evaluator.py:39-41 | one line per message |
| Evaluator.ConversationToText | app/evaluator.py:38-42 | the loop's text is the message lines joined by newlines |
| Evaluator.MessageLineHasNoNewline | app/evaluator.py:41 | a line of a message without newlines has none |
| Evaluator.ConversationTextLines | app/evaluator.py:38-42 | when no message holds a newline, splitting the text on newlines gives back line `i` as `[i] role: content` for every message |
| Evaluator.Span | app/evaluator.py:52-64 | a span exists iff the first opening bracket comes before the last closing one, and is the text between them, both included |
| Evaluator.ExtractJsonBlockOrder | app/evaluator.py:45-67 | the whole stripped text is tried first, then the object span, then the array span, whose parse error escapes; with neither span it raises "Model output is not valid JSON"; it succeeds iff one of the three parses |
| Evaluator.ExtractJsonBlock | app/evaluator.py:45-67 | `_extract_json_block` as a value; its order of attempts and its errors are stated by ExtractJsonBlockOrder |
| Evaluator.NormalizeJudgeOutput | app/evaluator.py:70-88 | a list becomes the issues with no scores and empty notes; an object keeps its issues list (else `[]`), scores and notes (default `""`); anything else raises |
| Evaluator.JudgeWithOutcome | app/evaluator.py:91-102 | an unsupported backend raises; a connector error raises; otherwise the reply is parsed, normalised and tagged |
| Evaluator.RunJudge | app/evaluator.py:91-102 | `run_judge`: the judge asked with the judge prompt for the rendered conversation; its outcomes are stated by JudgeWithOutcome |
| Evaluator.TagVerdictShape | app/evaluator.py:98-102 | a verdict exists iff the reply parses to a list or object, and then holds the four normalised keys plus the judge's id and name |
| Evaluator.IssuesOf | app/evaluator.py:112 | the issues of a result are read only from an object |
| Evaluator.Penalty | app/evaluator.py:134 | the penalty is at most 0.5, and not negative for a non-negative highest severity |
| Evaluator.Overall | app/evaluator.py:135-136 | the overall score lies in [0, 1] |
| Evaluator.ReportEntries | app/evaluator.py:138-149 | the report's keys, the issue total, the flagged list, the highest severity, both averages and the overall score |
| Evaluator.CodeAggregate | app/evaluator.py:105-149 | the nested loops give the code-aggregate function's result |
| Evaluator.CodeAggregateOf | app/evaluator.py:105-149 | `_code_aggregate` as a value; its counts are stated by CodeAggregateCounts and its scores by CodeAggregateScores |
| Evaluator.IssueFlags | app/evaluator.py:112-123 | one flag per issue |
| Evaluator.FlagsCount | app/evaluator.py:144 | the issue total is the number of flagged instances |
| Evaluator.IssueStepSpec | app/evaluator.py:112-123 | one issue appends its flag, leaves the scores, and keeps the highest severity the maximum over the flags |
| Evaluator.TallyIssuesSpec | app/evaluator.py:112-123 | the inner loop appends one flag per issue and keeps the highest severity the maximum |
| Evaluator.TallyResultSpec | app/evaluator.py:111-130 | one result adds its flags and its numeric scores |
| Evaluator.TallyFromFlags | app/evaluator.py:111-123 | the outer loop collects every result's flags, and the highest severity is their maximum |
| Evaluator.TallyFromScores | app/evaluator.py:125-130 | the outer loop collects exactly the numeric completion and realistic scores |
| Evaluator.CodeAggregateCounts | app/evaluator.py:105-149 | the aggregate's total, flagged list and highest severity are those of all issues of all results |
| Evaluator.CodeAggregateScores | app/evaluator.py:132-147 | the aggregate's scores are the averages of the numeric scores, and the overall score lies in [0, 1] |
| Evaluator.FlagDefaults | app/evaluator.py:115-123 | a flag holds the five keys, the judge id, and the category, excerpt and index with their defaults |
| Evaluator.OverallAntitone | app/evaluator.py:134-136 | one more issue with a severity at least as high never raises the overall score |
| Evaluator.TallyIssuesOneMore | app/evaluator.py:112-123 | a tally one issue ahead stays one issue ahead through the inner loop |
| Evaluator.TallyFromOneMore | app/evaluator.py:111-130 | a tally one issue ahead stays one issue ahead through the outer loop |
| Evaluator.TallyIssuesSnoc | app/evaluator.py:112-123 | the inner loop over one more issue takes one more step |
| Evaluator.TallyFromAddIssue | app/evaluator.py:111-130 | adding a valid issue to one result leaves the tally one issue ahead |
| Evaluator.AddIssueNeverRaisesScore | app/evaluator.py:105-149 | adding a valid issue to a judge result adds one to the total and never raises the overall score |
| Evaluator.ReportFromFallback | app/evaluator.py:163-171 | an aggregator reply that is not an object falls back to the code aggregate; an object is kept, with `flagged_instances` defaulting to `[]` |
| Evaluator.RunAggregator | app/evaluator.py:152-171 | `run_aggregator`: the main model asked with the aggregator prompt that embeds the dumped judge results; its fallback to the code aggregate is stated by ReportFromFallback |
| Evaluator.ReportFromHasFlags | app/evaluator.py:163-171 | every report has `flagged_instances` |
| Evaluator.AggregateWithOutcome | app/evaluator.py:152-171 | an unsupported backend raises; a connector error raises; otherwise the reply's report |
| Evaluate.Iterate | app/views/evaluate.py:26 | iterating a list gives its items, a string its characters, an object its keys; anything else raises |
| Evaluate.ToInts | app/views/evaluate.py:26 | the ids convert iff every one does, each by `int()` |
| Evaluate.Insert | app/views/evaluate.py:41 | inserting into an ascending list keeps it ascending and adds exactly the one id |
| Evaluate.AscendingIds | app/views/evaluate.py:41 | the distinct ids in ascending order |
| Evaluate.FoundCountShort | app/views/evaluate.py:41-43 | fewer judge models are found than distinct ids iff some id names no model |
| Evaluate.JudgeModels | app/views/evaluate.py:41 | the judge models, one per ascending id |
| Evaluate.ValidateRaises | app/views/evaluate.py:17-19 | the request raises iff the membership test on the payload raises |
| Evaluate.Validate | app/views/evaluate.py:16-50 | every check `create_evaluation` makes before storing the job, in order; its answers are stated by the Validate lemmas below |
| Evaluate.ValidateMissing | app/views/evaluate.py:17-21 | missing fields are a 400 listing them sorted and exactly; otherwise the field checks decide |
| Evaluate.ValidateIntegers | app/views/evaluate.py:23-31 | the integer error iff an id does not convert; the empty-judges error iff all convert and there is no judge |
| Evaluate.ValidateLookups | app/views/evaluate.py:33-43 | the conversation, then the main model, then every judge must exist, each with its own 404; accepted iff all do |
| Evaluate.ValidateAccepted | app/views/evaluate.py:23-50 | an accepted request carries the conversation's messages, the main model, the judge ids as given and one judge model per distinct id in ascending order |
| Evaluate.RunJudges | app/views/evaluate.py:62 | one result per judge |
| Evaluate.RunJudgesEach | app/views/evaluate.py:62 | the judges all succeed iff each does, and result `k` is judge `k`'s |
| Evaluate.RunJudgesFirstError | app/views/evaluate.py:62 | a failure is the error of the first judge that fails |
| Evaluate.FlaggedLinesPrefix | app/views/evaluate.py:66-80 | one more flagged instance appends its lines |
| Evaluate.FlaggedLines | app/views/evaluate.py:64-80 | the loop gives the flagged lines of the instances, and raises when an instance is not an object |
| Evaluate.FlaggedLine | app/views/evaluate.py:65-80 | one pass over an object instance adds at most one line: the one for its index when the index is valid |
| Evaluate.FlaggedLinesAppend | app/views/evaluate.py:66-80 | the lines of two lists of instances are the lines of each, in order |
| Evaluate.FlaggedLinesSound | app/views/evaluate.py:66-80 | every line comes from an instance whose index converts and is in range |
| Evaluate.FlaggedLinesComplete | app/views/evaluate.py:66-80 | every instance whose index converts and is in range gives its line |
| Evaluate.LineFields | app/views/evaluate.py:72-80 | a line holds the index, the message's id, the category as the reason (default `"other"`), the excerpt (default `""`) and the severity |
| Evaluate.FlaggedLinesCount | app/views/evaluate.py:66-80 | at most one line per instance |
| Evaluate.FinalReportEntries | app/views/evaluate.py:81-87 | the report gains its scores, read from the aggregate, and its flagged lines, and keeps every other entry |
| Evaluate.FlaggedLinesPoint | app/views/evaluate.py:66-80 | every flagged line points at an existing message, with that message's id |
| Evaluate.EvaluationCompleted | app/views/evaluate.py:61-92 | a completed evaluation holds one result per judge, each that judge's verdict, and a report whose flagged lines point at existing messages |
| Evaluate.EvaluationOf | app/views/evaluate.py:61-92 | judge, aggregate, then read the flagged lines; EvaluationCompleted states what a completed evaluation holds |
| Evaluate.Evaluate | app/views/evaluate.py:61-92 | the evaluation's result is the evaluation function's |
| Evaluate.CreateEvaluation | app/views/evaluate.py:16-102 | a refused request gets its error and no job; otherwise a fresh job that is completed with the judges' results and the report, or failed with the error text and a 500 |
| Evaluate.EvaluationJob.constructor | app/views/evaluate.py:52-57 | a new running job with no results and no report |
| Evaluate.EvaluationJob.Complete | app/views/evaluate.py:89-91 | stores the judges' results and the report, marks the job completed, and keeps its identity |
| Evaluate.EvaluationJob.Fail | app/views/evaluate.py:94-98 | marks the job failed with the error text as its results, and keeps the rest |
| Text.Lower | app/views/setup.py:162 | `str.lower()` on ASCII text keeps the length |
| Text.LowerFolds | app/views/setup.py:162 | after `str.lower()` on ASCII text no upper-case ASCII letter remains, and every other character is left as it is |
| Text.Strip | app/security.py:14 | `str.strip()` leaves no whitespace at either end and never lengthens |
| Text.StripSlice | app/security.py:14 | the stripped text is a slice whose surroundings are all whitespace; it is empty iff the text is all whitespace |
| Text.StripUnchanged | app/security.py:14 | text without whitespace at its ends strips to itself |
| Text.WordCountIsWords | app/views/batch.py:34 | the scanner's word count is the number of words `str.split()` gives |
| Text.WordsAreWords | app/views/batch.py:34 | every word is non-empty and holds no whitespace |
| Text.WordsOfJoin | app/views/batch.py:34 | words joined by single spaces split back into the same words |
| Text.Find | app/evaluator.py:52-61 | `str.find`: -1 iff absent, otherwise the first occurrence |
| Text.RFind | app/evaluator.py:53-62 | `str.rfind`: -1 iff absent, otherwise the last occurrence |
| Text.SplitOnJoin | app/evaluator.py:42 | newline-free parts joined on newlines split back into the parts |
| Text.ParseIntOfIntToString | app/views/evaluate.py:24-26 | `int()` reads back what `str()` renders for every integer |
| Text.AtLeastOne | app/views/batch.py:61 | `max(1, n)` is at least 1 and at least `n`, and is `n` when `n >= 1` |
| Text.StrLeTotal | app/views/setup.py:129 | string order is total |
| Text.Sort | app/views/setup.py:129 | `sorted()` gives an ordered permutation |

## Left out

- Evaluator.CodeAggregateScores: floats are exact reals, so `round(overall, 3)` and `round(avg, 1)` are not applied; the stored scores are the unrounded values.
- Evaluator.ReportEntries: the same rounding is left out; the summary's `:.1f` rendering is a parameter `fmt`.
- Evaluator.CodeAggregate: the same rounding is left out, and `json.dumps` of the judge results is a parameter.
- PyJson.Json: `json.loads` accepts the bare tokens `NaN`, `Infinity` and `-Infinity`, but a decoded value here has no non-finite number, so a payload carrying one (a temperature, a port, a ttl, a seed or an id given as `Infinity`) is not modelled; in the source `int()` of it raises `OverflowError` or `ValueError`.
- PyJson.ToInt: because of the line above, the `OverflowError` of `int(float("inf"))` on a decoded number never arises; a `NonFinite` value reached from a string is refused, as `int()` refuses such strings.
- PyJson.ToFloat: `float()` of an `int` too large for a double raises `OverflowError` in the source; the model converts every integer exactly.
- PyJson.ToFloat: the contract does not describe strings and booleans. For a string the body follows `float()`: surrounding whitespace, a sign, a decimal mantissa with an optional exponent, or inf, infinity and nan. Underscores between digits are not accepted, and neither is the corresponding form in `int()`. Infinities and NaN are a single `NonFinite` value, which fails every range test, as it does in Python.
- Floating-point arithmetic in general is exact rational arithmetic here.
- Setup.TemperatureField: for an integer temperature beyond the double range (above about 1.8e308) the source's `float()` raises `OverflowError`, which `except (TypeError, ValueError)` does not catch, so the request ends in a 500; the model answers 400 "temperature must be between 0 and 2". Every other input gets the source's answer.
- Evaluator.NumericScore: a judge score that is an integer beyond the double range makes the source's `float(completion)` raise `OverflowError` and fail the evaluation; the model takes the exact value.
- Text.Lower: folds only ASCII `A`-`Z`, while Python's `str.lower()` folds every Unicode letter. Setup.ModelIdField (the backend name), Setup.ActiveBackendEngine, StatusService.EngineName and Turns.AgentConnector therefore differ from the source for non-ASCII spellings such as a fullwidth `ＯＬＬＡＭＡ`. Likewise Text.ParseInt and Text.ParseFloat accept ASCII digits only, where `int()` and `float()` also accept other Unicode decimal digits.
- Python dicts keep insertion order and `map` does not. Iterating a dict's keys (in `judge_model_ids` given as an object) is a parameter `KeyOrder`, and JSON objects are unordered. `KeyOrder` is any function from an object to strings: the model does not require it to list each key of the object exactly once, and no stated property depends on that.
- `Model.query.filter(Model.id.in_(ids)).all()` has no `ORDER BY`. The judges are taken in ascending id order, which is what the database returns for a primary-key lookup in practice.
- Agent settings in batch jobs and chats are read once, when the job or chat is created: `agents` maps an agent id to its `Turns.ConfigOf`, and the job keeps those configurations. The source keeps only the ids and reads the agent and its model row again at every turn (app/views/batch.py:65-75, app/views/chat.py:64-77), so an agent or model edited while a job is queued or running is not modelled. An agent whose model row was deleted is still accepted at creation, as in the source, and its configuration's connector is the `AttributeError` text, so its first turn fails as the source's does.
- Connectors (`probe`, `list_models`, `chat`) are parameters of the operations that call them. Their network behaviour and the connector classes are not part of this model.
- `json.loads`, `json.dumps`, the `str()` of an exception and `repr()` are parameters (`parse`, `dump`, `faultText`, `repr`).
- The clock (`datetime.utcnow`, `perf_counter`) is a parameter `now`. Elapsed seconds, `total_elapsed_seconds`, `avg_time` and `tokens_per_sec` are not modelled.
- `to_iso` and `to_human` are left out: times are kept as numbers, and the rendered time is a tooltip parameter.
- Database sessions are left out: commit, rollback, flush and refresh, integrity errors and row loading. Rows are objects or maps handed to each operation. A refresh re-reading the cancel flag is a sequence `obs` of flags observed at each checkpoint. When the cancel flag is seen at the checkpoint before a run (app/views/batch.py:119-123), the worker leaves the loop and, as the status is no longer `running`, returns without a commit; the source then loses that `cancelled` status and end time when the session is torn down, while the model keeps them on the `BatchJob` object.
- Threads, the worker queues and Socket.IO delivery are left out. Emitted events are returned as a list of effects.
- The CRUD endpoints are left out (`get_models`, `create_model`, `update_model`, `delete_model`, `get_agents`, `create_agent`, `update_agent`, `delete_agent`). Their field checks are the two validators, which are modelled.
- `_model_to_dict` and `last_warmed_at` are left out: a field-by-field copy of the row.
- `probe_models`, `test_model_backend`, `get_model_status`, `get_status_v1` and `force_engine_check_v1` are left out. They only call the status service and connectors, which are modelled, or `probe_backend`, which is not part of this model.
- `_refresh_all_model_statuses` is left out: a loop of `RefreshModelStatus` over all rows, followed by a commit.
- `get_model_status_v1` and `get_agent_status_v1` are covered by their tooltip functions and the status payloads only. The payload assembly is not modelled.
- Setup.AgentTooltip (`get_agent_status_v1`'s texts) has no stated property. The four texts are only written out.
- Setup.ModelTooltip: that the three texts differ from one another is not stated.
- `get_evaluation`, `get_batch_job`, `list_batch_jobs`, `get_conversation`, `_batch_job_response` and `_conversation_stats` are left out. They are read-only views of rows, and their float fields are left out as above.
- Entities.Model: the status service's and the setup view's view of a model are one class. Columns no modelled operation reads are omitted (`selected_model`, timestamps).
- The `sid` and `namespace` of a chat task, and the `app` context of the workers, are left out.

## Findings

| source | as written | input that shows it | evidently intended | confidence | as-written member | corrected member |
|---|---|---|---|---|---|---|
| app/security.py:7-26 | `re.match` with `^...$` lets `$` match before a final newline, so one trailing `"\n"` passes the host pattern | `validate_host("a\n")` returns `True` | the pattern matches the whole string, so `"a\n"` is refused | not executed; every caller sanitizes (strips) the host first, so the gap cannot be reached through the application | Security.TrailingNewlineAccepted | Security.AsWrittenAgreesOnStripped |
