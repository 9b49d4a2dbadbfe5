/** Starting an evaluation (app/views/evaluate.py, `create_evaluation`):
    the request is validated field by field, an evaluation job is stored as
    `running`, every judge model and then the main model are asked about
    the conversation, and the job ends `completed` with the judges' verdicts
    and the aggregate report (to which the flagged message lines and a
    scores block are added), or `failed` with the error.

    The stored conversations and models are maps from their ids; a
    conversation's messages are given in the order the query returns them
    (creation time, then id). */
module Evaluate {
  import opened Wrappers
  import opened Text
  import opened PyJson
  import opened Entities
  import opened Turns
  import opened Evaluator

  const EvalFields := ["conversation_id", "main_model_id", "judge_model_ids"]
  const NotIntegers := "conversation_id, main_model_id, and judge_model_ids must be integers"
  const NoJudges := "judge_model_ids must include at least one model id"

  /** The iteration order of a dict's keys (its insertion order, which a
      `map` does not keep). */
  type KeyOrder = map<string, Json> -> seq<string>

  /** `for x in v`: a list's items, a string's characters, a dict's keys; any
      other value is not iterable (`TypeError`). */
  function Iterate(v: Json, keyOrder: KeyOrder): (r: Result<seq<Json>, Exc>)
    ensures r.Err? <==> !(v.JArr? || v.JStr? || v.JObj?)
    ensures v.JArr? ==> r == Ok(v.items)
    ensures v.JStr? ==> r.Ok? && |r.value| == |v.s| && forall k :: 0 <= k < |v.s| ==> r.value[k] == JStr([v.s[k]])
  {
    match v
    case JArr(items) => Ok(items)
    case JStr(s) => Ok(seq(|s|, k requires 0 <= k < |s| => JStr([s[k]])))
    case JObj(fields) =>
      var keys := keyOrder(fields);
      Ok(seq(|keys|, k requires 0 <= k < |keys| => JStr(keys[k])))
    case _ => Err(BuiltinFault)
  }

  /** `[int(x) for x in xs]`; `None` when a conversion raises. */
  function ToInts(xs: seq<Json>): (r: Option<seq<int>>)
    ensures r.Some? <==> forall k :: 0 <= k < |xs| ==> ToInt(xs[k]).Some?
    ensures r.Some? ==> |r.value| == |xs| && forall k :: 0 <= k < |xs| ==> r.value[k] == ToInt(xs[k]).value
  {
    if xs == [] then Some([])
    else
      var head := ToInt(xs[0]);
      var rest := ToInts(xs[1..]);
      assert forall k :: 1 <= k < |xs| ==> xs[k] == xs[1..][k - 1];
      if head.Some? && rest.Some? then Some([head.value] + rest.value) else None
  }

  /** `[int(x) for x in payload["judge_model_ids"]]`; `None` when the
      subscript, the iteration or a conversion raises. */
  function JudgeIdList(payload: Json, keyOrder: KeyOrder): Option<seq<int>>
  {
    match Subscript(payload, "judge_model_ids")
    case None => None
    case Some(v) =>
      match Iterate(v, keyOrder)
      case Err(_) => None
      case Ok(xs) => ToInts(xs)
  }

  /** `x` inserted into the strictly ascending `s`, once. */
  function Insert(x: int, s: seq<int>): (r: seq<int>)
    requires Ascending(s)
    ensures Ascending(r)
    ensures forall y :: y in r <==> y == x || y in s
  {
    if s == [] then [x]
    else if x < s[0] then [x] + s
    else if x == s[0] then s
    else
      var rest := Insert(x, s[1..]);
      assert forall y :: y in rest ==> s[0] < y;
      var r := [s[0]] + rest;
      assert forall i :: 0 < i < |r| ==> r[i] == rest[i - 1] && r[i] in rest;
      r
  }

  predicate Ascending(s: seq<int>) {
    forall i, j :: 0 <= i < j < |s| ==> s[i] < s[j]
  }

  /** The distinct ids of `ids`, in ascending order: the order in which the
      model query returns the judge models. */
  function AscendingIds(ids: seq<int>): (r: seq<int>)
    ensures Ascending(r)
    ensures forall y :: y in r <==> y in ids
  {
    if ids == [] then []
    else Insert(ids[|ids| - 1], AscendingIds(ids[..|ids| - 1]))
  }

  /** `len(Model.query.filter(Model.id.in_(ids)).all())`: how many stored
      models have one of the ids. */
  function FoundCount(models: map<int, ModelIdentity>, ids: seq<int>): nat
  {
    |set id | id in ids && id in models|
  }

  /** `len(set(ids))` */
  function DistinctCount(ids: seq<int>): nat
  {
    |set id | id in ids|
  }

  /** Some judge id names no stored model exactly when fewer models are
      found than there are distinct ids. */
  lemma FoundCountShort(models: map<int, ModelIdentity>, ids: seq<int>)
    ensures FoundCount(models, ids) != DistinctCount(ids) <==> exists id :: id in ids && id !in models
  {
    var found := set id | id in ids && id in models;
    var all := set id | id in ids;
    if exists id :: id in ids && id !in models {
      var x :| x in ids && x !in models;
      var rest := all - {x};
      assert found <= rest;
      assert |rest| == |all| - 1;
      assert |rest| == |found| + |rest - found|;
    } else {
      assert found == all;
    }
  }

  /** The models of the ids `asc`, in that order. */
  function JudgeModels(models: map<int, ModelIdentity>, asc: seq<int>): (r: seq<ModelIdentity>)
    requires forall k :: 0 <= k < |asc| ==> asc[k] in models
    ensures |r| == |asc| && forall k :: 0 <= k < |asc| ==> r[k] == models[asc[k]]
  {
    if asc == [] then [] else [models[asc[0]]] + JudgeModels(models, asc[1..])
  }

  /** A request that passed validation. */
  datatype EvalRequest = EvalRequest(conversationId: int, messages: seq<MessageRow>, main: ModelIdentity,
                                     judgeIds: seq<int>, judges: seq<ModelIdentity>)

  /** The lookups, once the ids are integers and the judge list is not
      empty: the conversation, the main model, then the judge models. */
  function Lookup(cid: int, mid: int, ids: seq<int>, conversations: map<int, seq<MessageRow>>,
                  models: map<int, ModelIdentity>): Result<EvalRequest, ApiError>
  {
    if cid !in conversations then Err(Reject(404, "Conversation not found"))
    else if mid !in models then Err(Reject(404, "Main model not found"))
    else if FoundCount(models, ids) != DistinctCount(ids) then
      Err(Reject(404, "One or more judge models were not found"))
    else
      FoundCountShort(models, ids);
      var asc := AscendingIds(ids);
      assert forall k :: 0 <= k < |asc| ==> asc[k] in ids;
      Ok(EvalRequest(cid, conversations[cid], models[mid], ids, JudgeModels(models, asc)))
  }

  /** The checks once every field is present: the integer conversions, an
      empty judge list, then the lookups. */
  function CheckFields(payload: Json, conversations: map<int, seq<MessageRow>>, models: map<int, ModelIdentity>,
                       keyOrder: KeyOrder): Result<EvalRequest, ApiError>
  {
    var cid := IntField(payload, "conversation_id");
    var mid := IntField(payload, "main_model_id");
    var ids := JudgeIdList(payload, keyOrder);
    if cid.None? || mid.None? || ids.None? then Err(Reject(400, NotIntegers))
    else if ids.value == [] then Err(Reject(400, NoJudges))
    else Lookup(cid.value, mid.value, ids.value, conversations, models)
  }

  /** Everything `create_evaluation` checks before it stores the job, in its
      order: missing fields, then the integer conversions, then an empty
      judge list, and only then the lookups. */
  function Validate(body: Option<Json>, conversations: map<int, seq<MessageRow>>, models: map<int, ModelIdentity>,
                    keyOrder: KeyOrder): Result<EvalRequest, ApiError>
  {
    var payload := RequestPayload(body);
    match MissingFields(payload, EvalFields)
    case None => Err(Raised)
    case Some(missing) =>
      if missing != [] then Err(Reject(400, MissingMessage(missing)))
      else CheckFields(payload, conversations, models, keyOrder)
  }

  /** A payload that does not support `in` makes the membership test
      raise; nothing else does. */
  lemma ValidateRaises(body: Option<Json>, conversations: map<int, seq<MessageRow>>, models: map<int, ModelIdentity>,
                       keyOrder: KeyOrder)
    ensures Validate(body, conversations, models, keyOrder) == Err(Raised) <==> !SupportsIn(RequestPayload(body))
  {
  }

  /** A payload without some required field is answered 400, naming the
      missing fields in sorted order, before anything else is checked. */
  lemma ValidateMissing(body: Option<Json>, conversations: map<int, seq<MessageRow>>, models: map<int, ModelIdentity>,
                        keyOrder: KeyOrder)
    requires SupportsIn(RequestPayload(body))
    ensures var payload := RequestPayload(body);
      var r := Validate(body, conversations, models, keyOrder);
      var missing := MissingFields(payload, EvalFields).value;
      Sorted(missing) &&
      (forall k :: k in missing <==> k in EvalFields && !In(payload, k)) &&
      (missing != [] ==> r == Err(Reject(400, MissingMessage(missing)))) &&
      (missing == [] ==> r == CheckFields(payload, conversations, models, keyOrder))
  {
  }

  /** With every field present, the 400 answers depend on the payload
      alone and come before any lookup: non-integer ids first, then an
      empty judge list. */
  lemma ValidateIntegers(body: Option<Json>, conversations: map<int, seq<MessageRow>>, models: map<int, ModelIdentity>,
                         keyOrder: KeyOrder)
    requires MissingFields(RequestPayload(body), EvalFields) == Some([])
    ensures var payload := RequestPayload(body);
      var r := Validate(body, conversations, models, keyOrder);
      var ids := JudgeIdList(payload, keyOrder);
      var ints := IntField(payload, "conversation_id").Some? && IntField(payload, "main_model_id").Some? && ids.Some?;
      (r == Err(Reject(400, NotIntegers)) <==> !ints) &&
      (r == Err(Reject(400, NoJudges)) <==> ints && ids.value == [])
  {
  }

  /** Past the 400 checks, the lookups answer 404 in order: the
      conversation, the main model, and then any judge id that names no
      stored model. */
  lemma ValidateLookups(body: Option<Json>, conversations: map<int, seq<MessageRow>>, models: map<int, ModelIdentity>,
                        keyOrder: KeyOrder)
    requires MissingFields(RequestPayload(body), EvalFields) == Some([])
    requires IntField(RequestPayload(body), "conversation_id").Some? && IntField(RequestPayload(body), "main_model_id").Some?
    requires JudgeIdList(RequestPayload(body), keyOrder).Some? && JudgeIdList(RequestPayload(body), keyOrder).value != []
    ensures var payload := RequestPayload(body);
      var r := Validate(body, conversations, models, keyOrder);
      var cid := IntField(payload, "conversation_id").value;
      var mid := IntField(payload, "main_model_id").value;
      var ids := JudgeIdList(payload, keyOrder).value;
      (r == Err(Reject(404, "Conversation not found")) <==> cid !in conversations) &&
      (r == Err(Reject(404, "Main model not found")) <==> cid in conversations && mid !in models) &&
      (r == Err(Reject(404, "One or more judge models were not found")) <==>
         cid in conversations && mid in models && exists id :: id in ids && id !in models) &&
      (r.Ok? <==> cid in conversations && mid in models && forall id :: id in ids ==> id in models)
  {
    FoundCountShort(models, JudgeIdList(RequestPayload(body), keyOrder).value);
  }

  /** An accepted request names the conversation's messages, the main model
      and the judge models: each distinct judge id once, in ascending
      order. */
  lemma ValidateAccepted(body: Option<Json>, conversations: map<int, seq<MessageRow>>, models: map<int, ModelIdentity>,
                         keyOrder: KeyOrder)
    ensures var r := Validate(body, conversations, models, keyOrder);
      r.Ok? ==>
        var payload := RequestPayload(body);
        var req := r.value;
        IntField(payload, "conversation_id") == Some(req.conversationId) &&
        req.conversationId in conversations && req.messages == conversations[req.conversationId] &&
        IntField(payload, "main_model_id").Some? &&
        IntField(payload, "main_model_id").value in models &&
        req.main == models[IntField(payload, "main_model_id").value] &&
        JudgeIdList(payload, keyOrder) == Some(req.judgeIds) && req.judgeIds != [] &&
        (forall id :: id in req.judgeIds ==> id in models && models[id] in req.judges) &&
        |req.judges| == |AscendingIds(req.judgeIds)| &&
        forall k :: 0 <= k < |req.judges| ==> req.judges[k] == models[AscendingIds(req.judgeIds)[k]]
  {
    var r := Validate(body, conversations, models, keyOrder);
    if r.Ok? {
      var req := r.value;
      var asc := AscendingIds(req.judgeIds);
      forall id | id in req.judgeIds
        ensures id in models && models[id] in req.judges
      {
        FoundCountShort(models, req.judgeIds);
        var k :| 0 <= k < |asc| && asc[k] == id;
        assert req.judges[k] == models[id];
      }
    }
  }

  // ---------------------------------------------------------------------
  // Running the evaluation

  /** `run_judge(m, text)` for each judge model `m`. */
  function JudgeOf(text: string, ask: Ask, parse: Parse): ModelIdentity -> Result<Json, Exc>
  {
    m => RunJudge(m, text, ask, parse)
  }

  /** `[judge(m) for m in judge_models]`: the first judge that raises ends
      the evaluation. */
  function RunJudges(judges: seq<ModelIdentity>, judge: ModelIdentity -> Result<Json, Exc>): (r: Result<seq<Json>, Exc>)
    ensures r.Ok? ==> |r.value| == |judges|
  {
    if judges == [] then Ok([])
    else
      match judge(judges[0])
      case Err(e) => Err(e)
      case Ok(v) =>
        match RunJudges(judges[1..], judge)
        case Err(e) => Err(e)
        case Ok(rest) => Ok([v] + rest)
  }

  /** The judges succeed together exactly when each judge does, and then
      their verdicts are each judge's, in order. */
  lemma {:induction false} RunJudgesEach(judges: seq<ModelIdentity>, judge: ModelIdentity -> Result<Json, Exc>)
    ensures var r := RunJudges(judges, judge);
      (r.Ok? <==> forall k :: 0 <= k < |judges| ==> judge(judges[k]).Ok?) &&
      (r.Ok? ==> forall k :: 0 <= k < |judges| ==> r.value[k] == judge(judges[k]).value)
  {
    if judges != [] {
      RunJudgesEach(judges[1..], judge);
      assert forall k :: 0 < k < |judges| ==> judges[k] == judges[1..][k - 1];
    }
  }

  /** When a judge raises, the evaluation fails with the error of the first
      judge that raised; every judge before it succeeded. */
  lemma {:induction false} RunJudgesFirstError(judges: seq<ModelIdentity>, judge: ModelIdentity -> Result<Json, Exc>)
    ensures var r := RunJudges(judges, judge);
      r.Err? ==> exists k :: 0 <= k < |judges| && judge(judges[k]) == Err(r.error) &&
                   forall j :: 0 <= j < k ==> judge(judges[j]).Ok?
  {
    var r := RunJudges(judges, judge);
    if judges != [] && r.Err? && judge(judges[0]).Ok? {
      RunJudgesFirstError(judges[1..], judge);
      var k :| 0 <= k < |judges[1..]| && judge(judges[1..][k]) == Err(r.error) &&
               forall j :: 0 <= j < k ==> judge(judges[1..][j]).Ok?;
      assert forall j :: 0 < j < |judges| ==> judges[j] == judges[1..][j - 1];
      assert judge(judges[k + 1]) == Err(r.error);
    }
  }

  /** The message index an item of `flagged_instances` points at, when
      `int(item.get("message_index"))` succeeds and lies within the
      conversation's `n` messages. */
  function ValidIndex(fields: map<string, Json>, n: int): Option<int>
  {
    match ToInt(GetOr(fields, "message_index", JNull))
    case Some(i) => if 0 <= i < n then Some(i) else None
    case None => None
  }

  /** The flagged line for item `fields` pointing at message `idx`. */
  function LineOf(fields: map<string, Json>, idx: int, messages: seq<MessageRow>): Json
    requires 0 <= idx < |messages|
  {
    JObj(map["message_id" := JInt(messages[idx].id),
             "message_index" := JInt(idx),
             "reason" := GetOr(fields, "category", JStr("other")),
             "excerpt" := GetOr(fields, "excerpt", JStr("")),
             "severity" := GetOr(fields, "severity", JNull)])
  }

  /** The lines an item contributes: one when its index is valid. */
  function ItemLines(item: Json, messages: seq<MessageRow>): seq<Json>
  {
    if item.JObj? then
      match ValidIndex(item.fields, |messages|)
      case Some(i) => [LineOf(item.fields, i, messages)]
      case None => []
    else []
  }

  /** The flagged lines of the items `items`, in their order. */
  function FlaggedLinesOf(items: seq<Json>, messages: seq<MessageRow>): seq<Json>
  {
    if items == [] then []
    else FlaggedLinesOf(items[..|items| - 1], messages) + ItemLines(items[|items| - 1], messages)
  }

  predicate AllDicts(items: seq<Json>) {
    forall k :: 0 <= k < |items| ==> items[k].JObj?
  }

  /** One more item adds its lines at the end. */
  lemma FlaggedLinesPrefix(items: seq<Json>, k: nat, messages: seq<MessageRow>)
    requires k < |items|
    ensures FlaggedLinesOf(items[..k + 1], messages) == FlaggedLinesOf(items[..k], messages) + ItemLines(items[k], messages)
  {
    assert items[..k + 1][..k] == items[..k];
  }

  /** The loop over `flagged_instances`: an item whose index does not
      convert to an integer, or falls outside the conversation, is skipped;
      an item that is not a dict ends the evaluation (`item.get` raises). */
  method FlaggedLines(items: seq<Json>, messages: seq<MessageRow>) returns (r: Result<seq<Json>, Exc>)
    ensures r == if AllDicts(items) then Ok(FlaggedLinesOf(items, messages)) else Err(BuiltinFault)
  {
    var lines: seq<Json> := [];
    var k := 0;
    while k < |items|
      invariant 0 <= k <= |items|
      invariant forall j :: 0 <= j < k ==> items[j].JObj?
      invariant lines == FlaggedLinesOf(items[..k], messages)
    {
      var item := items[k];
      if !item.JObj? {
        assert !AllDicts(items);
        return Err(BuiltinFault);
      }
      var line := FlaggedLine(item.fields, messages);
      FlaggedLinesPrefix(items, k, messages);
      lines := lines + line;
      k := k + 1;
    }
    assert items[..k] == items;
    r := Ok(lines);
  }

  /** One pass of that loop on a dict item: its line when the index is
      valid, none otherwise. */
  method FlaggedLine(fields: map<string, Json>, messages: seq<MessageRow>) returns (line: seq<Json>)
    ensures line == ItemLines(JObj(fields), messages)
    ensures |line| <= 1
  {
    var index := ToInt(GetOr(fields, "message_index", JNull));
    if index.Some? && 0 <= index.value < |messages| {
      line := [LineOf(fields, index.value, messages)];
    } else {
      line := [];
    }
  }

  /** Flagged lines keep the order of their items. */
  lemma {:induction false} FlaggedLinesAppend(a: seq<Json>, b: seq<Json>, messages: seq<MessageRow>)
    ensures FlaggedLinesOf(a + b, messages) == FlaggedLinesOf(a, messages) + FlaggedLinesOf(b, messages)
    decreases |b|
  {
    if b == [] {
      assert a + b == a;
    } else {
      var b' := b[..|b| - 1];
      assert (a + b)[..|a + b| - 1] == a + b';
      assert (a + b)[|a + b| - 1] == b[|b| - 1];
      FlaggedLinesAppend(a, b', messages);
    }
  }

  /** Item `k` of `items`, when it is a dict with a valid index, gives the
      line `line`. */
  predicate GivesLine(items: seq<Json>, k: int, messages: seq<MessageRow>, line: Json)
  {
    0 <= k < |items| && items[k].JObj? && ValidIndex(items[k].fields, |messages|).Some? &&
    line == LineOf(items[k].fields, ValidIndex(items[k].fields, |messages|).value, messages)
  }

  /** Every flagged line comes from an item whose index is valid. */
  lemma {:induction false} FlaggedLinesSound(items: seq<Json>, messages: seq<MessageRow>, line: Json)
    requires line in FlaggedLinesOf(items, messages)
    ensures exists k :: GivesLine(items, k, messages, line)
    decreases |items|
  {
    var init := items[..|items| - 1];
    if line in FlaggedLinesOf(init, messages) {
      FlaggedLinesSound(init, messages, line);
      var k :| GivesLine(init, k, messages, line);
      assert items[k] == init[k];
      assert GivesLine(items, k, messages, line);
    } else {
      assert GivesLine(items, |items| - 1, messages, line);
    }
  }

  /** Every dict item with a valid index gives a line. */
  lemma {:induction false} FlaggedLinesComplete(items: seq<Json>, messages: seq<MessageRow>, k: int, line: Json)
    requires GivesLine(items, k, messages, line)
    ensures line in FlaggedLinesOf(items, messages)
    decreases |items|
  {
    var init := items[..|items| - 1];
    if k < |init| {
      assert init[k] == items[k];
      assert GivesLine(init, k, messages, line);
      FlaggedLinesComplete(init, messages, k, line);
    }
  }

  /** What a flagged line says: the message it points at, by index and id,
      the reason (the item's category, default `"other"`), the excerpt
      (default `""`) and the severity (default `None`). */
  lemma LineFields(fields: map<string, Json>, idx: int, messages: seq<MessageRow>)
    requires 0 <= idx < |messages|
    ensures var l := LineOf(fields, idx, messages);
      l.JObj? &&
      l.fields["message_index"] == JInt(idx) &&
      l.fields["message_id"] == JInt(messages[idx].id) &&
      l.fields["reason"] == (if "category" in fields then fields["category"] else JStr("other")) &&
      l.fields["excerpt"] == (if "excerpt" in fields then fields["excerpt"] else JStr("")) &&
      l.fields["severity"] == (if "severity" in fields then fields["severity"] else JNull)
  {
  }

  /** There are never more lines than items. */
  lemma {:induction false} FlaggedLinesCount(items: seq<Json>, messages: seq<MessageRow>)
    ensures |FlaggedLinesOf(items, messages)| <= |items|
    decreases |items|
  {
    if items != [] {
      FlaggedLinesCount(items[..|items| - 1], messages);
    }
  }

  /** The `scores` block, copied from the report's own entries. */
  function ScoresOf(report: map<string, Json>): (s: Json)
  {
    JObj(map["overall" := GetOr(report, "overall_score", JNull),
             "completion" := GetOr(report, "completion_score", JNull),
             "realistic" := GetOr(report, "realistic_score", JNull),
             "highest_severity" := GetOr(report, "highest_severity", JNull)])
  }

  /** A completed evaluation: the judges' verdicts and the final report. */
  datatype Evaluation = Evaluation(judges: seq<Json>, report: Json)

  /** The report once the flagged lines and the scores block are added. */
  function FinalReport(report: map<string, Json>, lines: seq<Json>): Json
  {
    JObj(report["scores" := ScoresOf(report)]["flagged_lines" := JArr(lines)])
  }

  /** The evaluation of an accepted request: judge, aggregate, then read
      the flagged lines out of the report. */
  function EvaluationOf(req: EvalRequest, ask: Ask, parse: Parse, dump: Json -> string, fmt: real -> string,
                        keyOrder: KeyOrder): Result<Evaluation, Exc>
  {
    var text := Join("\n", Lines(req.messages));
    match RunJudges(req.judges, JudgeOf(text, ask, parse))
    case Err(e) => Err(e)
    case Ok(verdicts) =>
      match RunAggregator(req.main, text, verdicts, ask, parse, dump, fmt)
      case Err(e) => Err(e)
      case Ok(agg) =>
        if !agg.JObj? then Err(BuiltinFault)
        else
          match Iterate(GetOr(agg.fields, "flagged_instances", JArr([])), keyOrder)
          case Err(e) => Err(e)
          case Ok(items) =>
            if !AllDicts(items) then Err(BuiltinFault)
            else Ok(Evaluation(verdicts, FinalReport(agg.fields, FlaggedLinesOf(items, req.messages))))
  }

  /** The final report keeps every entry of the aggregate report but
      `scores` and `flagged_lines`, whose values it sets: the scores block
      copies `overall_score`, `completion_score`, `realistic_score` and
      `highest_severity`. */
  lemma FinalReportEntries(report: map<string, Json>, lines: seq<Json>)
    ensures var f := FinalReport(report, lines);
      f.JObj? &&
      f.fields["flagged_lines"] == JArr(lines) &&
      f.fields["scores"] == ScoresOf(report) &&
      ScoresOf(report).fields["overall"] == GetOr(report, "overall_score", JNull) &&
      ScoresOf(report).fields["completion"] == GetOr(report, "completion_score", JNull) &&
      ScoresOf(report).fields["realistic"] == GetOr(report, "realistic_score", JNull) &&
      ScoresOf(report).fields["highest_severity"] == GetOr(report, "highest_severity", JNull) &&
      (forall k :: k in report && k != "scores" && k != "flagged_lines" ==> k in f.fields && f.fields[k] == report[k])
  {
  }

  /** A flagged line points at a message of the conversation: its index
      is in range and its id is that message's. */
  predicate PointsAtMessage(line: Json, messages: seq<MessageRow>)
  {
    line.JObj? && "message_index" in line.fields && line.fields["message_index"].JInt? &&
    0 <= line.fields["message_index"].i < |messages| &&
    "message_id" in line.fields && line.fields["message_id"] == JInt(messages[line.fields["message_index"].i].id)
  }

  /** Every entry of a report's `flagged_lines` points at a message. */
  predicate LinesPointAt(report: Json, messages: seq<MessageRow>)
  {
    report.JObj? && "flagged_lines" in report.fields && report.fields["flagged_lines"].JArr? &&
    forall line :: line in report.fields["flagged_lines"].items ==> PointsAtMessage(line, messages)
  }

  lemma FlaggedLinesPoint(items: seq<Json>, messages: seq<MessageRow>)
    ensures forall line :: line in FlaggedLinesOf(items, messages) ==> PointsAtMessage(line, messages)
  {
    forall line | line in FlaggedLinesOf(items, messages)
      ensures PointsAtMessage(line, messages)
    {
      FlaggedLinesSound(items, messages, line);
      var k :| GivesLine(items, k, messages, line);
      LineFields(items[k].fields, ValidIndex(items[k].fields, |messages|).value, messages);
    }
  }

  /** A completed evaluation holds each judge's verdict, in the order of
      the judge models, and a report whose `flagged_lines` all point at
      messages of the conversation. */
  lemma EvaluationCompleted(req: EvalRequest, ask: Ask, parse: Parse, dump: Json -> string, fmt: real -> string,
                            keyOrder: KeyOrder)
    ensures var e := EvaluationOf(req, ask, parse, dump, fmt, keyOrder);
      var text := Join("\n", Lines(req.messages));
      e.Ok? ==>
        |e.value.judges| == |req.judges| &&
        (forall k :: 0 <= k < |req.judges| ==> Ok(e.value.judges[k]) == RunJudge(req.judges[k], text, ask, parse)) &&
        LinesPointAt(e.value.report, req.messages)
  {
    var e := EvaluationOf(req, ask, parse, dump, fmt, keyOrder);
    var text := Join("\n", Lines(req.messages));
    if e.Ok? {
      RunJudgesEach(req.judges, JudgeOf(text, ask, parse));
      var verdicts := RunJudges(req.judges, JudgeOf(text, ask, parse)).value;
      var agg := RunAggregator(req.main, text, verdicts, ask, parse, dump, fmt).value;
      var items := Iterate(GetOr(agg.fields, "flagged_instances", JArr([])), keyOrder).value;
      assert e.value == Evaluation(verdicts, FinalReport(agg.fields, FlaggedLinesOf(items, req.messages)));
      FinalReportPoints(agg.fields, items, req.messages);
    }
  }

  /** The final report's `flagged_lines` all point at messages. */
  lemma FinalReportPoints(report: map<string, Json>, items: seq<Json>, messages: seq<MessageRow>)
    ensures LinesPointAt(FinalReport(report, FlaggedLinesOf(items, messages)), messages)
  {
    FlaggedLinesPoint(items, messages);
    FinalReportEntries(report, FlaggedLinesOf(items, messages));
  }

  /** How an evaluation ends, as `str(exc)` renders its exception; the text
      of a builtin's `TypeError` or `AttributeError` is `faultText`. */
  function ExcText(e: Exc, faultText: string): string
  {
    match e
    case Raise(m) => m
    case BuiltinFault => faultText
  }

  datatype EvalStatus = EvalRunning | EvalCompleted | EvalFailed

  /** A stored evaluation job. */
  class EvaluationJob {
    var id: int
    var conversationId: int
    var mainModelId: int
    var judgeModelIds: seq<int>
    var status: EvalStatus
    var results: Json
    var report: Json

    /** A new `running` job for a validated request. */
    constructor (id: int, conversationId: int, mainModelId: int, judgeModelIds: seq<int>)
      ensures this.id == id && this.conversationId == conversationId && this.mainModelId == mainModelId
      ensures this.judgeModelIds == judgeModelIds
      ensures status == EvalRunning && results == JNull && report == JNull
    {
      this.id := id;
      this.conversationId := conversationId;
      this.mainModelId := mainModelId;
      this.judgeModelIds := judgeModelIds;
      status := EvalRunning;
      results := JNull;
      report := JNull;
    }

    /** The job completes with the judges' verdicts and the report. */
    method Complete(e: Evaluation)
      modifies this
      ensures status == EvalCompleted
      ensures results == JObj(map["judges" := JArr(e.judges)]) && report == e.report
      ensures id == old(id) && conversationId == old(conversationId) && mainModelId == old(mainModelId)
      ensures judgeModelIds == old(judgeModelIds)
    {
      status := EvalCompleted;
      results := JObj(map["judges" := JArr(e.judges)]);
      report := e.report;
    }

    /** The job fails, recording the error text and keeping no report. */
    method Fail(text: string)
      modifies this
      ensures status == EvalFailed
      ensures results == JObj(map["error" := JStr(text)]) && report == old(report)
      ensures id == old(id) && conversationId == old(conversationId) && mainModelId == old(mainModelId)
      ensures judgeModelIds == old(judgeModelIds)
    {
      status := EvalFailed;
      results := JObj(map["error" := JStr(text)]);
    }
  }

  /** The evaluation itself: render the conversation, run the judges and
      the aggregator, and collect the flagged lines. */
  method Evaluate(req: EvalRequest, ask: Ask, parse: Parse, dump: Json -> string, fmt: real -> string,
                  keyOrder: KeyOrder) returns (r: Result<Evaluation, Exc>)
    ensures r == EvaluationOf(req, ask, parse, dump, fmt, keyOrder)
  {
    var text := ConversationToText(req.messages);
    var verdicts := RunJudges(req.judges, JudgeOf(text, ask, parse));
    if verdicts.Err? {
      return Err(verdicts.error);
    }
    var agg := RunAggregator(req.main, text, verdicts.value, ask, parse, dump, fmt);
    if agg.Err? {
      return Err(agg.error);
    }
    if !agg.value.JObj? {
      return Err(BuiltinFault);
    }
    var items := Iterate(GetOr(agg.value.fields, "flagged_instances", JArr([])), keyOrder);
    if items.Err? {
      return Err(items.error);
    }
    var lines := FlaggedLines(items.value, req.messages);
    if lines.Err? {
      return Err(lines.error);
    }
    r := Ok(Evaluation(verdicts.value, FinalReport(agg.value.fields, lines.value)));
  }

  /** `create_evaluation`: validate, store a `running` job under `id`, and
      evaluate. The job ends `completed` (answer 201 with its id) or
      `failed` with `{"error": text}` (answer 500, "Evaluation failed: "
      and the text). A request that fails validation stores no job. */
  method CreateEvaluation(id: int, body: Option<Json>, conversations: map<int, seq<MessageRow>>,
                          models: map<int, ModelIdentity>, keyOrder: KeyOrder, ask: Ask, parse: Parse,
                          dump: Json -> string, fmt: real -> string, faultText: string)
    returns (r: Result<int, ApiError>, job: EvaluationJob?)
    ensures var v := Validate(body, conversations, models, keyOrder);
      v.Err? ==> r == Err(v.error) && job == null
    ensures var v := Validate(body, conversations, models, keyOrder);
      v.Ok? ==>
        job != null && fresh(job) &&
        job.id == id && job.conversationId == v.value.conversationId &&
        job.mainModelId == v.value.main.id && job.judgeModelIds == v.value.judgeIds &&
        var e := EvaluationOf(v.value, ask, parse, dump, fmt, keyOrder);
        (e.Ok? ==> job.status == EvalCompleted && job.results == JObj(map["judges" := JArr(e.value.judges)]) &&
                   job.report == e.value.report && r == Ok(id)) &&
        (e.Err? ==> job.status == EvalFailed && job.results == JObj(map["error" := JStr(ExcText(e.error, faultText))]) &&
                    job.report == JNull && r == Err(Reject(500, "Evaluation failed: " + ExcText(e.error, faultText))))
  {
    var v := Validate(body, conversations, models, keyOrder);
    if v.Err? {
      return Err(v.error), null;
    }
    var req := v.value;
    job := new EvaluationJob(id, req.conversationId, req.main.id, req.judgeIds);
    var e := Evaluate(req, ask, parse, dump, fmt, keyOrder);
    if e.Ok? {
      job.Complete(e.value);
      r := Ok(id);
    } else {
      var text := ExcText(e.error, faultText);
      job.Fail(text);
      r := Err(Reject(500, "Evaluation failed: " + text));
    }
  }
}
