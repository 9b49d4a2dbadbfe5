/** Conversation judging (app/evaluator.py): a conversation is rendered as
    numbered lines, each judge model is asked for a JSON verdict that is
    dug out of its reply and normalised, and a main model aggregates the
    verdicts, with a fallback computed in code when its own reply is not a
    JSON object.

    `json.loads` is a supplied parser (`Parse`) and `json.dumps` a supplied
    renderer; connectors are one supplied function (`Ask`) from a prompt to
    the reply text or the text of the exception the connector raised.
    Scores are exact reals. */
module Evaluator {
  import opened Wrappers
  import opened Text
  import opened PyJson
  import opened Entities
  import opened Turns

  /** An exception that escapes a call: one whose text the model knows
      (`ValueError`s raised here, the parser's `JSONDecodeError`, a
      connector's error), or a `TypeError`/`ValueError`/`AttributeError`
      raised by a Python builtin on a value of the wrong shape. */
  datatype Exc = Raise(message: string) | BuiltinFault

  /** `json.loads`: the value, or the text of the `JSONDecodeError`. */
  type Parse = string -> Result<Json, string>

  /** One single-message `connector.chat` call of the evaluator: the
      connector, the prompt (whose text is `content.Text()`), and the
      settings `model`, `temperature` and `max_tokens`. */
  datatype Prompt = Prompt(connector: ConnectorKind, content: PromptText, model: string, temperature: real, maxTokens: int)

  /** The connector's reply text, or the text of the exception it raised. */
  type Ask = Prompt -> Result<string, string>

  /** A stored message with its row id, as read back for a conversation. */
  datatype MessageRow = MessageRow(id: int, message: Message)

  /** Line `i` of the rendered conversation: `[i] role: content`. */
  function MessageLine(i: nat, m: Message): string
  {
    "[" + IntToString(i) + "] " + RoleName(m.role) + ": " + m.content
  }

  /** The lines of a conversation, one per message. */
  function Lines(rows: seq<MessageRow>): (ls: seq<string>)
    ensures |ls| == |rows|
  {
    seq(|rows|, i requires 0 <= i < |rows| => MessageLine(i, rows[i].message))
  }

  /** `conversation_to_text`: the lines joined by newlines. */
  method ConversationToText(rows: seq<MessageRow>) returns (text: string)
    ensures text == Join("\n", Lines(rows))
  {
    var lines: seq<string> := [];
    var idx := 0;
    while idx < |rows|
      invariant 0 <= idx <= |rows|
      invariant lines == Lines(rows)[..idx]
    {
      lines := lines + [MessageLine(idx, rows[idx].message)];
      idx := idx + 1;
    }
    assert lines == Lines(rows);
    text := Join("\n", lines);
  }

  /** A line holds a newline only where its message content does. */
  lemma MessageLineHasNoNewline(i: nat, m: Message)
    requires '\n' !in m.content
    ensures '\n' !in MessageLine(i, m)
  {
    var d := IntToString(i);
    DigitsValueOfNatToString(i);
    assert forall k :: 0 <= k < |d| ==> d[k] != '\n';
    assert '\n' !in RoleName(m.role);
  }

  /** The rendered conversation splits back at its newlines into one line
      per message, in order, when no message content holds a newline. */
  lemma ConversationTextLines(rows: seq<MessageRow>)
    requires |rows| >= 1
    requires forall i :: 0 <= i < |rows| ==> '\n' !in rows[i].message.content
    ensures SplitOn(Join("\n", Lines(rows)), '\n') == Lines(rows)
    ensures forall i :: 0 <= i < |rows| ==> Lines(rows)[i] == MessageLine(i, rows[i].message)
  {
    var ls := Lines(rows);
    forall i | 0 <= i < |ls|
      ensures '\n' !in ls[i]
    {
      MessageLineHasNoNewline(i, rows[i].message);
    }
    SplitOnJoin(ls, '\n');
  }

  /** The span of `t` from the first `open` to the last `close`, when both
      occur and the close comes after the open. */
  function Span(t: string, open: char, close: char): (r: Option<string>)
    ensures r.Some? <==> 0 <= Find(t, open) < RFind(t, close)
    ensures r.Some? ==> r.value == t[Find(t, open)..RFind(t, close) + 1]
    ensures r.Some? ==> |r.value| >= 2 && r.value[0] == open && r.value[|r.value| - 1] == close
  {
    var s := Find(t, open);
    var e := RFind(t, close);
    if s != -1 && e != -1 && e > s then Some(t[s..e + 1]) else None
  }

  /** `_extract_json_block(raw_text)`. */
  function ExtractJsonBlock(raw: string, parse: Parse): (r: Result<Json, Exc>)
  {
    var t := Strip(raw);
    if parse(t).Ok? then Ok(parse(t).value)
    else
      var obj := Span(t, '{', '}');
      if obj.Some? && parse(obj.value).Ok? then Ok(parse(obj.value).value)
      else
        match Span(t, '[', ']')
        case Some(arr) =>
          (match parse(arr)
           case Ok(v) => Ok(v)
           case Err(e) => Err(Raise(e)))
        case None => Err(Raise("Model output is not valid JSON"))
  }

  /** The three attempts of `_extract_json_block`, in order: the whole
      stripped text; the span from its first `{` to its last `}`; the span
      from its first `[` to its last `]`, whose parse error propagates. With
      no bracket span left, the result is the `ValueError`. */
  lemma ExtractJsonBlockOrder(raw: string, parse: Parse)
    ensures var t := Strip(raw);
      var r := ExtractJsonBlock(raw, parse);
      var obj := Span(t, '{', '}');
      var arr := Span(t, '[', ']');
      (parse(t).Ok? ==> r == Ok(parse(t).value)) &&
      (parse(t).Err? && obj.Some? && parse(obj.value).Ok? ==> r == Ok(parse(obj.value).value)) &&
      (parse(t).Err? && (obj.None? || parse(obj.value).Err?) ==>
         (arr.Some? ==> r == (match parse(arr.value) case Ok(v) => Ok(v) case Err(e) => Err(Raise(e)))) &&
         (arr.None? ==> r == Err(Raise("Model output is not valid JSON")))) &&
      (r.Ok? <==> parse(t).Ok? || (obj.Some? && parse(obj.value).Ok?) || (arr.Some? && parse(arr.value).Ok?))
  {
  }

  /** `normalize_judge_output(parsed)`: a list is the issue list, with no
      scores and empty notes; an object keeps its `issues` only when they
      form a list; anything else is a `ValueError`. */
  function NormalizeJudgeOutput(parsed: Json): (r: Result<map<string, Json>, Exc>)
    ensures r.Ok? <==> parsed.JArr? || parsed.JObj?
    ensures r.Err? ==> r.error == Raise("Judge output JSON must be an object or array")
    ensures r.Ok? ==> r.value.Keys == {"issues", "completion_score", "realistic_score", "notes"} && r.value["issues"].JArr?
    ensures parsed.JArr? ==>
      (r.Ok? && r.value["issues"] == parsed &&
       r.value["completion_score"] == JNull && r.value["realistic_score"] == JNull && r.value["notes"] == JStr(""))
    ensures parsed.JObj? ==>
      (r.Ok? &&
       r.value["issues"] == (if "issues" in parsed.fields && parsed.fields["issues"].JArr? then parsed.fields["issues"] else JArr([])) &&
       r.value["completion_score"] == GetOr(parsed.fields, "completion_score", JNull) &&
       r.value["realistic_score"] == GetOr(parsed.fields, "realistic_score", JNull) &&
       r.value["notes"] == GetOr(parsed.fields, "notes", JStr("")))
  {
    match parsed
    case JArr(_) =>
      Ok(map["issues" := parsed, "completion_score" := JNull, "realistic_score" := JNull, "notes" := JStr("")])
    case JObj(fields) =>
      var issues := GetOr(fields, "issues", JNull);
      Ok(map["issues" := if issues.JArr? then issues else JArr([]),
             "completion_score" := GetOr(fields, "completion_score", JNull),
             "realistic_score" := GetOr(fields, "realistic_score", JNull),
             "notes" := GetOr(fields, "notes", JStr(""))])
    case _ => Err(Raise("Judge output JSON must be an object or array"))
  }

  /** `JUDGE_TEMPLATE` up to its `{conversation_text}` slot, with the
      doubled braces of the format string written once. */
  const JudgeTemplate: string := "You are an expert evaluator. Analyze the conversation and return strict JSON with this exact shape: {\"issues\":[{\"message_index\":0,\"category\":\"hallucination|forbidden|other\",\"excerpt\":\"text\",\"severity\":1}],\"completion_score\":0,\"realistic_score\":0,\"notes\":\"short summary\"}. Severity range is 1-5. completion_score and realistic_score are 0-100 integers. Only include an issue if a concrete problem exists and always map message_index to the conversation list index.\n\nConversation:\n"

  /** `AGGREGATOR_TEMPLATE` up to its `{conversation_text}` slot. */
  const AggregatorTemplate: string := "You are the main evaluation aggregator. Given the conversation and judge outputs, return strict JSON with shape: {\"summary\":\"...\",\"overall_score\":0.0,\"total_issues\":0,\"highest_severity\":0,\"completion_score\":0,\"realistic_score\":0,\"flagged_instances\":[{\"message_index\":0,\"category\":\"...\",\"excerpt\":\"...\",\"severity\":1}]}.\n\nConversation:\n"

  /** The prompt of an evaluator call, as the template it fills and the
      values it fills in; `Text()` is the string the connector is sent. */
  datatype PromptText =
    /** `JUDGE_TEMPLATE.format(conversation_text=conversation)` */
    | JudgePrompt(conversation: string)
    /** `AGGREGATOR_TEMPLATE.format(conversation_text=conversation, judge_outputs=judgeOutputs)` */
    | AggregatorPrompt(conversation: string, judgeOutputs: string)
  {
    function Text(): string
    {
      match this
      case JudgePrompt(c) => JudgeTemplate + c
      case AggregatorPrompt(c, o) => AggregatorTemplate + c + "\n\nJudge Outputs:\n" + o
    }
  }

  /** The single connector call of the evaluator: the model's connector
      (chosen by `connector_for_model`, the same dispatch on the lower-cased
      backend as the turn loop's), asked with the prompt `content` at temperature 0.
      A connector that cannot be built, or a call that raises, is the
      exception that escapes. */
  function AskModel(m: ModelIdentity, content: PromptText, maxTokens: int, ask: Ask): Result<string, Exc>
  {
    match AgentConnector(m.backend)
    case Err(e) => Err(Raise(e))
    case Ok(kind) =>
      match ask(Prompt(kind, content, m.modelName, 0.0, maxTokens))
      case Err(e) => Err(Raise(e))
      case Ok(reply) => Ok(reply)
  }

  /** The verdict of judge `m` from the JSON extracted from its reply:
      normalised and tagged with the judge's id and name. */
  function TagVerdict(m: ModelIdentity, parsed: Result<Json, Exc>): Result<Json, Exc>
  {
    match parsed
    case Err(e) => Err(e)
    case Ok(v) =>
      match NormalizeJudgeOutput(v)
      case Err(e) => Err(e)
      case Ok(normalized) =>
        Ok(JObj(normalized["judge_model_id" := JInt(m.id)]["judge_model_name" := JStr(m.name)]))
  }

  /** The verdict of judge `m` once it has replied. */
  function JudgeVerdict(m: ModelIdentity, reply: string, parse: Parse): Result<Json, Exc>
  {
    TagVerdict(m, ExtractJsonBlock(reply, parse))
  }

  /** A judge model asked with `prompt` at temperature 0 and at most 800
      tokens; its reply is extracted, normalised and tagged. Every failure
      propagates. */
  function JudgeWith(m: ModelIdentity, prompt: PromptText, ask: Ask, parse: Parse): Result<Json, Exc>
  {
    match AskModel(m, prompt, 800, ask)
    case Err(e) => Err(e)
    case Ok(reply) => JudgeVerdict(m, reply, parse)
  }

  /** `run_judge(model, text)`: the judge asked with the judge prompt. */
  function RunJudge(m: ModelIdentity, text: string, ask: Ask, parse: Parse): Result<Json, Exc>
  {
    JudgeWith(m, JudgePrompt(text), ask, parse)
  }

  /** A judge with an unsupported backend fails with `Unsupported backend`
      before any call; a call that raises fails the judge with the
      connector's error; otherwise the judge's verdict is read from the one
      reply to its prompt, sent at temperature 0 with at most 800 tokens. */
  lemma JudgeWithOutcome(m: ModelIdentity, prompt: PromptText, ask: Ask, parse: Parse)
    ensures var r := JudgeWith(m, prompt, ask, parse);
      var kind := AgentConnector(m.backend);
      (kind.Err? ==> r == Err(Raise("Unsupported backend: " + m.backend))) &&
      (kind.Ok? ==>
         var reply := ask(Prompt(kind.value, prompt, m.modelName, 0.0, 800));
         (reply.Err? ==> r == Err(Raise(reply.error))) &&
         (reply.Ok? ==> r == JudgeVerdict(m, reply.value, parse)))
  {
  }

  /** A verdict is an object holding a list of issues, the two scores and
      the notes of the normalised output, tagged with the judge model's id
      and name; it fails exactly when no JSON could be extracted from the
      reply (with that error) or that JSON is neither an object nor a list. */
  lemma TagVerdictShape(m: ModelIdentity, parsed: Result<Json, Exc>)
    ensures var r := TagVerdict(m, parsed);
      (r.Ok? <==> parsed.Ok? && (parsed.value.JArr? || parsed.value.JObj?)) &&
      (parsed.Err? ==> r == Err(parsed.error)) &&
      (r.Ok? ==>
         r.value.JObj? &&
         r.value.fields.Keys == {"issues", "completion_score", "realistic_score", "notes", "judge_model_id", "judge_model_name"} &&
         r.value.fields["issues"].JArr? &&
         r.value.fields["judge_model_id"] == JInt(m.id) && r.value.fields["judge_model_name"] == JStr(m.name))
  {
    if parsed.Ok? {
      var n := NormalizeJudgeOutput(parsed.value);
      if n.Ok? {
        var f := n.value["judge_model_id" := JInt(m.id)]["judge_model_name" := JStr(m.name)];
        assert f.Keys == n.value.Keys + {"judge_model_id", "judge_model_name"};
      }
    }
  }

  // ---------------------------------------------------------------------
  // `_code_aggregate`

  /** What `_code_aggregate` has accumulated: the flagged instances, the
      highest severity, and the numeric completion and realistic scores. */
  datatype Tally = Tally(flagged: seq<Json>, highest: int, completions: seq<real>, realistics: seq<real>)

  const EmptyTally := Tally([], 0, [], [])

  /** The issues `for issue in result.get("issues", [])` visits. A result
      that is not a dict, or an `issues` value whose iteration yields
      strings (a non-empty string or dict) or that cannot be iterated,
      raises. */
  function IssuesOf(result: Json): (r: Result<seq<Json>, Exc>)
    ensures r.Ok? ==> result.JObj?
  {
    if !result.JObj? then Err(BuiltinFault)
    else
      match GetOr(result.fields, "issues", JArr([]))
      case JArr(items) => Ok(items)
      case JStr(s) => if s == [] then Ok([]) else Err(BuiltinFault)
      case JObj(f) => if f == map[] then Ok([]) else Err(BuiltinFault)
      case _ => Err(BuiltinFault)
  }

  /** `int(issue.get("severity", 0) or 0)`, for an issue that is a dict. */
  function Severity(fields: map<string, Json>): Option<int>
  {
    ToInt(Or(GetOr(fields, "severity", JInt(0)), JInt(0)))
  }

  /** The flagged instance recorded for an issue of the judge `judgeId`. */
  function FlagOf(fields: map<string, Json>, severity: int, judgeId: Json): (f: Json)
  {
    JObj(map["message_index" := GetOr(fields, "message_index", JNull),
             "category" := GetOr(fields, "category", JStr("other")),
             "excerpt" := GetOr(fields, "excerpt", JStr("")),
             "severity" := JInt(severity),
             "judge_model_id" := judgeId])
  }

  /** The body of the inner loop for one issue. */
  function IssueStep(t: Tally, issue: Json, judgeId: Json): Result<Tally, Exc>
  {
    if !issue.JObj? then Err(BuiltinFault)
    else
      match Severity(issue.fields)
      case None => Err(BuiltinFault)
      case Some(sev) =>
        Ok(t.(flagged := t.flagged + [FlagOf(issue.fields, sev, judgeId)],
              highest := if sev > t.highest then sev else t.highest))
  }

  /** The inner loop over the issues `items` of one judge, from tally `t`. */
  function TallyIssues(t: Tally, items: seq<Json>, judgeId: Json): Result<Tally, Exc>
    decreases |items|
  {
    if items == [] then Ok(t)
    else
      match IssueStep(t, items[0], judgeId)
      case Err(e) => Err(e)
      case Ok(t2) => TallyIssues(t2, items[1..], judgeId)
  }

  /** `[float(v)]` when `v` is an `int` or `float`, else nothing. */
  function NumericScore(v: Json): seq<real>
  {
    if IsNumber(v) then [NumberValue(v)] else []
  }

  /** The body of the outer loop for one judge result. */
  function TallyResult(t: Tally, result: Json): Result<Tally, Exc>
  {
    match IssuesOf(result)
    case Err(e) => Err(e)
    case Ok(items) =>
      match TallyIssues(t, items, GetOr(result.fields, "judge_model_id", JNull))
      case Err(e) => Err(e)
      case Ok(t2) =>
        Ok(t2.(completions := t2.completions + NumericScore(GetOr(result.fields, "completion_score", JNull)),
               realistics := t2.realistics + NumericScore(GetOr(result.fields, "realistic_score", JNull))))
  }

  /** The outer loop over the judge results, from tally `t`. */
  function TallyFrom(t: Tally, results: seq<Json>): Result<Tally, Exc>
    decreases |results|
  {
    if results == [] then Ok(t)
    else
      match TallyResult(t, results[0])
      case Err(e) => Err(e)
      case Ok(t2) => TallyFrom(t2, results[1..])
  }

  function Sum(xs: seq<real>): real
  {
    if xs == [] then 0.0 else xs[0] + Sum(xs[1..])
  }

  /** `sum(xs) / len(xs) if xs else 0.0` */
  function Average(xs: seq<real>): real
  {
    if xs == [] then 0.0 else Sum(xs) / (|xs| as real)
  }

  /** `min(0.5, issues * 0.05 + highest * 0.03)` */
  function Penalty(issues: nat, highest: int): (p: real)
    ensures p <= 0.5
    ensures highest >= 0 ==> p >= 0.0
  {
    var raw := issues as real * 0.05 + highest as real * 0.03;
    if raw < 0.5 then raw else 0.5
  }

  /** `max(0.0, min(1.0, base - penalty))` with the base the mean of the two
      average scores read as percentages. */
  function Overall(issues: nat, highest: int, completion: real, realistic: real): (s: real)
    ensures 0.0 <= s <= 1.0
  {
    var base := (completion / 100.0) * 0.5 + (realistic / 100.0) * 0.5;
    var v := base - Penalty(issues, highest);
    if v > 1.0 then 1.0 else if v < 0.0 then 0.0 else v
  }

  /** The `summary` line; `fmt` renders a float with one decimal (`:.1f`). */
  function Summary(issues: nat, highest: int, completion: real, realistic: real, fmt: real -> string): string
  {
    "Total issues: " + IntToString(issues) + "; highest severity: " + IntToString(highest) + "; " +
    "Completeness: " + fmt(completion) + "; Realistic: " + fmt(realistic) + "."
  }

  /** The report `_code_aggregate` returns for a final tally. */
  function Report(t: Tally, fmt: real -> string): Json
  {
    var c := Average(t.completions);
    var r := Average(t.realistics);
    JObj(map["summary" := JStr(Summary(|t.flagged|, t.highest, c, r, fmt)),
             "overall_score" := JFloat(Overall(|t.flagged|, t.highest, c, r)),
             "total_issues" := JInt(|t.flagged|),
             "highest_severity" := JInt(t.highest),
             "completion_score" := JFloat(c),
             "realistic_score" := JFloat(r),
             "flagged_instances" := JArr(t.flagged)])
  }

  /** The entries of a report, read back. */
  lemma ReportEntries(t: Tally, fmt: real -> string)
    ensures var rep := Report(t, fmt);
      rep.JObj? &&
      rep.fields.Keys == {"summary", "overall_score", "total_issues", "highest_severity", "completion_score", "realistic_score", "flagged_instances"} &&
      rep.fields["total_issues"] == JInt(|t.flagged|) &&
      rep.fields["flagged_instances"] == JArr(t.flagged) &&
      rep.fields["highest_severity"] == JInt(t.highest) &&
      rep.fields["completion_score"] == JFloat(Average(t.completions)) &&
      rep.fields["realistic_score"] == JFloat(Average(t.realistics)) &&
      rep.fields["overall_score"] == JFloat(Overall(|t.flagged|, t.highest, Average(t.completions), Average(t.realistics)))
  {
  }

  /** `_code_aggregate(judge_results)` as a value. */
  function CodeAggregateOf(results: seq<Json>, fmt: real -> string): Result<Json, Exc>
  {
    match TallyFrom(EmptyTally, results)
    case Err(e) => Err(e)
    case Ok(t) => Ok(Report(t, fmt))
  }

  /** `_code_aggregate(judge_results)`: the judges' issues are flagged in
      judge-then-issue order, the highest severity and the numeric scores
      are collected, and the report is built from them. */
  method CodeAggregate(results: seq<Json>, fmt: real -> string) returns (r: Result<Json, Exc>)
    ensures r == CodeAggregateOf(results, fmt)
  {
    var flagged: seq<Json> := [];
    var highest := 0;
    var completionScores: seq<real> := [];
    var realisticScores: seq<real> := [];
    var i := 0;
    while i < |results|
      invariant 0 <= i <= |results|
      invariant TallyFrom(EmptyTally, results) == TallyFrom(Tally(flagged, highest, completionScores, realisticScores), results[i..])
    {
      var result := results[i];
      assert results[i..][0] == result && results[i..][1..] == results[i + 1..];
      var issues := IssuesOf(result);
      if issues.Err? {
        return Err(issues.error);
      }
      var judgeId := GetOr(result.fields, "judge_model_id", JNull);
      var items := issues.value;
      ghost var before := Tally(flagged, highest, completionScores, realisticScores);
      var k := 0;
      while k < |items|
        invariant 0 <= k <= |items|
        invariant TallyIssues(before, items, judgeId) ==
          TallyIssues(Tally(flagged, highest, completionScores, realisticScores), items[k..], judgeId)
        invariant completionScores == before.completions && realisticScores == before.realistics
      {
        var issue := items[k];
        assert items[k..][0] == issue && items[k..][1..] == items[k + 1..];
        if !issue.JObj? {
          return Err(BuiltinFault);
        }
        var severity := Severity(issue.fields);
        if severity.None? {
          return Err(BuiltinFault);
        }
        highest := if severity.value > highest then severity.value else highest;
        flagged := flagged + [FlagOf(issue.fields, severity.value, judgeId)];
        k := k + 1;
      }
      assert items[k..] == [];
      ghost var mid := Tally(flagged, highest, completionScores, realisticScores);
      assert TallyIssues(before, items, judgeId) == Ok(mid);
      var completion := GetOr(result.fields, "completion_score", JNull);
      if IsNumber(completion) {
        completionScores := completionScores + [NumberValue(completion)];
      }
      assert completionScores == mid.completions + NumericScore(completion);
      var realistic := GetOr(result.fields, "realistic_score", JNull);
      if IsNumber(realistic) {
        realisticScores := realisticScores + [NumberValue(realistic)];
      }
      assert realisticScores == mid.realistics + NumericScore(realistic);
      assert TallyResult(before, result) == Ok(Tally(flagged, highest, completionScores, realisticScores));
      i := i + 1;
    }
    r := Ok(Report(Tally(flagged, highest, completionScores, realisticScores), fmt));
  }

  // Properties of the fallback aggregation.

  /** The flagged instances of one judge result: one per issue, in order. */
  function IssueFlags(items: seq<Json>, judgeId: Json): (fs: seq<Json>)
    ensures |fs| == |items|
  {
    if items == [] then []
    else
      var issue := items[0];
      var sev := if issue.JObj? then Severity(issue.fields).GetOr(0) else 0;
      [FlagOf(if issue.JObj? then issue.fields else map[], sev, judgeId)] + IssueFlags(items[1..], judgeId)
  }

  function ResultFlags(result: Json): seq<Json>
  {
    match IssuesOf(result)
    case Ok(items) => IssueFlags(items, GetOr(result.fields, "judge_model_id", JNull))
    case Err(_) => []
  }

  function ResultScore(result: Json, key: string): seq<real>
  {
    if result.JObj? then NumericScore(GetOr(result.fields, key, JNull)) else []
  }

  /** The flagged instances of all judge results, judge by judge. */
  function Flags(results: seq<Json>): seq<Json>
  {
    if results == [] then [] else ResultFlags(results[0]) + Flags(results[1..])
  }

  /** The number of issues the judges report. */
  function IssueCount(results: seq<Json>): nat
  {
    if results == [] then 0
    else (match IssuesOf(results[0]) case Ok(items) => |items| case Err(_) => 0) + IssueCount(results[1..])
  }

  /** The numeric values of one score across the judges, in judge order. */
  function NumericScores(results: seq<Json>, key: string): seq<real>
  {
    if results == [] then [] else ResultScore(results[0], key) + NumericScores(results[1..], key)
  }

  /** `Flags` and `IssueCount` agree: one flagged instance per issue. */
  lemma {:induction false} FlagsCount(results: seq<Json>)
    ensures |Flags(results)| == IssueCount(results)
  {
    if results != [] {
      FlagsCount(results[1..]);
    }
  }

  /** The severity recorded in a flagged instance. */
  function FlagSeverity(f: Json): int
  {
    if f.JObj? && "severity" in f.fields && f.fields["severity"].JInt? then f.fields["severity"].i else 0
  }

  /** `h` is `max(0, severities of fs)`. */
  predicate IsMaxSeverity(h: int, fs: seq<Json>) {
    h >= 0 &&
    (forall k :: 0 <= k < |fs| ==> FlagSeverity(fs[k]) <= h) &&
    (h == 0 || exists k :: 0 <= k < |fs| && FlagSeverity(fs[k]) == h)
  }

  /** One issue appends its flagged instance and keeps the highest severity
      the maximum. */
  lemma IssueStepSpec(t: Tally, issue: Json, judgeId: Json)
    requires IsMaxSeverity(t.highest, t.flagged)
    ensures var r := IssueStep(t, issue, judgeId);
      r.Ok? ==>
        issue.JObj? && Severity(issue.fields).Some? &&
        r.value.flagged == t.flagged + [FlagOf(issue.fields, Severity(issue.fields).value, judgeId)] &&
        r.value.completions == t.completions && r.value.realistics == t.realistics &&
        IsMaxSeverity(r.value.highest, r.value.flagged)
  {
    var r := IssueStep(t, issue, judgeId);
    if r.Ok? {
      var t2 := r.value;
      assert FlagSeverity(t2.flagged[|t.flagged|]) == Severity(issue.fields).value;
      forall k | 0 <= k < |t2.flagged|
        ensures FlagSeverity(t2.flagged[k]) <= t2.highest
      {
        if k < |t.flagged| {
          assert t2.flagged[k] == t.flagged[k];
        }
      }
      if t2.highest != 0 {
        if t2.highest == t.highest {
          var k :| 0 <= k < |t.flagged| && FlagSeverity(t.flagged[k]) == t.highest;
          assert t2.flagged[k] == t.flagged[k];
        } else {
          assert FlagSeverity(t2.flagged[|t.flagged|]) == t2.highest;
        }
      }
    }
  }

  /** The inner loop appends one flagged instance per issue, in order, and
      keeps the highest severity the maximum of those seen. */
  lemma {:induction false} TallyIssuesSpec(t: Tally, items: seq<Json>, judgeId: Json)
    requires IsMaxSeverity(t.highest, t.flagged)
    ensures var r := TallyIssues(t, items, judgeId);
      r.Ok? ==>
        r.value.flagged == t.flagged + IssueFlags(items, judgeId) &&
        r.value.completions == t.completions && r.value.realistics == t.realistics &&
        IsMaxSeverity(r.value.highest, r.value.flagged)
    decreases |items|
  {
    if items != [] {
      IssueStepSpec(t, items[0], judgeId);
      match IssueStep(t, items[0], judgeId)
      case Err(_) =>
      case Ok(t2) =>
        TallyIssuesSpec(t2, items[1..], judgeId);
        assert IssueFlags(items, judgeId) == [t2.flagged[|t.flagged|]] + IssueFlags(items[1..], judgeId);
        assert t2.flagged == t.flagged + [t2.flagged[|t.flagged|]];
    }
  }

  /** One judge result adds its flagged instances and its numeric scores. */
  lemma TallyResultSpec(t: Tally, result: Json)
    requires IsMaxSeverity(t.highest, t.flagged)
    ensures var r := TallyResult(t, result);
      r.Ok? ==>
        r.value.flagged == t.flagged + ResultFlags(result) &&
        r.value.completions == t.completions + ResultScore(result, "completion_score") &&
        r.value.realistics == t.realistics + ResultScore(result, "realistic_score") &&
        IsMaxSeverity(r.value.highest, r.value.flagged)
  {
    match IssuesOf(result)
    case Err(_) =>
    case Ok(items) =>
      TallyIssuesSpec(t, items, GetOr(result.fields, "judge_model_id", JNull));
  }

  /** The outer loop adds the flagged instances of every judge in
      judge-then-issue order, one per issue, and the highest severity
      stays the largest of 0 and every recorded severity. */
  lemma {:induction false} TallyFromFlags(t: Tally, results: seq<Json>)
    requires IsMaxSeverity(t.highest, t.flagged)
    ensures var r := TallyFrom(t, results);
      r.Ok? ==>
        r.value.flagged == t.flagged + Flags(results) &&
        IsMaxSeverity(r.value.highest, r.value.flagged)
    decreases |results|
  {
    var r0 := if results == [] then Ok(t) else TallyResult(t, results[0]);
    if results != [] && r0.Ok? {
      TallyResultSpec(t, results[0]);
      var t2 := r0.value;
      assert TallyFrom(t, results) == TallyFrom(t2, results[1..]);
      TallyFromFlags(t2, results[1..]);
      assert Flags(results) == ResultFlags(results[0]) + Flags(results[1..]);
      assert t2.flagged + Flags(results[1..]) == t.flagged + Flags(results);
    }
  }

  /** The outer loop adds the numeric scores of every judge, in judge
      order. */
  lemma {:induction false} TallyFromScores(t: Tally, results: seq<Json>)
    requires IsMaxSeverity(t.highest, t.flagged)
    ensures var r := TallyFrom(t, results);
      r.Ok? ==>
        r.value.completions == t.completions + NumericScores(results, "completion_score") &&
        r.value.realistics == t.realistics + NumericScores(results, "realistic_score")
    decreases |results|
  {
    var r0 := if results == [] then Ok(t) else TallyResult(t, results[0]);
    if results != [] && r0.Ok? {
      TallyResultSpec(t, results[0]);
      var t2 := r0.value;
      assert TallyFrom(t, results) == TallyFrom(t2, results[1..]);
      TallyFromScores(t2, results[1..]);
      assert t.completions + NumericScores(results, "completion_score") ==
        t2.completions + NumericScores(results[1..], "completion_score");
      assert t.realistics + NumericScores(results, "realistic_score") ==
        t2.realistics + NumericScores(results[1..], "realistic_score");
    }
  }

  /** The counts of the fallback report: `total_issues` is the number of
      issues all judges report, `flagged_instances` lists them judge by
      judge, and `highest_severity` is the largest severity (0 without
      issues). */
  lemma CodeAggregateCounts(results: seq<Json>, fmt: real -> string)
    ensures var r := CodeAggregateOf(results, fmt);
      r.Ok? ==>
        r.value.JObj? &&
        r.value.fields["total_issues"] == JInt(IssueCount(results)) &&
        r.value.fields["flagged_instances"] == JArr(Flags(results)) &&
        r.value.fields["highest_severity"].JInt? &&
        IsMaxSeverity(r.value.fields["highest_severity"].i, Flags(results))
  {
    TallyFromFlags(EmptyTally, results);
    FlagsCount(results);
    var t := TallyFrom(EmptyTally, results);
    if t.Ok? {
      ReportEntries(t.value, fmt);
    }
  }

  /** The scores of the fallback report: the two averages are over the
      numeric scores only (0 without any), and `overall_score` lies in
      [0, 1]. */
  lemma CodeAggregateScores(results: seq<Json>, fmt: real -> string)
    ensures var r := CodeAggregateOf(results, fmt);
      r.Ok? ==>
        r.value.JObj? &&
        r.value.fields["completion_score"] == JFloat(Average(NumericScores(results, "completion_score"))) &&
        r.value.fields["realistic_score"] == JFloat(Average(NumericScores(results, "realistic_score"))) &&
        r.value.fields["overall_score"].JFloat? &&
        0.0 <= r.value.fields["overall_score"].f <= 1.0
  {
    TallyFromScores(EmptyTally, results);
    var t := TallyFrom(EmptyTally, results);
    if t.Ok? {
      ReportEntries(t.value, fmt);
      var cs := NumericScores(results, "completion_score");
      var rs := NumericScores(results, "realistic_score");
      assert [] + cs == cs && [] + rs == rs;
    }
  }

  /** Each flagged instance carries its issue's message index, its category
      (default `"other"`), its excerpt (default `""`), its severity and the
      id of the judge that reported it. */
  lemma FlagDefaults(fields: map<string, Json>, severity: int, judgeId: Json)
    ensures var f := FlagOf(fields, severity, judgeId);
      f.JObj? && f.fields.Keys == {"message_index", "category", "excerpt", "severity", "judge_model_id"} &&
      f.fields["judge_model_id"] == judgeId &&
      f.fields["category"] == (if "category" in fields then fields["category"] else JStr("other")) &&
      f.fields["excerpt"] == (if "excerpt" in fields then fields["excerpt"] else JStr("")) &&
      f.fields["message_index"] == (if "message_index" in fields then fields["message_index"] else JNull) &&
      FlagSeverity(f) == severity
  {
  }

  /** One more issue, with the scores unchanged, never raises the overall
      score: the penalty grows with the issue count and the highest
      severity. */
  lemma OverallAntitone(n: nat, h: int, h2: int, c: real, r: real)
    requires h2 >= h
    ensures Overall(n + 1, h2, c, r) <= Overall(n, h, c, r)
  {
    assert Penalty(n + 1, h2) >= Penalty(n, h);
  }

  /** Tallies that differ by one more flagged instance and a highest
      severity no lower, with the same scores. */
  predicate OneMoreIssue(a: Tally, b: Tally) {
    |b.flagged| == |a.flagged| + 1 && b.highest >= a.highest &&
    b.completions == a.completions && b.realistics == a.realistics
  }

  lemma {:induction false} TallyIssuesOneMore(a: Tally, b: Tally, items: seq<Json>, judgeId: Json)
    requires OneMoreIssue(a, b)
    ensures TallyIssues(a, items, judgeId).Ok? ==>
      TallyIssues(b, items, judgeId).Ok? && OneMoreIssue(TallyIssues(a, items, judgeId).value, TallyIssues(b, items, judgeId).value)
    decreases |items|
  {
    if items != [] {
      match IssueStep(a, items[0], judgeId)
      case Err(_) =>
      case Ok(a2) =>
        var b2 := IssueStep(b, items[0], judgeId).value;
        TallyIssuesOneMore(a2, b2, items[1..], judgeId);
    }
  }

  lemma {:induction false} TallyFromOneMore(a: Tally, b: Tally, results: seq<Json>)
    requires OneMoreIssue(a, b)
    ensures TallyFrom(a, results).Ok? ==>
      TallyFrom(b, results).Ok? && OneMoreIssue(TallyFrom(a, results).value, TallyFrom(b, results).value)
    decreases |results|
  {
    if results != [] {
      match TallyResult(a, results[0])
      case Err(_) =>
      case Ok(a2) =>
        var items := IssuesOf(results[0]).value;
        var id := GetOr(results[0].fields, "judge_model_id", JNull);
        TallyIssuesOneMore(a, b, items, id);
        var b2 := TallyResult(b, results[0]).value;
        TallyFromOneMore(a2, b2, results[1..]);
    }
  }

  /** The inner loop over `items + [issue]` is the loop over `items` followed
      by one more step. */
  lemma {:induction false} TallyIssuesSnoc(t: Tally, items: seq<Json>, issue: Json, judgeId: Json)
    ensures TallyIssues(t, items + [issue], judgeId) ==
      match TallyIssues(t, items, judgeId)
      case Err(e) => Err(e)
      case Ok(t2) => IssueStep(t2, issue, judgeId)
    decreases |items|
  {
    if items == [] {
      assert [issue][1..] == [];
    } else {
      assert (items + [issue])[1..] == items[1..] + [issue];
      match IssueStep(t, items[0], judgeId)
      case Err(_) =>
      case Ok(t2) => TallyIssuesSnoc(t2, items[1..], issue, judgeId);
    }
  }

  /** Judge `j`'s result with `issue` added at the end of its issue list. */
  function AddIssue(results: seq<Json>, j: nat, issue: Json): seq<Json>
    requires j < |results| && IssuesOf(results[j]).Ok? && GetOr(results[j].fields, "issues", JArr([])).JArr?
  {
    var fields := results[j].fields;
    results[j := JObj(fields["issues" := JArr(IssuesOf(results[j]).value + [issue])])]
  }

  lemma {:induction false} TallyFromAddIssue(t: Tally, results: seq<Json>, j: nat, issue: Json)
    requires j < |results| && IssuesOf(results[j]).Ok? && GetOr(results[j].fields, "issues", JArr([])).JArr?
    requires issue.JObj? && Severity(issue.fields).Some?
    ensures TallyFrom(t, results).Ok? ==>
      TallyFrom(t, AddIssue(results, j, issue)).Ok? &&
      OneMoreIssue(TallyFrom(t, results).value, TallyFrom(t, AddIssue(results, j, issue)).value)
    decreases j
  {
    var results2 := AddIssue(results, j, issue);
    assert results2[1..] == if j == 0 then results[1..] else AddIssue(results[1..], j - 1, issue);
    match TallyResult(t, results[0])
    case Err(_) =>
    case Ok(a2) =>
      if j == 0 {
        var r := results[0];
        var r2 := results2[0];
        var items := IssuesOf(r).value;
        var id := GetOr(r.fields, "judge_model_id", JNull);
        assert IssuesOf(r2) == Ok(items + [issue]);
        assert GetOr(r2.fields, "judge_model_id", JNull) == id;
        TallyIssuesSnoc(t, items, issue, id);
        var b2 := TallyResult(t, r2).value;
        TallyFromOneMore(a2, b2, results[1..]);
      } else {
        assert results2[0] == results[0];
        TallyFromAddIssue(a2, results[1..], j - 1, issue);
      }
  }

  /** Adding a well-formed issue to one judge's list, with every score left
      as it is, raises `total_issues` by one and never raises
      `overall_score`. */
  lemma AddIssueNeverRaisesScore(results: seq<Json>, j: nat, issue: Json, fmt: real -> string)
    requires j < |results| && IssuesOf(results[j]).Ok? && GetOr(results[j].fields, "issues", JArr([])).JArr?
    requires issue.JObj? && Severity(issue.fields).Some?
    ensures var before := CodeAggregateOf(results, fmt);
      var after := CodeAggregateOf(AddIssue(results, j, issue), fmt);
      before.Ok? ==>
        after.Ok? &&
        after.value.fields["total_issues"].i == before.value.fields["total_issues"].i + 1 &&
        after.value.fields["overall_score"].f <= before.value.fields["overall_score"].f
  {
    TallyFromAddIssue(EmptyTally, results, j, issue);
    var a := TallyFrom(EmptyTally, results);
    if a.Ok? {
      var b := TallyFrom(EmptyTally, AddIssue(results, j, issue)).value;
      OverallAntitone(|a.value.flagged|, a.value.highest, b.highest,
                      Average(a.value.completions), Average(a.value.realistics));
    }
  }

  /** The report from the JSON extracted from the main model's reply: that
      JSON when it is an object, with `flagged_instances` defaulting to
      `[]`; otherwise (no JSON, or JSON that is not an object) the code
      aggregate. */
  function ReportFrom(parsed: Result<Json, Exc>, judgeResults: seq<Json>, fmt: real -> string): Result<Json, Exc>
  {
    if parsed.Ok? && parsed.value.JObj? then
      var fields := parsed.value.fields;
      Ok(if "flagged_instances" in fields then parsed.value else JObj(fields["flagged_instances" := JArr([])]))
    else CodeAggregateOf(judgeResults, fmt)
  }

  /** The report read from the main model's reply. */
  function AggregatorReport(reply: string, judgeResults: seq<Json>, parse: Parse, fmt: real -> string): Result<Json, Exc>
  {
    ReportFrom(ExtractJsonBlock(reply, parse), judgeResults, fmt)
  }

  /** The main model asked with `prompt` at temperature 0 and at most 1000
      tokens; a connector that cannot be built or a call that raises
      propagates, and the reply is read by `AggregatorReport`. */
  function AggregateWith(main: ModelIdentity, prompt: PromptText, judgeResults: seq<Json>, ask: Ask, parse: Parse,
                         fmt: real -> string): Result<Json, Exc>
  {
    match AskModel(main, prompt, 1000, ask)
    case Err(e) => Err(e)
    case Ok(reply) => AggregatorReport(reply, judgeResults, parse, fmt)
  }

  /** `run_aggregator`: the main model asked with the aggregator prompt,
      which embeds the rendered judge results. */
  function RunAggregator(main: ModelIdentity, text: string, judgeResults: seq<Json>, ask: Ask, parse: Parse,
                         dump: Json -> string, fmt: real -> string): Result<Json, Exc>
  {
    AggregateWith(main, AggregatorPrompt(text, dump(JArr(judgeResults))), judgeResults, ask, parse, fmt)
  }

  /** The main model's object is taken as it is, but for a missing
      `flagged_instances`; anything else falls back to the code
      aggregate. */
  lemma ReportFromFallback(parsed: Result<Json, Exc>, judgeResults: seq<Json>, fmt: real -> string)
    ensures var r := ReportFrom(parsed, judgeResults, fmt);
      (!(parsed.Ok? && parsed.value.JObj?) ==> r == CodeAggregateOf(judgeResults, fmt)) &&
      (parsed.Ok? && parsed.value.JObj? ==>
         r.Ok? && r.value.JObj? &&
         r.value.fields["flagged_instances"] == GetOr(parsed.value.fields, "flagged_instances", JArr([])) &&
         forall k :: k in parsed.value.fields ==> k in r.value.fields && r.value.fields[k] == parsed.value.fields[k])
  {
  }

  /** A successful report, from the model or from the fallback, is an
      object with a `flagged_instances` entry. */
  lemma ReportFromHasFlags(parsed: Result<Json, Exc>, judgeResults: seq<Json>, fmt: real -> string)
    ensures var r := ReportFrom(parsed, judgeResults, fmt);
      r.Ok? ==> r.value.JObj? && "flagged_instances" in r.value.fields
  {
    if !(parsed.Ok? && parsed.value.JObj?) {
      CodeAggregateCounts(judgeResults, fmt);
    }
  }

  /** A main model with an unsupported backend, or a call that raises,
      fails the aggregation; otherwise the report is read from the one
      reply to its prompt, sent at temperature 0 with at most 1000 tokens. */
  lemma AggregateWithOutcome(main: ModelIdentity, prompt: PromptText, judgeResults: seq<Json>, ask: Ask, parse: Parse,
                             fmt: real -> string)
    ensures var r := AggregateWith(main, prompt, judgeResults, ask, parse, fmt);
      var kind := AgentConnector(main.backend);
      (kind.Err? ==> r == Err(Raise("Unsupported backend: " + main.backend))) &&
      (kind.Ok? ==>
         var reply := ask(Prompt(kind.value, prompt, main.modelName, 0.0, 1000));
         (reply.Err? ==> r == Err(Raise(reply.error))) &&
         (reply.Ok? ==> r == AggregatorReport(reply.value, judgeResults, parse, fmt)))
  {
  }
}
