/** `AITaskManager`: context analysis, prioritisation and enhancement through the model,
    each with its fallback and its processing-log record, and the assembly of
    `get_task_recommendations`. Each operation is a method that asks the model (the
    attempt oracle of `MakeRequest`), fills the required fields in a loop and builds
    the log record; it is proved equal to a specification function of the reply the
    model gives, and the lemmas state what the source promises of those functions. */
module TaskManager {
  import opened JsonValues
  import opened Text
  import opened LMStudio
  import opened ResponseHandling
  import opened Fallbacks
  import opened Models

  datatype Result<T> = Ok(value: T) | Err(message: string)

  /** What the manager takes from its surroundings: `json.loads`, Django's
      `parse_datetime` (with the days until the parsed moment), `str()` of numbers,
      lists and dicts, the configured model name, and the measured processing time. */
  datatype Env = Env(
    parse: string -> Option<Json>,
    parseDateTime: string -> Option<Moment>,
    render: Json -> string,
    modelUsed: string,
    elapsedMs: int)

  /** The result dict of one operation and the log record it writes, if any. */
  datatype Outcome = Outcome(result: Dict, log: Option<ProcessingLog>)

  /** The reply of the retry loop for an attempt sequence. */
  function ReplyOf(attempts: seq<Attempt>): Reply
    requires |attempts| >= MaxRetries
  {
    ReplyAt(attempts, Decisive(attempts, 0))
  }

  // ---------------------------------------------------------------- logging

  const MaxErrorLength: nat := 500

  /** The `error_message` `_log_processing` stores: the first 500 characters of the
      message, or null when there is none or it is empty. */
  function StoredError(message: Option<string>): (r: Option<string>)
    ensures r.None? <==> message.None? || message.value == ""
    ensures r.Some? ==> message.Some? && |r.value| <= MaxErrorLength && |r.value| <= |message.value|
    ensures r.Some? ==> r.value == message.value[..|r.value|]
    ensures r.Some? && |message.value| <= MaxErrorLength ==> r.value == message.value
    ensures r.Some? && |message.value| > MaxErrorLength ==> |r.value| == MaxErrorLength
  {
    if message.None? || message.value == "" then None else Some(Prefix(message.value, MaxErrorLength))
  }

  /** The record `_log_processing` creates. */
  function LogRecord(kind: ProcessingType, input: Dict, output: Dict, env: Env, success: bool,
                     error: Option<string>): ProcessingLog {
    ProcessingLog(kind, input, output, env.elapsedMs, env.modelUsed, success, StoredError(error))
  }

  /** `_log_processing` writing its record; a failing write is swallowed and leaves the
      log as it was. */
  method LogProcessing(store: Store, record: Option<ProcessingLog>, saveFails: bool)
    modifies store`aiLog
    ensures store.aiLog == old(store.aiLog) + (if record.None? || saveFails then [] else [record.value])
  {
    if record.Some? && !saveFails {
      store.aiLog := store.aiLog + [record.value];
    }
  }

  // ------------------------------------------------------ the text of errors

  const NoResponseMessage := "No response from AI model"

  /** The decimal digits of `n`, as `str(n)` spells them. */
  function DecimalString(n: nat): (r: string)
    ensures r != []
    ensures forall i :: 0 <= i < |r| ==> '0' <= r[i] <= '9'
  {
    var digit := ['0' + (n % 10) as char];
    if n < 10 then digit else DecimalString(n / 10) + digit
  }

  /** `str(e)` for the TypeError the fill loop raises when the reply parsed to something
      other than a dict, `first` being the first required key: a number, bool or null
      cannot be searched; a list cannot be indexed by a string; a string cannot be
      indexed by a string when it contains the key, nor assigned to when it does not. */
  function FillFailure(j: Json, first: string): string {
    match j
    case JArr(_) => "list indices must be integers or slices, not str"
    case JStr(s) =>
      if IsSubstring(first, s) then "string indices must be integers, not 'str'"
      else "'str' object does not support item assignment"
    case _ => "argument of type '" + TypeName(j) + "' is not iterable"
  }

  /** The model's reply as parsed JSON, or the text of the exception it leads to: the
      escaping exception, or "No response" for no reply or an empty one. */
  function ReplyJson(reply: Reply, parse: string -> Option<Json>): Result<Json> {
    match reply
    case Content(text) => if text == "" then Err(NoResponseMessage) else Ok(ExtractJson(text, parse))
    case NoReply => Err(NoResponseMessage)
    case Raised(m) => Err(m)
  }

  /** The parsed reply with `defaults` filled in, or the text of the exception. */
  function FillReply(reply: Reply, parse: string -> Option<Json>, defaults: Defaults): Result<Dict>
    requires defaults != []
  {
    match ReplyJson(reply, parse)
    case Ok(JObj(d)) => Ok(Filled(d, defaults))
    case Ok(j) => Err(FillFailure(j, defaults[0].0))
    case Err(m) => Err(m)
  }

  /** The fill loop over a parsed reply: the method form of `FillReply`. */
  method FillParsedReply(reply: Reply, parse: string -> Option<Json>, defaults: Defaults)
    returns (r: Result<Dict>)
    requires defaults != []
    ensures r == FillReply(reply, parse, defaults)
  {
    var parsed := ReplyJson(reply, parse);
    if parsed.Err? {
      return Err(parsed.message);
    }
    if !parsed.value.JObj? {
      return Err(FillFailure(parsed.value, defaults[0].0));
    }
    var filled := FillDefaults(parsed.value.fields, defaults);
    return Ok(filled);
  }

  /** A usable reply holds every required field afterwards. */
  lemma FillReplyKeys(reply: Reply, parse: string -> Option<Json>, defaults: Defaults)
    requires defaults != [] && DistinctKeys(defaults)
    ensures FillReply(reply, parse, defaults).Ok? ==> KeysOf(defaults) <= FillReply(reply, parse, defaults).value.Keys
  {
    if FillReply(reply, parse, defaults).Ok? {
      FilledAt(ReplyJson(reply, parse).value.fields, defaults);
    }
  }

  // ------------------------------------------------------- analyze_context

  const EmptySignals: Json := JObj(map["high" := JArr([]), "medium" := JArr([]), "low" := JArr([])])

  /** The required fields of a context analysis and their defaults. */
  const AnalysisDefaults: Defaults := [
    ("extracted_tasks", JArr([])),
    ("urgency_indicators", JArr([])),
    ("mentioned_deadlines", JArr([])),
    ("priority_signals", EmptySignals),
    ("context_summary", JStr("Analysis completed")),
    ("workload_assessment", JStr("moderate")),
    ("key_themes", JArr([]))
  ]

  /** The analysis of no entries. */
  function NoContext(): Dict {
    map[
      "extracted_tasks" := JArr([]),
      "urgency_indicators" := JArr([]),
      "mentioned_deadlines" := JArr([]),
      "priority_signals" := EmptySignals,
      "context_summary" := JStr("No context provided"),
      "workload_assessment" := JStr("light"),
      "key_themes" := JArr([])]
  }

  /** The analysis returned when an exception was caught. */
  function AnalysisFailure(message: string): Dict {
    map[
      "error" := JStr(message),
      "extracted_tasks" := JArr([]),
      "urgency_indicators" := JArr([]),
      "mentioned_deadlines" := JArr([]),
      "priority_signals" := EmptySignals,
      "context_summary" := JStr("Analysis failed - using fallback"),
      "workload_assessment" := JStr("moderate"),
      "key_themes" := JArr([])]
  }

  /** The logged input of an analysis: the number of entries. */
  function AnalysisInput(entries: seq<ContextEntry>): Dict {
    map["num_entries" := JNum(|entries| as real)]
  }

  /** `analyze_context` given the model's reply. */
  function Analysis(entries: seq<ContextEntry>, reply: Reply, env: Env): (o: Outcome)
    ensures entries == [] <==> o.log.None?
    ensures o.log.Some? ==>
      && o.log.value.processingType == ContextAnalysis
      && o.log.value.inputData == AnalysisInput(entries) && o.log.value.outputData == o.result
      && (o.log.value.success <==> FillReply(reply, env.parse, AnalysisDefaults).Ok?)
  {
    if entries == [] then Outcome(NoContext(), None)
    else match FillReply(reply, env.parse, AnalysisDefaults)
      case Ok(d) =>
        Outcome(d, Some(LogRecord(ContextAnalysis, AnalysisInput(entries), d, env, true, None)))
      case Err(m) =>
        Outcome(AnalysisFailure(m),
                Some(LogRecord(ContextAnalysis, AnalysisInput(entries), AnalysisFailure(m), env, false, Some(m))))
  }

  /** `analyze_context`. */
  method AnalyzeContext(entries: seq<ContextEntry>, attempts: seq<Attempt>, env: Env)
    returns (result: Dict, log: Option<ProcessingLog>)
    requires |attempts| >= MaxRetries
    ensures Outcome(result, log) == Analysis(entries, ReplyOf(attempts), env)
  {
    if entries == [] {
      return NoContext(), None;
    }
    var reply, _ := MakeRequest(attempts);
    var filled := FillParsedReply(reply, env.parse, AnalysisDefaults);
    if filled.Err? {
      result := AnalysisFailure(filled.message);
      log := Some(LogRecord(ContextAnalysis, AnalysisInput(entries), result, env, false, Some(filled.message)));
    } else {
      result := filled.value;
      log := Some(LogRecord(ContextAnalysis, AnalysisInput(entries), result, env, true, None));
    }
  }

  lemma AnalysisDefaultsDistinct()
    ensures DistinctKeys(AnalysisDefaults)
  {
  }

  /** A context analysis always holds every analysis field, none of them `None`. */
  lemma AnalysisProperties(entries: seq<ContextEntry>, reply: Reply, env: Env)
    requires entries != []
    ensures var r := Analysis(entries, reply, env).result;
      forall i :: 0 <= i < |AnalysisDefaults| ==> AnalysisDefaults[i].0 in r && r[AnalysisDefaults[i].0] != JNull
  {
    AnalysisDefaultsDistinct();
    var fr := FillReply(reply, env.parse, AnalysisDefaults);
    if fr.Ok? {
      RequiredPresent(ReplyJson(reply, env.parse).value.fields, AnalysisDefaults);
    }
  }

  /** The analysis succeeds exactly when the model gave a non-empty reply that parses to
      a dict, and then every field the model filled is kept. */
  lemma AnalysisSucceeds(entries: seq<ContextEntry>, reply: Reply, env: Env)
    requires entries != []
    ensures var o := Analysis(entries, reply, env);
      && (o.log.value.success <==> ReplyJson(reply, env.parse).Ok? && ReplyJson(reply, env.parse).value.JObj?)
      && (o.log.value.success ==>
            var d := ReplyJson(reply, env.parse).value.fields;
            forall k :: k in d && d[k] != JNull ==> k in o.result && o.result[k] == d[k])
  {
    AnalysisDefaultsDistinct();
    if FillReply(reply, env.parse, AnalysisDefaults).Ok? {
      FilledKeepsValues(ReplyJson(reply, env.parse).value.fields, AnalysisDefaults);
    }
  }

  /** A failed analysis is the failure dict, logged with the exception's text. */
  lemma AnalysisFails(entries: seq<ContextEntry>, reply: Reply, env: Env)
    requires entries != [] && FillReply(reply, env.parse, AnalysisDefaults).Err?
    ensures var o := Analysis(entries, reply, env);
      var m := FillReply(reply, env.parse, AnalysisDefaults).message;
      o.result == AnalysisFailure(m) && o.log.value.errorMessage == StoredError(Some(m))
  {
  }

  /** The empty analysis is returned at once and writes no log record. */
  lemma AnalysisOfNothing(reply: Reply, env: Env)
    ensures Analysis([], reply, env) == Outcome(NoContext(), None)
    ensures NoContext()["context_summary"] == JStr("No context provided")
  {
  }

  /** A non-empty reply in which no JSON object can be found is not an error for the
      analysis: the "Failed to parse" dict is filled with defaults and logged as a
      success. */
  lemma UnparseableReplyLoggedAsSuccess(entries: seq<ContextEntry>, text: string, env: Env)
    requires entries != [] && text != ""
    requires env.parse(text).None? && Candidate(text).None?
    ensures var o := Analysis(entries, Content(text), env);
      && o.log.Some? && o.log.value.success
      && "error" in o.result && o.result["error"] == JStr("Failed to parse JSON response")
  {
    AnalysisDefaultsDistinct();
    var d := ParseFailure(text);
    FilledKeepsValues(d, AnalysisDefaults);
  }

  // ------------------------------------------------------- prioritize_task

  /** `task_info["deadline"]` after conversion: the ISO form of a datetime, `str()` of
      anything else truthy, and the value itself (`None` or the falsy value) otherwise. */
  function InfoDeadline(deadline: DeadlineValue): Json {
    match deadline
    case NoDeadline => JNull
    case FalsyValue(raw) => raw
    case DateTime(m) => JStr(m.iso)
    case OtherValue(text) => JStr(text)
  }

  /** The `task_info` dict sent to the model and logged on success. */
  function TaskInfoDict(task: TaskInfo): Dict {
    map[
      "title" := task.title,
      "description" := if Truthy(task.description) then task.description else JStr(""),
      "category" := JStr(SafeCategoryName(task.category)),
      "current_priority" := task.priority,
      "deadline" := InfoDeadline(task.deadline),
      "estimated_duration" := task.estimatedDuration,
      "status" := task.status]
  }

  /** The exception building the context summary raises, if any: `len()` of the
      urgency indicators of a non-empty context fails unless they are a string, list
      or dict. */
  function ContextSummaryError(context: Dict): Option<string> {
    if context == map[] then None
    else
      var u := Get(context, "urgency_indicators", JArr([]));
      if u.JStr? || u.JArr? || u.JObj? then None
      else Some("object of type '" + TypeName(u) + "' has no len()")
  }

  /** The required fields of a prioritisation and their defaults, some taken from the task. */
  function PrioritizationDefaults(info: Dict): (r: Defaults)
    ensures r != []
  {
    [
      ("suggested_priority", Get(info, "current_priority", JStr("medium"))),
      ("reasoning", JStr("Priority analysis completed")),
      ("urgency_factors", JArr([])),
      ("suggested_deadline", Get(info, "deadline", JNull)),
      ("estimated_duration_refined", Get(info, "estimated_duration", JNull)),
      ("context_relevance", JStr("Context considered in priority calculation")),
      ("recommended_actions", JArr([]))
    ]
  }

  /** The parsed reply with its score normalised, or the text of the exception: a reply
      that is not a dict has no `get`. */
  function ScoredReply(reply: Reply, parse: string -> Option<Json>): Result<Dict> {
    match ReplyJson(reply, parse)
    case Ok(JObj(d)) =>
      Ok(d["priority_score" := JNum(NormalizeScore(Get(d, "priority_score", JNum(0.5))))])
    case Ok(j) => Err("'" + TypeName(j) + "' object has no attribute 'get'")
    case Err(m) => Err(m)
  }

  /** The model's result before defaults, or the text of the exception that sends
      `prioritize_task` to its fallback. */
  function PrioritizationAttempt(task: TaskInfo, context: Dict, reply: Reply, parse: string -> Option<Json>): Result<Dict> {
    if ContextSummaryError(context).Some? then Err(ContextSummaryError(context).value)
    else ScoredReply(reply, parse)
  }

  /** `prioritize_task` given the model's reply. */
  function Prioritized(task: TaskInfo, context: Dict, reply: Reply, env: Env): (o: Outcome)
    ensures o.log.Some? && o.log.value.processingType == TaskPrioritization && o.log.value.outputData == o.result
    ensures o.log.value.success <==> PrioritizationAttempt(task, context, reply, env.parse).Ok?
  {
    var info := TaskInfoDict(task);
    match PrioritizationAttempt(task, context, reply, env.parse)
    case Ok(d) =>
      var r := Filled(d, PrioritizationDefaults(info));
      Outcome(r, Some(LogRecord(TaskPrioritization, info, r, env, true, None)))
    case Err(m) =>
      var r := FallbackPriorityResult(task);
      Outcome(r, Some(LogRecord(TaskPrioritization, map["task_title" := task.title], r, env, false, Some(m))))
  }

  /** `prioritize_task`. The model is asked only once the context summary is built. */
  method PrioritizeTask(task: TaskInfo, context: Dict, attempts: seq<Attempt>, env: Env)
    returns (result: Dict, log: Option<ProcessingLog>)
    requires |attempts| >= MaxRetries
    ensures Outcome(result, log) == Prioritized(task, context, ReplyOf(attempts), env)
  {
    var info := TaskInfoDict(task);
    var failure: Option<string> := ContextSummaryError(context);
    var scored: Dict := map[];
    if failure.None? {
      var reply, _ := MakeRequest(attempts);
      var s := ScoredReply(reply, env.parse);
      if s.Err? {
        failure := Some(s.message);
      } else {
        scored := s.value;
      }
    }
    if failure.Some? {
      result := FallbackPrioritization(task);
      log := Some(LogRecord(TaskPrioritization, map["task_title" := task.title], result, env, false, failure));
    } else {
      result := FillDefaults(scored, PrioritizationDefaults(info));
      log := Some(LogRecord(TaskPrioritization, info, result, env, true, None));
    }
  }

  lemma PrioritizationDefaultsDistinct(info: Dict)
    ensures DistinctKeys(PrioritizationDefaults(info))
    ensures "priority_score" !in KeysOf(PrioritizationDefaults(info))
  {
  }

  /** The fields every prioritisation holds. */
  lemma PrioritizationKeys(info: Dict)
    ensures KeysOf(PrioritizationDefaults(info)) == PrioritizationFields
  {
    var defaults := PrioritizationDefaults(info);
    assert defaults[0].0 == "suggested_priority" && defaults[1].0 == "reasoning";
    assert defaults[2].0 == "urgency_factors" && defaults[3].0 == "suggested_deadline";
    assert defaults[4].0 == "estimated_duration_refined" && defaults[5].0 == "context_relevance";
    assert defaults[6].0 == "recommended_actions";
  }

  /** Every prioritisation carries a numeric score in [0,1] (the normalised model score
      on success, the fallback score otherwise) and all of its required fields. */
  lemma PrioritizedProperties(task: TaskInfo, context: Dict, reply: Reply, env: Env)
    ensures var r := Prioritized(task, context, reply, env).result;
      && "priority_score" in r && r["priority_score"].JNum? && 0.0 <= r["priority_score"].x <= 1.0
      && PrioritizationFields <= r.Keys
  {
    var info := TaskInfoDict(task);
    var defaults := PrioritizationDefaults(info);
    var r := Prioritized(task, context, reply, env).result;
    PrioritizationKeys(info);
    if PrioritizationAttempt(task, context, reply, env.parse).Ok? {
      var d := PrioritizationAttempt(task, context, reply, env.parse).value;
      assert r == Filled(d, defaults);
      PrioritizationDefaultsDistinct(info);
      FilledAt(d, defaults);
    } else {
      assert r == FallbackPriorityResult(task);
      FallbackPrioritizationProperties(task);
      FallbackPrioritizationFields(task);
    }
  }

  /** A successful prioritisation keeps the model's normalised score and is logged with
      the task's data. */
  lemma PrioritizedSucceeds(task: TaskInfo, context: Dict, reply: Reply, env: Env)
    requires PrioritizationAttempt(task, context, reply, env.parse).Ok?
    ensures var o := Prioritized(task, context, reply, env);
      var d := ReplyJson(reply, env.parse).value.fields;
      && "priority_score" in o.result
      && o.result["priority_score"] == JNum(NormalizeScore(Get(d, "priority_score", JNum(0.5))))
      && o.log.value.inputData == TaskInfoDict(task)
  {
    var info := TaskInfoDict(task);
    var d := PrioritizationAttempt(task, context, reply, env.parse).value;
    PrioritizationDefaultsDistinct(info);
    FilledAt(d, PrioritizationDefaults(info));
  }

  /** A failed prioritisation is the fallback result, logged with the task title and the
      exception's text. */
  lemma PrioritizedFallsBack(task: TaskInfo, context: Dict, reply: Reply, env: Env)
    requires PrioritizationAttempt(task, context, reply, env.parse).Err?
    ensures var o := Prioritized(task, context, reply, env);
      var m := PrioritizationAttempt(task, context, reply, env.parse).message;
      && o.result == FallbackPriorityResult(task)
      && o.log.value.inputData == map["task_title" := task.title]
      && o.log.value.errorMessage == StoredError(Some(m))
  {
  }

  // ---------------------------------------------------------- enhance_task

  /** The exception joining the key themes of a non-empty context raises, if any:
      a string or a dict (its keys) joins, a list joins when every item is a string, and
      anything else is not iterable. */
  function ThemesJoinError(context: Dict): Option<string> {
    if context == map[] then None
    else match Get(context, "key_themes", JArr([]))
      case JStr(_) => None
      case JObj(_) => None
      case JArr(items) =>
        if forall i :: 0 <= i < |items| ==> items[i].JStr? then None
        else
          var i := FirstNonString(items);
          Some("sequence item " + DecimalString(i) + ": expected str instance, " + TypeName(items[i]) + " found")
      case _ => Some("can only join an iterable")
  }

  /** The position of the first item that is not a string. */
  function FirstNonString(items: seq<Json>): (i: nat)
    requires exists k :: 0 <= k < |items| && !items[k].JStr?
    ensures i < |items| && !items[i].JStr?
    ensures forall k :: 0 <= k < i ==> items[k].JStr?
  {
    if !items[0].JStr? then 0
    else
      assert exists k :: 0 <= k < |items[1..]| && !items[1..][k].JStr? by {
        var k :| 0 <= k < |items| && !items[k].JStr?;
        assert items[1..][k - 1] == items[k];
      }
      1 + FirstNonString(items[1..])
  }

  /** The required fields of an enhancement and their defaults. */
  function EnhancementDefaults(taskData: Dict): (r: Defaults)
    ensures r != []
  {
    [
      ("enhanced_description", Get(taskData, "description", Get(taskData, "title", JStr("")))),
      ("suggested_tags", JArr([])),
      ("suggested_category", JStr("general")),
      ("breakdown_suggestions", JArr([])),
      ("resource_suggestions", JArr([])),
      ("difficulty_assessment", JStr("medium")),
      ("context_connections", JStr("No specific context connections identified"))
    ]
  }

  /** The model's filled result, or the text of the exception that sends `enhance_task`
      to its fallback. */
  function EnhancementAttempt(taskData: Dict, context: Dict, reply: Reply, parse: string -> Option<Json>): Result<Dict> {
    if ThemesJoinError(context).Some? then Err(ThemesJoinError(context).value)
    else FillReply(reply, parse, EnhancementDefaults(taskData))
  }

  /** `enhance_task` given the model's reply. */
  function Enhanced(taskData: Dict, context: Dict, reply: Reply, env: Env): (o: Outcome)
    ensures o.log.Some? && o.log.value.processingType == TaskEnhancement
    ensures o.log.value.inputData == taskData && o.log.value.outputData == o.result
    ensures o.log.value.success <==> EnhancementAttempt(taskData, context, reply, env.parse).Ok?
  {
    match EnhancementAttempt(taskData, context, reply, env.parse)
    case Ok(d) => Outcome(d, Some(LogRecord(TaskEnhancement, taskData, d, env, true, None)))
    case Err(m) =>
      var r := FallbackEnhanced(taskData);
      Outcome(r, Some(LogRecord(TaskEnhancement, taskData, r, env, false, Some(m))))
  }

  /** `enhance_task`. The model is asked only once the context text is built. */
  method EnhanceTask(taskData: Dict, context: Dict, attempts: seq<Attempt>, env: Env)
    returns (result: Dict, log: Option<ProcessingLog>)
    requires |attempts| >= MaxRetries
    ensures Outcome(result, log) == Enhanced(taskData, context, ReplyOf(attempts), env)
  {
    var filled: Result<Dict>;
    var joinError := ThemesJoinError(context);
    if joinError.Some? {
      filled := Err(joinError.value);
    } else {
      var reply, _ := MakeRequest(attempts);
      filled := FillParsedReply(reply, env.parse, EnhancementDefaults(taskData));
    }
    if filled.Err? {
      result := FallbackEnhancement(taskData);
      log := Some(LogRecord(TaskEnhancement, taskData, result, env, false, Some(filled.message)));
    } else {
      result := filled.value;
      log := Some(LogRecord(TaskEnhancement, taskData, result, env, true, None));
    }
  }

  lemma EnhancementDefaultsDistinct(taskData: Dict)
    ensures DistinctKeys(EnhancementDefaults(taskData))
  {
  }

  /** The fields every enhancement holds. */
  lemma EnhancementKeys(taskData: Dict)
    ensures KeysOf(EnhancementDefaults(taskData)) == EnhancementFields
  {
    var defaults := EnhancementDefaults(taskData);
    assert defaults[0].0 == "enhanced_description" && defaults[1].0 == "suggested_tags";
    assert defaults[2].0 == "suggested_category" && defaults[3].0 == "breakdown_suggestions";
    assert defaults[4].0 == "resource_suggestions" && defaults[5].0 == "difficulty_assessment";
    assert defaults[6].0 == "context_connections";
  }

  /** An enhancement always holds the seven enhancement fields. */
  lemma EnhancedProperties(taskData: Dict, context: Dict, reply: Reply, env: Env)
    ensures EnhancementFields <= Enhanced(taskData, context, reply, env).result.Keys
  {
    EnhancementKeys(taskData);
    var o := Enhanced(taskData, context, reply, env);
    if EnhancementAttempt(taskData, context, reply, env.parse).Ok? {
      EnhancementDefaultsDistinct(taskData);
      FillReplyKeys(reply, env.parse, EnhancementDefaults(taskData));
      assert o.result == FillReply(reply, env.parse, EnhancementDefaults(taskData)).value;
    } else {
      FallbackEnhancementFields(taskData);
      assert o.result == FallbackEnhanced(taskData);
    }
  }

  /** A successful enhancement keeps every field the model filled. */
  lemma EnhancedKeepsModelFields(taskData: Dict, context: Dict, reply: Reply, env: Env)
    requires EnhancementAttempt(taskData, context, reply, env.parse).Ok?
    ensures var r := Enhanced(taskData, context, reply, env).result;
      var d := ReplyJson(reply, env.parse).value.fields;
      forall k :: k in d && d[k] != JNull ==> k in r && r[k] == d[k]
  {
    var d := ReplyJson(reply, env.parse).value.fields;
    var defaults := EnhancementDefaults(taskData);
    EnhancementDefaultsDistinct(taskData);
    assert Enhanced(taskData, context, reply, env).result == Filled(d, defaults);
    FilledKeepsValues(d, defaults);
  }

  /** A failed enhancement is the fallback enhancement, logged with the exception's text. */
  lemma EnhancedFallsBack(taskData: Dict, context: Dict, reply: Reply, env: Env)
    requires EnhancementAttempt(taskData, context, reply, env.parse).Err?
    ensures var o := Enhanced(taskData, context, reply, env);
      var m := EnhancementAttempt(taskData, context, reply, env.parse).message;
      && o.result == FallbackEnhanced(taskData)
      && o.log.Some? && !o.log.value.success && o.log.value.errorMessage == StoredError(Some(m))
  {
  }

  // ------------------------------------------------ get_task_recommendations

  /** `task_data.get("category")` as the prioritisation sees it. */
  function CategoryOf(j: Json, render: Json -> string): CategoryValue {
    match j
    case JNull => NoCategory
    case JStr(s) => CategoryString(s)
    case JObj(fields) => CategoryDict(if "name" in fields then Some(Str(fields["name"], render)) else None)
    case _ => CategoryOther
  }

  /** The deadline of the temporary task: a truthy string goes through `parse_datetime`
      and becomes `None` when it does not give a datetime; any other value, falsy or
      not, is kept as it is. */
  function DeadlineOf(j: Json, env: Env): DeadlineValue {
    if j == JNull then NoDeadline
    else if !Truthy(j) then FalsyValue(j)
    else if j.JStr? then
      match env.parseDateTime(j.s)
      case Some(m) => DateTime(m)
      case None => NoDeadline
    else OtherValue(Str(j, env.render))
  }

  /** The temporary task built from the request data. */
  function TempTask(taskData: Dict, env: Env): TaskInfo {
    TaskInfo(
      Get(taskData, "title", JStr("")),
      Get(taskData, "description", JStr("")),
      CategoryOf(Get(taskData, "category", JNull), env.render),
      Get(taskData, "priority", JStr("medium")),
      DeadlineOf(Get(taskData, "deadline", JNull), env),
      Get(taskData, "estimated_duration", JNull),
      JStr("pending"))
  }

  /** A deadline that is given but falsy is not parsed: the prioritisation keeps it as
      it is in `task_info` (and so in its log input and its default `suggested_deadline`),
      while the fallback gives it no bonus and suggests no deadline. */
  lemma FalsyDeadlineKept(taskData: Dict, env: Env)
    requires "deadline" in taskData && taskData["deadline"] != JNull && !Truthy(taskData["deadline"])
    ensures var task := TempTask(taskData, env);
      && !HasDeadline(task.deadline) && !Adjusted(task.deadline)
      && TaskInfoDict(task)["deadline"] == taskData["deadline"]
      && DeadlineText(task.deadline) == JNull
  {
  }

  /** The combined recommendation from the three sub-results. */
  function Assemble(prioritization: Dict, enhancement: Dict, context: Dict, render: Json -> string): Dict {
    var base := map[
      "priority_score" := Get(prioritization, "priority_score", JNum(0.5)),
      "suggested_priority" := Get(prioritization, "suggested_priority", JStr("medium")),
      "enhanced_description" := Get(enhancement, "enhanced_description", JStr("")),
      "suggested_tags" := Get(enhancement, "suggested_tags", JArr([])),
      "suggested_category" := Get(enhancement, "suggested_category", JStr("general")),
      "context_analysis" := JObj(map[
        "summary" := Get(context, "context_summary", JStr("No context analyzed")),
        "urgency_indicators" := Get(context, "urgency_indicators", JArr([])),
        "themes" := Get(context, "key_themes", JArr([]))]),
      "reasoning" := JStr("Priority: " + Str(Get(prioritization, "reasoning", JStr("N/A")), render)
                          + " | Enhancement: " + Str(Get(enhancement, "context_connections", JStr("N/A")), render)),
      "success" := JBool(true)];
    var deadline := Get(prioritization, "suggested_deadline", JNull);
    if Truthy(deadline) then base["suggested_deadline" := deadline] else base
  }

  /** The log records that were written, in order. */
  function Written(logs: seq<Option<ProcessingLog>>): seq<ProcessingLog> {
    if logs == [] then []
    else (if logs[0].Some? then [logs[0].value] else []) + Written(logs[1..])
  }

  /** The context analysis the callers run only when they have entries
      (`if context_entries:`): without entries there is no call, no log record, and the
      context is an empty dict. */
  function AnalysisIfAny(entries: seq<ContextEntry>, contextReply: Reply, env: Env): (o: Outcome)
    ensures entries == [] ==> o.result == map[]
    ensures o.log.Some? <==> entries != []
  {
    if entries == [] then Outcome(map[], None) else Analysis(entries, contextReply, env)
  }

  /** The prioritisation `get_task_recommendations` combines. */
  function RecommendedPriority(taskData: Dict, entries: seq<ContextEntry>, contextReply: Reply,
                               priorityReply: Reply, env: Env): Outcome {
    Prioritized(TempTask(taskData, env), AnalysisIfAny(entries, contextReply, env).result, priorityReply, env)
  }

  /** The enhancement `get_task_recommendations` combines. */
  function RecommendedEnhancement(taskData: Dict, entries: seq<ContextEntry>, contextReply: Reply,
                                  enhanceReply: Reply, env: Env): Outcome {
    Enhanced(taskData, AnalysisIfAny(entries, contextReply, env).result, enhanceReply, env)
  }

  /** `get_task_recommendations` given the three replies of the model. */
  function Recommendations(taskData: Dict, entries: seq<ContextEntry>, contextReply: Reply,
                           priorityReply: Reply, enhanceReply: Reply, env: Env): (Dict, seq<ProcessingLog>) {
    var analysis := AnalysisIfAny(entries, contextReply, env);
    var prioritized := RecommendedPriority(taskData, entries, contextReply, priorityReply, env);
    var enhanced := RecommendedEnhancement(taskData, entries, contextReply, enhanceReply, env);
    (Assemble(prioritized.result, enhanced.result, analysis.result, env.render),
     Written([analysis.log, prioritized.log, enhanced.log]))
  }

  /** `get_task_recommendations`: analyse the context when there is some, prioritise the
      temporary task, enhance the request data, and combine. */
  method GetTaskRecommendations(taskData: Dict, entries: seq<ContextEntry>, contextAttempts: seq<Attempt>,
                                priorityAttempts: seq<Attempt>, enhanceAttempts: seq<Attempt>, env: Env)
    returns (result: Dict, logs: seq<ProcessingLog>)
    requires |contextAttempts| >= MaxRetries && |priorityAttempts| >= MaxRetries && |enhanceAttempts| >= MaxRetries
    ensures (result, logs) == Recommendations(taskData, entries, ReplyOf(contextAttempts),
                                              ReplyOf(priorityAttempts), ReplyOf(enhanceAttempts), env)
  {
    var context: Dict := map[];
    var contextLog: Option<ProcessingLog> := None;
    if entries != [] {
      context, contextLog := AnalyzeContext(entries, contextAttempts, env);
    }
    var prioritization, priorityLog := PrioritizeTask(TempTask(taskData, env), context, priorityAttempts, env);
    var enhancement, enhanceLog := EnhanceTask(taskData, context, enhanceAttempts, env);
    result := Assemble(prioritization, enhancement, context, env.render);
    logs := Written([contextLog, priorityLog, enhanceLog]);
  }

  /** The combined recommendation succeeds, carries the prioritisation's score and
      suggested priority, and a suggested deadline exactly when the prioritisation gave
      a truthy one; with no context its summary reads "No context analyzed". */
  lemma AssembleProperties(prioritization: Dict, enhancement: Dict, context: Dict, render: Json -> string)
    requires "priority_score" in prioritization && "suggested_priority" in prioritization
    ensures var r := Assemble(prioritization, enhancement, context, render);
      && "success" in r && r["success"] == JBool(true)
      && "priority_score" in r && r["priority_score"] == prioritization["priority_score"]
      && "suggested_priority" in r && r["suggested_priority"] == prioritization["suggested_priority"]
      && ("suggested_deadline" in r <==> Truthy(Get(prioritization, "suggested_deadline", JNull)))
      && (context == map[] ==> "context_analysis" in r && r["context_analysis"] == JObj(map[
            "summary" := JStr("No context analyzed"), "urgency_indicators" := JArr([]), "themes" := JArr([])]))
  {
  }

  /** Every prioritisation holds a score in [0,1] and a suggested priority, and is logged. */
  lemma PrioritizedScored(task: TaskInfo, context: Dict, reply: Reply, env: Env)
    ensures var o := Prioritized(task, context, reply, env);
      && "priority_score" in o.result && o.result["priority_score"].JNum?
      && 0.0 <= o.result["priority_score"].x <= 1.0
      && "suggested_priority" in o.result && o.log.Some?
  {
    PrioritizedProperties(task, context, reply, env);
  }

  /** A recommendation always succeeds with a score in [0,1] and the prioritisation's
      suggested priority, and carries a suggested deadline exactly when the
      prioritisation gave a truthy one; without context entries its summary reads "No
      context analyzed". */
  lemma RecommendationProperties(taskData: Dict, entries: seq<ContextEntry>, contextReply: Reply,
                                 priorityReply: Reply, enhanceReply: Reply, env: Env)
    ensures var r := Recommendations(taskData, entries, contextReply, priorityReply, enhanceReply, env).0;
      var p := RecommendedPriority(taskData, entries, contextReply, priorityReply, env).result;
      && "success" in r && r["success"] == JBool(true)
      && "priority_score" in r && r["priority_score"].JNum? && 0.0 <= r["priority_score"].x <= 1.0
      && "suggested_priority" in r && "suggested_priority" in p && r["suggested_priority"] == p["suggested_priority"]
      && ("suggested_deadline" in r <==> Truthy(Get(p, "suggested_deadline", JNull)))
      && (entries == [] ==> r["context_analysis"] == JObj(map[
            "summary" := JStr("No context analyzed"), "urgency_indicators" := JArr([]), "themes" := JArr([])]))
  {
    var analysis := AnalysisIfAny(entries, contextReply, env).result;
    var p := RecommendedPriority(taskData, entries, contextReply, priorityReply, env).result;
    var e := RecommendedEnhancement(taskData, entries, contextReply, enhanceReply, env).result;
    PrioritizedScored(TempTask(taskData, env), analysis, priorityReply, env);
    AssembleProperties(p, e, analysis, env.render);
  }

  lemma {:induction false} WrittenOfThree(a: Option<ProcessingLog>, b: Option<ProcessingLog>, c: Option<ProcessingLog>)
    ensures |Written([a, b, c])| == (if a.Some? then 1 else 0) + (if b.Some? then 1 else 0) + (if c.Some? then 1 else 0)
  {
    assert [c][1..] == [];
    assert |Written([c])| == (if c.Some? then 1 else 0);
    assert [b, c][1..] == [c];
    assert |Written([b, c])| == (if b.Some? then 1 else 0) + |Written([c])|;
    assert [a, b, c][1..] == [b, c];
    assert |Written([a, b, c])| == (if a.Some? then 1 else 0) + |Written([b, c])|;
  }

  /** One log record per operation run: the analysis writes one only when there are
      context entries. */
  lemma RecommendationLogs(taskData: Dict, entries: seq<ContextEntry>, contextReply: Reply,
                           priorityReply: Reply, enhanceReply: Reply, env: Env)
    ensures |Recommendations(taskData, entries, contextReply, priorityReply, enhanceReply, env).1|
         == if entries == [] then 2 else 3
  {
    var analysis := AnalysisIfAny(entries, contextReply, env);
    var po := RecommendedPriority(taskData, entries, contextReply, priorityReply, env);
    var eo := RecommendedEnhancement(taskData, entries, contextReply, enhanceReply, env);
    WrittenOfThree(analysis.log, po.log, eo.log);
  }
}
