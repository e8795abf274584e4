/** The two non-AI fallbacks of `AITaskManager`: `_fallback_prioritization`, a score
    from the declared priority bumped by a deadline bonus, and `_fallback_enhancement`,
    a keyword tagger over the task title. */
module Fallbacks {
  import opened JsonValues
  import opened Text
  import opened ResponseHandling

  /** A datetime deadline: its `isoformat()`, its `str()`, and the whole days
      `(deadline - now).days` until it. */
  datatype Moment = Moment(iso: string, text: string, daysUntil: int)

  /** A task's `deadline` attribute: `None`, a falsy value other than `None` (an empty
      string, zero, `False`, an empty list or dict) kept as it is, a datetime, or a
      truthy value of another type with its `str()`. */
  datatype DeadlineValue =
    | NoDeadline
    | FalsyValue(raw: Json)
    | DateTime(at: Moment)
    | OtherValue(text: string)

  /** `if deadline:` -- only a datetime or another truthy value counts as a deadline. */
  predicate HasDeadline(deadline: DeadlineValue) {
    deadline.DateTime? || deadline.OtherValue?
  }

  /** The task attributes the manager reads with `getattr`, from a `Task` row or from the
      temporary task built out of request data. */
  datatype TaskInfo = TaskInfo(
    title: Json,
    description: Json,
    category: CategoryValue,
    priority: Json,
    deadline: DeadlineValue,
    estimatedDuration: Json,
    status: Json)

  const MaxFallbackScore: real := 0.8

  /** `priority_scores.get(current_priority, 0.5)`. */
  function BaseScore(priority: Json): (s: real)
    ensures priority == JStr("low") ==> s == 0.3
    ensures priority == JStr("medium") ==> s == 0.5
    ensures priority == JStr("high") ==> s == 0.7
    ensures priority == JStr("urgent") ==> s == 0.9
    ensures priority !in {JStr("low"), JStr("medium"), JStr("high"), JStr("urgent")} ==> s == 0.5
  {
    match priority
    case JStr("low") => 0.3
    case JStr("high") => 0.7
    case JStr("urgent") => 0.9
    case _ => 0.5
  }

  /** The days until the deadline as the fallback sees them: a non-datetime deadline
      counts as one day away; `None` when there is no deadline. */
  function DaysUntil(deadline: DeadlineValue): Option<int> {
    match deadline
    case NoDeadline => None
    case FalsyValue(_) => None
    case DateTime(m) => Some(m.daysUntil)
    case OtherValue(_) => Some(1)
  }

  /** The deadline bonus: +0.3 when due or overdue, +0.2 within two days, +0.1 within a
      week, none further out. */
  function DeadlineBonus(days: int): real {
    if days <= 0 then 0.3 else if days <= 2 then 0.2 else if days <= 7 then 0.1 else 0.0
  }

  /** The deadline is close enough (a week or less) for the score to be adjusted. */
  predicate Adjusted(deadline: DeadlineValue) {
    DaysUntil(deadline).Some? && DaysUntil(deadline).value <= 7
  }

  function Min(a: real, b: real): real {
    if a <= b then a else b
  }

  /** The fallback score: the base score, and when the deadline is within a week, the
      base plus the bonus capped at 0.8. */
  function FallbackScoreOf(priority: Json, deadline: DeadlineValue): real {
    if Adjusted(deadline) then
      Min(BaseScore(priority) + DeadlineBonus(DaysUntil(deadline).value), MaxFallbackScore)
    else BaseScore(priority)
  }

  /** The score `_fallback_prioritization` computes, step by step. */
  method FallbackScore(priority: Json, deadline: DeadlineValue) returns (score: real)
    ensures score == FallbackScoreOf(priority, deadline)
  {
    score := BaseScore(priority);
    if HasDeadline(deadline) {
      var days := if deadline.DateTime? then deadline.at.daysUntil else 1;
      if days <= 0 {
        score := Min(score + 0.3, MaxFallbackScore);
      } else if days <= 2 {
        score := Min(score + 0.2, MaxFallbackScore);
      } else if days <= 7 {
        score := Min(score + 0.1, MaxFallbackScore);
      }
    }
  }

  /** The fallback score lies in [0.3, 0.9]; an adjusted score never exceeds 0.8, and a
      deadline more than a week away (or none) leaves the base score. */
  lemma FallbackScoreRange(priority: Json, deadline: DeadlineValue)
    ensures 0.3 <= FallbackScoreOf(priority, deadline) <= 0.9
    ensures Adjusted(deadline) ==> FallbackScoreOf(priority, deadline) <= MaxFallbackScore
    ensures !Adjusted(deadline) ==> FallbackScoreOf(priority, deadline) == BaseScore(priority)
    ensures Adjusted(deadline) && BaseScore(priority) <= 0.5 ==>
      FallbackScoreOf(priority, deadline) == BaseScore(priority) + DeadlineBonus(DaysUntil(deadline).value)
  {
  }

  /** The JSON form of `str(deadline) if deadline else None`. */
  function DeadlineText(deadline: DeadlineValue): Json {
    match deadline
    case NoDeadline => JNull
    case FalsyValue(_) => JNull
    case DateTime(m) => JStr(m.text)
    case OtherValue(text) => JStr(text)
  }

  /** The dict `_fallback_prioritization` returns when the priority cannot be looked up
      (an unhashable list or dict raises TypeError). */
  function EmergencyPrioritization(message: string): Dict {
    map[
      "priority_score" := JNum(0.5),
      "suggested_priority" := JStr("medium"),
      "reasoning" := JStr("Emergency fallback - minimal processing"),
      "urgency_factors" := Strings(["Emergency fallback"]),
      "suggested_deadline" := JNull,
      "estimated_duration_refined" := JNull,
      "context_relevance" := JStr("Emergency fallback mode"),
      "recommended_actions" := JArr([]),
      "is_fallback" := JBool(true),
      "error" := JStr(message)]
  }

  /** `str(e)` for the TypeError a dict lookup with an unhashable key raises. */
  function UnhashableMessage(key: Json): string {
    "unhashable type: '" + TypeName(key) + "'"
  }

  /** The dict `_fallback_prioritization` returns. */
  function FallbackPriorityResult(task: TaskInfo): Dict {
    if !Hashable(task.priority) then EmergencyPrioritization(UnhashableMessage(task.priority))
    else map[
      "priority_score" := JNum(FallbackScoreOf(task.priority, task.deadline)),
      "suggested_priority" := task.priority,
      "reasoning" := JStr("Fallback calculation based on priority and deadline"),
      "urgency_factors" := Strings(["Fallback mode"]),
      "suggested_deadline" := DeadlineText(task.deadline),
      "estimated_duration_refined" := task.estimatedDuration,
      "context_relevance" := JStr("Fallback mode - no context analysis"),
      "recommended_actions" := Strings(["Review task manually"]),
      "is_fallback" := JBool(true)]
  }

  /** `_fallback_prioritization`. */
  method FallbackPrioritization(task: TaskInfo) returns (r: Dict)
    ensures r == FallbackPriorityResult(task)
  {
    if !Hashable(task.priority) {
      return EmergencyPrioritization(UnhashableMessage(task.priority));
    }
    var score := FallbackScore(task.priority, task.deadline);
    r := map[
      "priority_score" := JNum(score),
      "suggested_priority" := task.priority,
      "reasoning" := JStr("Fallback calculation based on priority and deadline"),
      "urgency_factors" := Strings(["Fallback mode"]),
      "suggested_deadline" := DeadlineText(task.deadline),
      "estimated_duration_refined" := task.estimatedDuration,
      "context_relevance" := JStr("Fallback mode - no context analysis"),
      "recommended_actions" := Strings(["Review task manually"]),
      "is_fallback" := JBool(true)];
  }

  /** The seven fields every prioritisation carries besides its score. */
  const PrioritizationFields: set<string> := {"suggested_priority", "reasoning", "urgency_factors",
    "suggested_deadline", "estimated_duration_refined", "context_relevance", "recommended_actions"}

  /** The fallback always scores in [0.3, 0.9]. */
  lemma FallbackPrioritizationProperties(task: TaskInfo)
    ensures var r := FallbackPriorityResult(task);
      "priority_score" in r && r["priority_score"].JNum? && 0.3 <= r["priority_score"].x <= 0.9
  {
    if Hashable(task.priority) {
      FallbackPrioritizationScore(task);
      FallbackScoreRange(task.priority, task.deadline);
    } else {
      FallbackPrioritizationUnhashable(task);
    }
  }

  /** The fallback always marks itself as a fallback. */
  lemma FallbackPrioritizationMarked(task: TaskInfo)
    ensures var r := FallbackPriorityResult(task);
      "is_fallback" in r && r["is_fallback"] == JBool(true)
  {
  }

  /** For a priority that can be looked up, the fallback keeps the task's own priority
      as its suggestion and echoes the deadline. */
  lemma FallbackPrioritizationOfPriority(task: TaskInfo)
    requires Hashable(task.priority)
    ensures var r := FallbackPriorityResult(task);
      && "suggested_priority" in r && r["suggested_priority"] == task.priority
      && "suggested_deadline" in r && r["suggested_deadline"] == DeadlineText(task.deadline)
  {
  }

  /** For a priority that can be looked up, the fallback scores by priority and deadline
      and reports no error. */
  lemma FallbackPrioritizationScore(task: TaskInfo)
    requires Hashable(task.priority)
    ensures var r := FallbackPriorityResult(task);
      && "priority_score" in r && r["priority_score"] == JNum(FallbackScoreOf(task.priority, task.deadline))
      && "error" !in r
  {
  }

  /** An unhashable priority gives the emergency dict: a score of 0.5, the suggestion
      "medium" and the TypeError's message. */
  lemma FallbackPrioritizationUnhashable(task: TaskInfo)
    requires !Hashable(task.priority)
    ensures var r := FallbackPriorityResult(task);
      && "priority_score" in r && r["priority_score"] == JNum(0.5)
      && "suggested_priority" in r && r["suggested_priority"] == JStr("medium")
      && "error" in r && r["error"] == JStr(UnhashableMessage(task.priority))
  {
  }

  /** The fallback result carries all prioritisation fields and the score. */
  lemma FallbackPrioritizationFields(task: TaskInfo)
    ensures PrioritizationFields + {"priority_score"} <= FallbackPriorityResult(task).Keys
  {
  }

  /** The deadline bonus can lower a score: an urgent task due within a week scores 0.8,
      below the 0.9 of an urgent task with no deadline, because the cap applies to the
      bumped score and not just the bonus. */
  lemma CapLowersUrgentScore(days: int)
    requires days <= 7
    ensures Min(BaseScore(JStr("urgent")) + DeadlineBonus(days), MaxFallbackScore) == 0.8
    ensures BaseScore(JStr("urgent")) == 0.9
  {
  }

  /** The fixed keyword table of `_fallback_enhancement`, in its order. */
  const TagKeywords: seq<(string, seq<string>)> := [
    ("meeting", ["meeting", "call", "discuss", "conference"]),
    ("research", ["research", "study", "analyze", "investigate"]),
    ("coding", ["code", "program", "develop", "implement"]),
    ("urgent", ["urgent", "asap", "immediately", "priority"]),
    ("review", ["review", "check", "verify", "audit"]),
    ("planning", ["plan", "schedule", "organize", "prepare"])
  ]

  const MaxFallbackTags: nat := 3

  /** `any(kw in title_lower for kw in keywords)`. */
  predicate AnyKeyword(keywords: seq<string>, lowered: string) {
    exists kw :: kw in keywords && IsSubstring(kw, lowered)
  }

  /** A keyword table: a tag and the keywords that suggest it, per row. */
  type KeywordTable = seq<(string, seq<string>)>

  /** The tags of the first `n` rows of `table` whose keywords occur in `lowered`, in
      table order. */
  function MatchingTags(table: KeywordTable, lowered: string, n: nat): (tags: seq<string>)
    requires n <= |table|
    ensures |tags| <= n
  {
    if n == 0 then []
    else
      var row := table[n - 1];
      MatchingTags(table, lowered, n - 1) + (if AnyKeyword(row.1, lowered) then [row.0] else [])
  }

  /** A tag matches exactly when one of the first `n` rows lists it with a keyword that
      occurs in `lowered`. */
  lemma {:induction false} MatchingTagsMembers(table: KeywordTable, lowered: string, n: nat)
    requires n <= |table|
    ensures forall t :: t in MatchingTags(table, lowered, n) <==>
      exists i :: 0 <= i < n && table[i].0 == t && AnyKeyword(table[i].1, lowered)
  {
    if n > 0 {
      MatchingTagsMembers(table, lowered, n - 1);
    }
  }

  /** Where `t` first appears in the tag column of `table`, or -1. */
  function PositionIn(t: string, table: KeywordTable): (k: int)
    ensures -1 <= k < |table|
    ensures k >= 0 ==> table[k].0 == t
    decreases |table|
  {
    if table == [] then -1
    else if table[0].0 == t then 0
    else
      var k := PositionIn(t, table[1..]);
      if k < 0 then -1 else k + 1
  }

  /** `tags` lists entries of the tag column in table order (so no tag twice). */
  predicate InTableOrder(table: KeywordTable, tags: seq<string>) {
    && (forall i :: 0 <= i < |tags| ==> PositionIn(tags[i], table) >= 0)
    && (forall i, j :: 0 <= i < j < |tags| ==> PositionIn(tags[i], table) < PositionIn(tags[j], table))
  }

  /** No tag appears twice in the tag column. */
  predicate ColumnDistinct(table: KeywordTable) {
    forall a, b :: 0 <= a < b < |table| ==> table[a].0 != table[b].0
  }

  /** The fixed table lists each tag once. */
  lemma TagColumnDistinct()
    ensures ColumnDistinct(TagKeywords)
  {
    forall a, b | 0 <= a < b < |TagKeywords|
      ensures TagKeywords[a].0 != TagKeywords[b].0
    {
      assert TagKeywords[a].0[0] != TagKeywords[b].0[0] || |TagKeywords[a].0| != |TagKeywords[b].0|;
    }
  }

  /** The position is the first row listing the tag; -1 means no row does. */
  lemma {:induction false} PositionIsFirst(t: string, table: KeywordTable)
    ensures var k := PositionIn(t, table);
      && (k >= 0 ==> forall i :: 0 <= i < k ==> table[i].0 != t)
      && (k == -1 ==> forall i :: 0 <= i < |table| ==> table[i].0 != t)
    decreases |table|
  {
    if table != [] && table[0].0 != t {
      PositionIsFirst(t, table[1..]);
      assert forall i :: 1 <= i < |table| ==> table[i] == table[1..][i - 1];
    }
  }

  /** In a table listing each tag once, each row's tag sits at that row. */
  lemma PositionOfRow(table: KeywordTable, a: nat)
    requires ColumnDistinct(table) && a < |table|
    ensures PositionIn(table[a].0, table) == a
  {
    PositionIsFirst(table[a].0, table);
  }

  /** The matching tags come from the first `n` rows. */
  lemma MatchingFromFirstRows(table: KeywordTable, lowered: string, n: nat)
    requires ColumnDistinct(table) && n <= |table|
    ensures forall t :: t in MatchingTags(table, lowered, n) ==> 0 <= PositionIn(t, table) < n
  {
    MatchingTagsMembers(table, lowered, n);
    forall t | t in MatchingTags(table, lowered, n)
      ensures 0 <= PositionIn(t, table) < n
    {
      var i :| 0 <= i < n && table[i].0 == t && AnyKeyword(table[i].1, lowered);
      PositionOfRow(table, i);
    }
  }

  /** The matching tags are in table order. */
  lemma {:induction false} MatchingInTableOrder(table: KeywordTable, lowered: string, n: nat)
    requires ColumnDistinct(table) && n <= |table|
    ensures InTableOrder(table, MatchingTags(table, lowered, n))
  {
    if n > 0 {
      MatchingInTableOrder(table, lowered, n - 1);
      var prev := MatchingTags(table, lowered, n - 1);
      var tags := MatchingTags(table, lowered, n);
      if AnyKeyword(table[n - 1].1, lowered) {
        var last := table[n - 1].0;
        assert tags == prev + [last];
        MatchingFromFirstRows(table, lowered, n - 1);
        PositionOfRow(table, n - 1);
        forall i | 0 <= i < |prev|
          ensures tags[i] == prev[i] && 0 <= PositionIn(tags[i], table) < n - 1
        {
          assert prev[i] in prev;
        }
        forall i, j | 0 <= i < j < |tags|
          ensures PositionIn(tags[i], table) < PositionIn(tags[j], table)
        {
          if j < |prev| {
            assert tags[j] == prev[j];
          } else {
            assert tags[j] == last;
          }
        }
      } else {
        assert tags == prev;
      }
    }
  }

  /** A prefix of tags in table order is in table order. */
  lemma InTableOrderPrefix(table: KeywordTable, tags: seq<string>, n: nat)
    requires InTableOrder(table, tags) && n <= |tags|
    ensures InTableOrder(table, tags[..n])
  {
    assert forall i :: 0 <= i < n ==> tags[..n][i] == tags[i];
  }

  /** The suggested tags: at most three, distinct, in table order, each one a tag with a
      keyword in the lowered title; and when no more than three match, every matching tag. */
  lemma FallbackTagsProperties(lowered: string)
    ensures var tags := Prefix(MatchingTags(TagKeywords, lowered, |TagKeywords|), MaxFallbackTags);
      && |tags| <= MaxFallbackTags
      && InTableOrder(TagKeywords, tags)
      && (forall i, j :: 0 <= i < j < |tags| ==> tags[i] != tags[j])
      && (forall t :: t in tags ==> exists i :: 0 <= i < |TagKeywords| && TagKeywords[i].0 == t && AnyKeyword(TagKeywords[i].1, lowered))
      && (|MatchingTags(TagKeywords, lowered, |TagKeywords|)| <= MaxFallbackTags ==>
            forall i :: 0 <= i < |TagKeywords| && AnyKeyword(TagKeywords[i].1, lowered) ==> TagKeywords[i].0 in tags)
  {
    var all := MatchingTags(TagKeywords, lowered, |TagKeywords|);
    MatchingTagsMembers(TagKeywords, lowered, |TagKeywords|);
    TagColumnDistinct();
    MatchingInTableOrder(TagKeywords, lowered, |TagKeywords|);
    var tags := Prefix(all, MaxFallbackTags);
    assert forall i :: 0 <= i < |tags| ==> tags[i] == all[i];
    assert forall t :: t in tags ==> t in all;
    InTableOrderPrefix(TagKeywords, all, |tags|);
  }

  /** The dict `_fallback_enhancement` returns when the title is not a string
      (`title.lower()` raises AttributeError). */
  function EmergencyEnhancement(taskData: Dict, message: string): Dict {
    map[
      "enhanced_description" := Get(taskData, "title", JStr("Task")),
      "suggested_tags" := JArr([]),
      "suggested_category" := JStr("general"),
      "breakdown_suggestions" := JArr([]),
      "resource_suggestions" := JArr([]),
      "difficulty_assessment" := JStr("medium"),
      "context_connections" := JStr("Fallback failed"),
      "is_fallback" := JBool(true),
      "error" := JStr(message)]
  }

  /** `str(e)` for the AttributeError `title.lower()` raises on a non-string. */
  function NoLowerMessage(title: Json): string {
    "'" + TypeName(title) + "' object has no attribute 'lower'"
  }

  /** The tag loop of `_fallback_enhancement`, appending in table order. */
  method SuggestTags(lowered: string) returns (suggested: seq<string>)
    ensures suggested == MatchingTags(TagKeywords, lowered, |TagKeywords|)
  {
    suggested := [];
    for i := 0 to |TagKeywords|
      invariant suggested == MatchingTags(TagKeywords, lowered, i)
    {
      var (tag, keywords) := TagKeywords[i];
      if exists kw :: kw in keywords && IsSubstring(kw, lowered) {
        suggested := suggested + [tag];
      }
    }
  }

  /** The dict `_fallback_enhancement` returns. */
  function FallbackEnhanced(taskData: Dict): Dict {
    var title := Get(taskData, "title", JStr(""));
    var description := Get(taskData, "description", JStr(""));
    if !title.JStr? then EmergencyEnhancement(taskData, NoLowerMessage(title))
    else map[
      "enhanced_description" := if Truthy(description) then description else JStr("Complete task: " + title.s),
      "suggested_tags" := Strings(Prefix(MatchingTags(TagKeywords, Lower(title.s), |TagKeywords|), MaxFallbackTags)),
      "suggested_category" := JStr("general"),
      "breakdown_suggestions" := JArr([]),
      "resource_suggestions" := JArr([]),
      "difficulty_assessment" := JStr("medium"),
      "context_connections" := JStr("Fallback mode - no context analysis available"),
      "is_fallback" := JBool(true)]
  }

  /** `_fallback_enhancement`. */
  method FallbackEnhancement(taskData: Dict) returns (r: Dict)
    ensures r == FallbackEnhanced(taskData)
  {
    var title := Get(taskData, "title", JStr(""));
    var description := Get(taskData, "description", JStr(""));
    if !title.JStr? {
      return EmergencyEnhancement(taskData, NoLowerMessage(title));
    }
    var suggested := SuggestTags(Lower(title.s));
    r := map[
      "enhanced_description" := if Truthy(description) then description else JStr("Complete task: " + title.s),
      "suggested_tags" := Strings(Prefix(suggested, MaxFallbackTags)),
      "suggested_category" := JStr("general"),
      "breakdown_suggestions" := JArr([]),
      "resource_suggestions" := JArr([]),
      "difficulty_assessment" := JStr("medium"),
      "context_connections" := JStr("Fallback mode - no context analysis available"),
      "is_fallback" := JBool(true)];
  }

  /** The seven fields every enhancement carries. */
  const EnhancementFields: set<string> := {"enhanced_description", "suggested_tags", "suggested_category",
    "breakdown_suggestions", "resource_suggestions", "difficulty_assessment", "context_connections"}

  /** The fallback enhancement always carries the seven enhancement fields. */
  lemma FallbackEnhancementFields(taskData: Dict)
    ensures EnhancementFields <= FallbackEnhanced(taskData).Keys
  {
  }

  /** The fallback enhancement is always marked as a fallback and suggests the "general"
      category. */
  lemma FallbackEnhancementProperties(taskData: Dict)
    ensures var r := FallbackEnhanced(taskData);
      && "is_fallback" in r && r["is_fallback"] == JBool(true)
      && "suggested_category" in r && r["suggested_category"] == JStr("general")
  {
  }

  /** The fallback enhancement suggests at most three tags. */
  lemma FallbackEnhancementFewTags(taskData: Dict)
    ensures var r := FallbackEnhanced(taskData);
      "suggested_tags" in r && r["suggested_tags"].JArr? && |r["suggested_tags"].items| <= MaxFallbackTags
  {
    if Get(taskData, "title", JStr("")).JStr? {
      FallbackEnhancementTags(taskData);
    } else {
      FallbackEnhancementNoTitle(taskData);
    }
  }

  /** For a string title the description is kept when present and otherwise written
      from the title, and there is no error. */
  lemma FallbackEnhancementOfTitle(taskData: Dict)
    requires Get(taskData, "title", JStr("")).JStr?
    ensures var r := FallbackEnhanced(taskData);
      var title := Get(taskData, "title", JStr("")).s;
      var description := Get(taskData, "description", JStr(""));
      && "enhanced_description" in r
      && r["enhanced_description"] == (if Truthy(description) then description else JStr("Complete task: " + title))
      && "error" !in r
  {
  }

  /** For a string title the tags are the first three keyword matches of the lowercased
      title. */
  lemma FallbackEnhancementTags(taskData: Dict)
    requires Get(taskData, "title", JStr("")).JStr?
    ensures var r := FallbackEnhanced(taskData);
      var title := Get(taskData, "title", JStr("")).s;
      && "suggested_tags" in r
      && r["suggested_tags"] == Strings(Prefix(MatchingTags(TagKeywords, Lower(title), |TagKeywords|), MaxFallbackTags))
  {
  }

  /** A title that is not a string makes `title.lower()` raise: the emergency dict, with
      the title as the description and no tags. */
  lemma FallbackEnhancementNoTitle(taskData: Dict)
    requires !Get(taskData, "title", JStr("")).JStr?
    ensures var r := FallbackEnhanced(taskData);
      && "enhanced_description" in r && r["enhanced_description"] == Get(taskData, "title", JStr("Task"))
      && "suggested_tags" in r && r["suggested_tags"] == JArr([])
      && "error" in r && r["error"] == JStr(NoLowerMessage(Get(taskData, "title", JStr(""))))
  {
  }
}
