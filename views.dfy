/** The views of the task app over the in-memory tables: the tag sync of
    `TaskViewSet.update`, the `statistics` and `priority_distribution` aggregates,
    `ContextEntryViewSet.bulk_create`, and the bulk prioritisation of
    `TaskPrioritizationView.post`. */
module Views {
  import opened JsonValues
  import opened Text
  import opened Models
  import opened LMStudio
  import opened ResponseHandling
  import opened Fallbacks
  import opened TaskManager
  import opened Serializers

  // ------------------------------------------------------------ update: tag sync

  /** `instance.tag_relations.filter(ai_suggested=False).delete()`: the task's manual
      relations go, its AI-suggested ones and every other task's stay. */
  function ClearManual(t: TagTables, taskId: int): TagTables {
    TagTables(t.tags, map k | k in t.relations && (k.0 != taskId || t.relations[k]) :: t.relations[k])
  }

  /** One pass of the update's tag loop for the lowercased name `name`:
      `get_or_create` the tag, `get_or_create` the relation (an existing one keeps its
      AI flag), and count the tag once more unless it was just created. */
  function SyncOne(t: TagTables, taskId: int, name: string): TagTables {
    var tags := if name !in t.tags then t.tags[name := 0] else t.tags[name := t.tags[name] + 1];
    var relations := if (taskId, name) in t.relations then t.relations else t.relations[(taskId, name) := false];
    TagTables(tags, relations)
  }

  /** The tables after the update's tag loop over the lowercased names `names`. */
  function Sync(t: TagTables, taskId: int, names: seq<string>): TagTables
    decreases |names|
  {
    if names == [] then t else SyncOne(Sync(t, taskId, names[..|names| - 1]), taskId, names[|names| - 1])
  }

  /** How often `n` occurs in `names`. */
  function Occurrences(names: seq<string>, n: string): (c: nat)
    ensures c <= |names|
    ensures c > 0 <==> n in NameSet(names)
    decreases |names|
  {
    if names == [] then 0
    else
      var init := names[..|names| - 1];
      NameSetSnoc(names);
      Occurrences(init, n) + (if names[|names| - 1] == n then 1 else 0)
  }

  /** Every mention counts: a tag that existed gains one per mention, a new tag starts at
      0 on its first mention and gains one per later mention, and other tags keep their
      counts. */
  lemma {:induction false} SyncCounts(t: TagTables, taskId: int, names: seq<string>)
    ensures var r := Sync(t, taskId, names);
      && r.tags.Keys == t.tags.Keys + NameSet(names)
      && (forall n :: n in t.tags ==> r.tags[n] == t.tags[n] + Occurrences(names, n))
      && (forall n :: n !in t.tags && n in NameSet(names) ==> r.tags[n] == Occurrences(names, n) - 1)
    decreases |names|
  {
    if names != [] {
      var init := names[..|names| - 1];
      var name := names[|names| - 1];
      SyncCounts(t, taskId, init);
      NameSetSnoc(names);
      var prev := Sync(t, taskId, init);
      var r := Sync(t, taskId, names);
      assert r == SyncOne(prev, taskId, name);
      forall n | n in t.tags
        ensures r.tags[n] == t.tags[n] + Occurrences(names, n)
      {
        assert Occurrences(names, n) == Occurrences(init, n) + (if name == n then 1 else 0);
      }
      forall n | n !in t.tags && n in NameSet(names)
        ensures r.tags[n] == Occurrences(names, n) - 1
      {
        assert Occurrences(names, n) == Occurrences(init, n) + (if name == n then 1 else 0);
        if n != name {
          assert n in NameSet(init);
        } else if n !in NameSet(init) {
          assert Occurrences(init, n) == 0;
        }
      }
    }
  }

  /** The task gains a relation for every name; relations that existed keep their AI
      flag, and the new ones are not AI-suggested. */
  lemma {:induction false} SyncRelations(t: TagTables, taskId: int, names: seq<string>)
    ensures var r := Sync(t, taskId, names);
      && r.relations.Keys == t.relations.Keys + PairSet(taskId, names)
      && (forall k :: k in t.relations ==> r.relations[k] == t.relations[k])
      && (forall k :: k in r.relations && k !in t.relations ==> !r.relations[k])
    decreases |names|
  {
    if names != [] {
      var n := |names| - 1;
      var init := names[..n];
      SyncRelations(t, taskId, init);
      assert Sync(t, taskId, names) == SyncOne(Sync(t, taskId, init), taskId, names[n]);
      assert PairSet(taskId, names) == PairSet(taskId, init) + {(taskId, names[n])} by {
        forall i | 0 <= i < n ensures init[i] == names[i] {}
      }
    }
  }

  /** The sync keeps the tables valid. */
  lemma {:induction false} SyncValid(t: TagTables, taskId: int, names: seq<string>)
    requires TablesValid(t)
    ensures TablesValid(Sync(t, taskId, names))
    decreases |names|
  {
    if names != [] {
      SyncValid(t, taskId, names[..|names| - 1]);
    }
  }

  /** After an update with `tags`, the task is related to a tag exactly when the tag was
      named or was already AI-suggested for it, and the relation is AI-suggested exactly
      when it was before; other tasks' relations are untouched. */
  lemma UpdateTagRelations(t: TagTables, taskId: int, names: seq<string>)
    ensures var r := Sync(ClearManual(t, taskId), taskId, names);
      && (forall n :: (taskId, n) in r.relations <==>
            n in NameSet(names) || ((taskId, n) in t.relations && t.relations[(taskId, n)]))
      && (forall n :: (taskId, n) in r.relations ==>
            (r.relations[(taskId, n)] <==> (taskId, n) in t.relations && t.relations[(taskId, n)]))
      && (forall k: (int, string) :: k.0 != taskId ==>
            (k in r.relations <==> k in t.relations) && (k in t.relations ==> r.relations[k] == t.relations[k]))
  {
    var c := ClearManual(t, taskId);
    var r := Sync(c, taskId, names);
    SyncRelations(c, taskId, names);
    forall n ensures (taskId, n) in r.relations <==> n in NameSet(names) || (taskId, n) in c.relations {
      if n in NameSet(names) {
        var i :| 0 <= i < |names| && names[i] == n;
        assert (taskId, names[i]) in PairSet(taskId, names);
      }
      if (taskId, n) in PairSet(taskId, names) {
        var i :| 0 <= i < |names| && (taskId, n) == (taskId, names[i]);
        assert n in NameSet(names);
      }
    }
    forall k: (int, string) | k.0 != taskId ensures k in r.relations <==> k in t.relations {
      assert k !in PairSet(taskId, names);
    }
  }

  /** Clearing relations keeps the tables valid. */
  lemma ClearManualValid(t: TagTables, taskId: int)
    requires TablesValid(t)
    ensures TablesValid(ClearManual(t, taskId))
  {
  }

  /** One pass of the update's tag loop, on the store's tables. */
  method SyncName(store: Store, id: int, name: string)
    modifies store`tags, store`relations
    ensures TagTables(store.tags, store.relations) == SyncOne(TagTables(old(store.tags), old(store.relations)), id, name)
  {
    var created := name !in store.tags;
    if created {
      store.tags := store.tags[name := 0];
    }
    if (id, name) !in store.relations {
      store.relations := store.relations[(id, name) := false];
    }
    if !created {
      store.tags := store.tags[name := store.tags[name] + 1];
    }
  }

  /** `request.data['tags']` as the update's `for` loop iterates it: a list gives its
      items, a string its one-character strings, an object its keys in insertion
      order; a null, number or boolean cannot be iterated. */
  datatype TagsData =
    | TagList(items: seq<Json>)
    | TagText(text: string)
    | TagObject(keys: seq<string>)
    | NotIterable(value: Json)

  /** The values the loop visits, or `None` when `iter()` raises at once. */
  function Iterated(tags: TagsData): Option<seq<Json>> {
    match tags
    case TagList(items) => Some(items)
    case TagText(text) => Some(seq(|text|, i requires 0 <= i < |text| => JStr([text[i]])))
    case TagObject(keys) => Some(seq(|keys|, i requires 0 <= i < |keys| => JStr(keys[i])))
    case NotIterable(_) => None
  }

  /** The names the loop gets through: the values before the first one that has no
      `lower()`. */
  function LeadingNames(values: seq<Json>): (r: seq<string>)
    ensures |r| <= |values|
    ensures forall k :: 0 <= k < |r| ==> values[k] == JStr(r[k])
    ensures |r| < |values| ==> !values[|r|].JStr?
    decreases |values|
  {
    if values == [] || !values[0].JStr? then [] else [values[0].s] + LeadingNames(values[1..])
  }

  /** The names synced before the loop ends or raises. */
  function TagNames(tags: TagsData): seq<string> {
    match Iterated(tags)
    case Some(values) => LeadingNames(values)
    case None => []
  }

  /** The loop raises: the value cannot be iterated, or it visits a non-string. */
  predicate TagsRaise(tags: TagsData) {
    Iterated(tags).None? || |LeadingNames(Iterated(tags).value)| < |Iterated(tags).value|
  }

  /** The loop raises exactly for a non-iterable value or a list holding a non-string; a
      string gives one tag per character and an object one tag per key. */
  lemma TagsRaiseCharacterised(tags: TagsData)
    ensures TagsRaise(tags) <==>
      tags.NotIterable? || (tags.TagList? && exists k :: 0 <= k < |tags.items| && !tags.items[k].JStr?)
    ensures tags.TagList? && !TagsRaise(tags) ==> |TagNames(tags)| == |tags.items|
    ensures tags.TagText? ==> TagNames(tags) == seq(|tags.text|, i requires 0 <= i < |tags.text| => [tags.text[i]])
    ensures tags.TagObject? ==> TagNames(tags) == tags.keys
  {
    match tags
    case TagList(items) =>
    case TagText(text) =>
      var values := Iterated(tags).value;
      assert forall k :: 0 <= k < |values| ==> values[k] == JStr([text[k]]);
    case TagObject(keys) =>
      var values := Iterated(tags).value;
      assert forall k :: 0 <= k < |values| ==> values[k] == JStr(keys[k]);
    case NotIterable(_) =>
  }

  /** The update's tag loop, on the store's tables: each string is lowercased and synced;
      the first value without `lower()` raises and ends the loop. */
  method SyncTags(store: Store, id: int, values: seq<Json>) returns (raised: bool)
    modifies store`tags, store`relations
    ensures raised <==> |LeadingNames(values)| < |values|
    ensures TagTables(store.tags, store.relations) ==
      Sync(TagTables(old(store.tags), old(store.relations)), id, Lowered(LeadingNames(values)))
  {
    ghost var start := TagTables(store.tags, store.relations);
    ghost var names := LeadingNames(values);
    ghost var lowered := Lowered(names);
    var i := 0;
    while i < |values|
      invariant i <= |names|
      invariant TagTables(store.tags, store.relations) == Sync(start, id, lowered[..i])
      decreases |values| - i
    {
      if !values[i].JStr? {
        assert lowered[..i] == lowered;
        return true;
      }
      assert i < |names|;
      assert lowered[..i + 1][..i] == lowered[..i];
      SyncName(store, id, Lower(values[i].s));
      i := i + 1;
    }
    assert lowered[..i] == lowered;
    raised := false;
  }

  /** The tag part of `TaskViewSet.update` when the request carries `tags`: the task's
      manual relations are cleared and the tags synced up to the first value that raises;
      valid tables stay valid. */
  method ReplaceTags(store: Store, id: int, tags: TagsData) returns (raised: bool)
    modifies store`tags, store`relations
    ensures raised == TagsRaise(tags)
    ensures TagTables(store.tags, store.relations) ==
      Sync(ClearManual(TagTables(old(store.tags), old(store.relations)), id), id, Lowered(TagNames(tags)))
    ensures old(store.Valid()) ==> store.Valid()
  {
    var start := TagTables(store.tags, store.relations);
    var cleared := ClearManual(start, id);
    store.relations := cleared.relations;
    var values := Iterated(tags);
    if values.None? {
      raised := true;
    } else {
      raised := SyncTags(store, id, values.value);
    }
    if old(store.Valid()) {
      assert TablesValid(start);
      ClearManualValid(start, id);
      SyncValid(cleared, id, Lowered(TagNames(tags)));
      assert TablesValid(TagTables(store.tags, store.relations));
    }
  }

  /** `TaskViewSet.update`. `validated` is the outcome of the serializer's validation:
      on failure (status 400) nothing changes. Otherwise, when the request carries
      `tags`, the task's manual relations are cleared and the tags synced; when the tag
      loop raises, the error escapes the view (status 500) with the tag changes made so
      far kept and the fields not saved. Otherwise the validated fields are saved. */
  method UpdateTask(store: Store, task: Task, tags: Option<TagsData>, validated: Result<TaskChanges>,
                    now: Timestamp)
    returns (status: int)
    modifies store`tags, store`relations, task
    ensures status == (if validated.Err? then 400 else if tags.Some? && TagsRaise(tags.value) then 500 else 200)
    ensures TagTables(store.tags, store.relations) ==
      if validated.Ok? && tags.Some?
      then Sync(ClearManual(TagTables(old(store.tags), old(store.relations)), task.id), task.id, Lowered(TagNames(tags.value)))
      else TagTables(old(store.tags), old(store.relations))
    ensures task.Fields() == if status == 200 then Updated(old(task.Fields()), validated.value, now) else old(task.Fields())
    ensures old(store.Valid()) ==> store.Valid()
  {
    if validated.Err? {
      return 400;
    }
    if tags.Some? {
      var raised := ReplaceTags(store, task.id, tags.value);
      if raised {
        return 500;
      }
    }
    ApplyChanges(task, validated.value, now);
    status := 200;
  }

  // ------------------------------------------------------------ statistics

  /** `Task.objects.filter(status=s).count()`. */
  function CountStatus(tasks: seq<Task>, s: Status): (n: nat)
    reads tasks
    ensures n <= |tasks|
    decreases |tasks|
  {
    if tasks == [] then 0
    else CountStatus(tasks[..|tasks| - 1], s) + (if tasks[|tasks| - 1].status == s then 1 else 0)
  }

  /** A task the statistics count as overdue: a deadline before `now` and still open. */
  predicate Overdue(t: Task, now: Timestamp)
    reads t
  {
    t.deadline.Some? && t.deadline.value < now && t.status.IsOpen()
  }

  /** `Task.objects.filter(deadline__lt=now, status__in=['pending', 'in_progress']).count()`. */
  function CountOverdue(tasks: seq<Task>, now: Timestamp): (n: nat)
    reads tasks
    ensures n <= |tasks|
    decreases |tasks|
  {
    if tasks == [] then 0
    else CountOverdue(tasks[..|tasks| - 1], now) + (if Overdue(tasks[|tasks| - 1], now) then 1 else 0)
  }

  /** The counts `statistics` returns. */
  datatype Statistics = Statistics(
    total: nat, completed: nat, pending: nat, inProgress: nat, overdue: nat, completionRate: real)

  /** `completed / total * 100` when there are tasks, and 0 otherwise. */
  function CompletionRate(completed: nat, total: nat): (r: real)
    requires completed <= total
    ensures 0.0 <= r <= 100.0
    ensures total == 0 ==> r == 0.0
    ensures total > 0 ==> r * (total as real) == (completed as real) * 100.0
    ensures r == 100.0 <==> total > 0 && completed == total
    ensures r == 0.0 <==> completed == 0
  {
    if total > 0 then (completed as real) / (total as real) * 100.0 else 0.0
  }

  /** `TaskViewSet.statistics` over the Task table. */
  function TaskStatistics(tasks: seq<Task>, now: Timestamp): Statistics
    reads tasks
  {
    var completed := CountStatus(tasks, Completed);
    Statistics(|tasks|, completed, CountStatus(tasks, Pending), CountStatus(tasks, InProgress),
               CountOverdue(tasks, now), CompletionRate(completed, |tasks|))
  }

  /** Every task has exactly one of the four statuses, so the four counts add up to the
      total, and the overdue tasks are among the open ones. */
  lemma {:induction false} StatusCountsSum(tasks: seq<Task>, now: Timestamp)
    ensures CountStatus(tasks, Pending) + CountStatus(tasks, InProgress) + CountStatus(tasks, Completed)
            + CountStatus(tasks, Cancelled) == |tasks|
    ensures CountOverdue(tasks, now) <= CountStatus(tasks, Pending) + CountStatus(tasks, InProgress)
    decreases |tasks|
  {
    if tasks != [] {
      StatusCountsSum(tasks[..|tasks| - 1], now);
    }
  }

  /** The statistics: the rate lies in [0,100], is 0 without tasks, and is 100 exactly
      when every task is completed; the status counts never exceed the total. */
  lemma StatisticsProperties(tasks: seq<Task>, now: Timestamp)
    ensures var s := TaskStatistics(tasks, now);
      && 0.0 <= s.completionRate <= 100.0
      && (s.total == 0 ==> s.completionRate == 0.0)
      && (s.completionRate == 100.0 <==> s.total > 0 && s.completed == s.total)
      && s.completed + s.pending + s.inProgress <= s.total
      && s.overdue <= s.pending + s.inProgress
  {
    StatusCountsSum(tasks, now);
  }

  // ------------------------------------------------------ priority_distribution

  const AllPriorities: set<Priority> := {Low, Medium, High, Urgent}

  /** Some task, whatever its status, has priority `p` (`values('priority').distinct()`). */
  predicate HasPriority(tasks: seq<Task>, p: Priority)
    reads tasks
  {
    exists i :: 0 <= i < |tasks| && tasks[i].priority == p
  }

  /** `Task.objects.filter(priority=p, status__in=['pending', 'in_progress']).count()`. */
  function CountOpenWithPriority(tasks: seq<Task>, p: Priority): (n: nat)
    reads tasks
    ensures n <= |tasks|
    decreases |tasks|
  {
    if tasks == [] then 0
    else
      var t := tasks[|tasks| - 1];
      CountOpenWithPriority(tasks[..|tasks| - 1], p) + (if t.priority == p && t.status.IsOpen() then 1 else 0)
  }

  /** `TaskViewSet.priority_distribution`: each priority some task has, whatever its
      status, to the number of open tasks with it. The response spells the priorities
      by their choice values (`Priority.Name`, which are distinct). */
  function PriorityDistribution(tasks: seq<Task>): map<Priority, nat>
    reads tasks
  {
    map p | p in AllPriorities && HasPriority(tasks, p) :: CountOpenWithPriority(tasks, p)
  }

  /** The sum of the distribution's values. */
  function DistributionTotal(d: map<Priority, nat>): nat {
    (if Low in d then d[Low] else 0) + (if Medium in d then d[Medium] else 0)
    + (if High in d then d[High] else 0) + (if Urgent in d then d[Urgent] else 0)
  }

  /** A priority no task has counts no open task. */
  lemma {:induction false} AbsentPriorityCountsNothing(tasks: seq<Task>, p: Priority)
    requires !HasPriority(tasks, p)
    ensures CountOpenWithPriority(tasks, p) == 0
    decreases |tasks|
  {
    if tasks != [] {
      var init := tasks[..|tasks| - 1];
      assert !HasPriority(init, p) by {
        forall i | 0 <= i < |init| ensures init[i].priority != p {
          assert init[i] == tasks[i];
        }
      }
      AbsentPriorityCountsNothing(init, p);
    }
  }

  /** The open tasks split by priority. */
  lemma {:induction false} OpenCountsSum(tasks: seq<Task>)
    ensures CountOpenWithPriority(tasks, Low) + CountOpenWithPriority(tasks, Medium)
            + CountOpenWithPriority(tasks, High) + CountOpenWithPriority(tasks, Urgent)
            == CountStatus(tasks, Pending) + CountStatus(tasks, InProgress)
    decreases |tasks|
  {
    if tasks != [] {
      OpenCountsSum(tasks[..|tasks| - 1]);
    }
  }

  /** The distribution has a key for exactly the priorities in use, counts only open
      tasks, and its counts add up to the number of open tasks. */
  lemma DistributionProperties(tasks: seq<Task>)
    ensures var d := PriorityDistribution(tasks);
      && (forall p :: p in d <==> HasPriority(tasks, p))
      && (forall p :: p in d ==> d[p] == CountOpenWithPriority(tasks, p))
      && DistributionTotal(d) == CountStatus(tasks, Pending) + CountStatus(tasks, InProgress)
  {
    var d := PriorityDistribution(tasks);
    forall p | !HasPriority(tasks, p) ensures CountOpenWithPriority(tasks, p) == 0 {
      AbsentPriorityCountsNothing(tasks, p);
    }
    OpenCountsSum(tasks);
    forall p ensures p in AllPriorities {
      match p
      case Low => case Medium => case High => case Urgent =>
    }
  }

  // -------------------------------------------------------------- bulk_create

  /** The fields `ContextEntryCreateSerializer` takes; `timestamp` may be omitted. */
  datatype EntryData = EntryData(content: string, sourceType: SourceType, sourceIdentifier: string,
                                 timestamp: Option<Timestamp>)

  /** What `is_valid()` decides about one item of the request: its validated data, or
      `serializer.errors`. */
  datatype Checked = Accepted(data: EntryData) | Rejected(errors: Json)

  /** One element of the response's `errors`: `{'index': i, 'errors': serializer.errors}`. */
  datatype ItemError = ItemError(index: nat, errors: Json)

  /** The response: 400 with an error message, or 201 with the three response fields;
      `entries` are the created entries as they are in memory when the response is built. */
  datatype BulkResponse =
    | BadRequest(error: string)
    | BulkCreated(created: nat, errors: seq<ItemError>, entries: seq<ContextEntry>)

  const NotAList := "Expected a list of context entries"

  /** The validated data of the accepted items, in request order. */
  function AcceptedData(items: seq<Json>, validate: Json -> Checked): (r: seq<EntryData>)
    ensures |r| <= |items|
    decreases |items|
  {
    if items == [] then []
    else
      var n := |items| - 1;
      AcceptedData(items[..n], validate) + (match validate(items[n]) case Accepted(d) => [d] case _ => [])
  }

  /** The `errors` list: one element per rejected item, with its position in the request. */
  function Rejections(items: seq<Json>, validate: Json -> Checked): (r: seq<ItemError>)
    ensures |r| <= |items|
    decreases |items|
  {
    if items == [] then []
    else
      var n := |items| - 1;
      Rejections(items[..n], validate) + (match validate(items[n]) case Rejected(e) => [ItemError(n, e)] case _ => [])
  }

  /** The largest id in use, or 0. */
  function MaxEntryId(entries: seq<ContextEntry>): (m: int)
    ensures m >= 0
    ensures forall i :: 0 <= i < |entries| ==> entries[i].id <= m
    decreases |entries|
  {
    if entries == [] then 0
    else
      var m := MaxEntryId(entries[..|entries| - 1]);
      var last := entries[|entries| - 1].id;
      assert forall i :: 0 <= i < |entries| - 1 ==> entries[i] == entries[..|entries| - 1][i];
      if last > m then last else m
  }

  /** The id the database gives the next row (an auto-increment primary key). */
  function NextEntryId(entries: seq<ContextEntry>): int {
    MaxEntryId(entries) + 1
  }

  /** `serializer.save()`: the row with the client's fields, `timestamp` defaulting to
      the current time, no insights, unprocessed, and created now. */
  function NewEntry(data: EntryData, id: int, now: Timestamp): ContextEntry {
    ContextEntry(id, data.content, data.sourceType, data.sourceIdentifier,
                 if data.timestamp.Some? then data.timestamp.value else now, map[], None, now)
  }

  /** The rows the accepted items become, with consecutive ids from `firstId`. */
  function NewEntries(data: seq<EntryData>, firstId: int, now: Timestamp): (r: seq<ContextEntry>)
    ensures |r| == |data|
    decreases |data|
  {
    if data == [] then []
    else
      var n := |data| - 1;
      NewEntries(data[..n], firstId, now) + [NewEntry(data[n], firstId + n, now)]
  }

  /** `entry.processed_insights = insights; entry.processed_at = timezone.now()`. */
  function MarkProcessed(e: ContextEntry, insights: Dict, now: Timestamp): ContextEntry {
    e.(processedInsights := insights, processedAt := Some(now))
  }

  /** The entries with the first `n` of them marked processed. */
  function MarkFirst(entries: seq<ContextEntry>, insights: Dict, now: Timestamp, n: nat): (r: seq<ContextEntry>)
    requires n <= |entries|
  {
    seq(|entries|, k requires 0 <= k < |entries| => if k < n then MarkProcessed(entries[k], insights, now) else entries[k])
  }

  /** How many of `n` entries reach the store marked processed, when the save at
      position `failingSave` (if any) raises and ends the loop. */
  function SavedCount(n: nat, failingSave: Option<nat>): (c: nat)
    ensures c <= n
  {
    if failingSave.Some? && failingSave.value < n then failingSave.value else n
  }

  /** How many of them are marked in memory: the one whose save raised was marked first. */
  function TouchedCount(n: nat, failingSave: Option<nat>): (c: nat)
    ensures c <= n
  {
    if failingSave.Some? && failingSave.value < n then failingSave.value + 1 else n
  }

  /** The response, the analysis log record, and the rows appended to the table. */
  datatype BulkEffect = BulkEffect(response: BulkResponse, log: Option<ProcessingLog>, appended: seq<ContextEntry>)

  /** `ContextEntryViewSet.bulk_create` given the model's reply to the single analysis
      and the position of the first `entry.save()` that raises, if any (the exception
      is logged and the response is still 201). */
  function Bulk(existing: seq<ContextEntry>, body: Json, validate: Json -> Checked, reply: Reply, env: Env,
                now: Timestamp, failingSave: Option<nat>): BulkEffect
  {
    if !body.JArr? then BulkEffect(BadRequest(NotAList), None, [])
    else
      var created := NewEntries(AcceptedData(body.items, validate), NextEntryId(existing), now);
      var analysis := AnalysisIfAny(created, reply, env);
      BulkEffect(
        BulkCreated(|created|, Rejections(body.items, validate),
                    MarkFirst(created, analysis.result, now, TouchedCount(|created|, failingSave))),
        analysis.log,
        MarkFirst(created, analysis.result, now, SavedCount(|created|, failingSave)))
  }

  /** One more item of the request: both lists grow by what it contributes. */
  lemma ItemStep(items: seq<Json>, i: nat, validate: Json -> Checked)
    requires i < |items|
    ensures AcceptedData(items[..i + 1], validate)
            == AcceptedData(items[..i], validate) + (match validate(items[i]) case Accepted(d) => [d] case _ => [])
    ensures Rejections(items[..i + 1], validate)
            == Rejections(items[..i], validate) + (match validate(items[i]) case Rejected(e) => [ItemError(i, e)] case _ => [])
  {
    assert items[..i + 1][..i] == items[..i];
  }

  /** One more accepted item gives one more row, with the next id. */
  lemma NewEntriesSnoc(data: seq<EntryData>, d: EntryData, firstId: int, now: Timestamp)
    ensures NewEntries(data + [d], firstId, now) == NewEntries(data, firstId, now) + [NewEntry(d, firstId + |data|, now)]
  {
    assert (data + [d])[..|data|] == data;
  }

  /** The first loop: save each valid item at once, collect the errors of the others. */
  method SaveValidItems(store: Store, items: seq<Json>, validate: Json -> Checked, firstId: int, now: Timestamp)
    returns (created: seq<ContextEntry>, errors: seq<ItemError>)
    modifies store`entries
    ensures created == NewEntries(AcceptedData(items, validate), firstId, now)
    ensures errors == Rejections(items, validate)
    ensures store.entries == old(store.entries) + created
  {
    ghost var before := store.entries;
    created := [];
    errors := [];
    ghost var accepted: seq<EntryData> := [];
    for i := 0 to |items|
      invariant accepted == AcceptedData(items[..i], validate)
      invariant created == NewEntries(accepted, firstId, now)
      invariant errors == Rejections(items[..i], validate)
      invariant store.entries == before + created
    {
      ItemStep(items, i, validate);
      var checked := validate(items[i]);
      if checked.Accepted? {
        assert AcceptedData(items[..i + 1], validate) == accepted + [checked.data];
        assert Rejections(items[..i + 1], validate) == errors;
        var entry := NewEntry(checked.data, firstId + |created|, now);
        NewEntriesSnoc(accepted, checked.data, firstId, now);
        assert created + [entry] == NewEntries(accepted + [checked.data], firstId, now);
        assert before + (created + [entry]) == (before + created) + [entry];
        store.entries := store.entries + [entry];
        created := created + [entry];
        accepted := accepted + [checked.data];
      } else {
        assert AcceptedData(items[..i + 1], validate) == accepted;
        assert Rejections(items[..i + 1], validate) == errors + [ItemError(i, checked.errors)];
        errors := errors + [ItemError(i, checked.errors)];
      }
    }
    assert items[..|items|] == items;
  }

  /** The second loop: mark each created entry and save it; the first save that raises
      ends the loop, leaving that entry marked in memory only. */
  method SaveInsights(store: Store, created: seq<ContextEntry>, insights: Dict, now: Timestamp,
                      failingSave: Option<nat>)
    returns (marked: seq<ContextEntry>)
    requires |created| <= |store.entries|
    requires store.entries[|store.entries| - |created|..] == created
    modifies store`entries
    ensures store.entries == old(store.entries)[..|old(store.entries)| - |created|]
                             + MarkFirst(created, insights, now, SavedCount(|created|, failingSave))
    ensures marked == MarkFirst(created, insights, now, TouchedCount(|created|, failingSave))
  {
    ghost var prefix := store.entries[..|store.entries| - |created|];
    var base := |store.entries| - |created|;
    assert store.entries == prefix + MarkFirst(created, insights, now, 0);
    marked := created;
    for k := 0 to |created|
      invariant |store.entries| == base + |created|
      invariant store.entries == prefix + MarkFirst(created, insights, now, k)
      invariant marked == MarkFirst(created, insights, now, k)
      invariant failingSave.None? || failingSave.value >= k
    {
      marked := marked[k := MarkProcessed(marked[k], insights, now)];
      assert marked == MarkFirst(created, insights, now, k + 1);
      if failingSave == Some(k) {
        break;
      }
      store.entries := store.entries[base + k := marked[k]];
      assert store.entries == prefix + MarkFirst(created, insights, now, k + 1);
    }
  }

  /** Appending rows created now keeps the table in creation order. */
  lemma AppendedInOrder(existing: seq<ContextEntry>, appended: seq<ContextEntry>, now: Timestamp)
    requires EntriesInCreationOrder(existing)
    requires forall i :: 0 <= i < |existing| ==> existing[i].createdAt <= now
    requires forall i :: 0 <= i < |appended| ==> appended[i].createdAt == now
    ensures EntriesInCreationOrder(existing + appended)
  {
    var all := existing + appended;
    forall i, j | 0 <= i < j < |all| ensures all[i].createdAt <= all[j].createdAt {
      if j >= |existing| {
        assert all[j] == appended[j - |existing|];
        if i >= |existing| {
          assert all[i] == appended[i - |existing|];
        }
      }
    }
  }

  /** The created rows, one per accepted item with consecutive ids from `firstId`, are
      all created now and not yet processed. */
  lemma {:induction false} NewEntriesAt(data: seq<EntryData>, firstId: int, now: Timestamp)
    ensures forall k :: 0 <= k < |data| ==> NewEntries(data, firstId, now)[k] == NewEntry(data[k], firstId + k, now)
    decreases |data|
  {
    if data != [] {
      var n := |data| - 1;
      NewEntriesAt(data[..n], firstId, now);
    }
  }

  /** Every row `bulk_create` appends was created now. */
  lemma BulkAppendedNow(existing: seq<ContextEntry>, body: Json, validate: Json -> Checked, reply: Reply, env: Env,
                        now: Timestamp, failingSave: Option<nat>)
    ensures var appended := Bulk(existing, body, validate, reply, env, now, failingSave).appended;
      forall k :: 0 <= k < |appended| ==> appended[k].createdAt == now
  {
    if body.JArr? {
      NewEntriesAt(AcceptedData(body.items, validate), NextEntryId(existing), now);
    }
  }

  /** The list case of `bulk_create`. */
  method CreateAndProcess(store: Store, items: seq<Json>, validate: Json -> Checked, attempts: seq<Attempt>, env: Env,
                          now: Timestamp, failingSave: Option<nat>)
    returns (response: BulkResponse, log: Option<ProcessingLog>)
    requires |attempts| >= MaxRetries
    modifies store`entries
    ensures var b := Bulk(old(store.entries), JArr(items), validate, ReplyOf(attempts), env, now, failingSave);
      response == b.response && log == b.log && store.entries == old(store.entries) + b.appended
  {
    ghost var existing := store.entries;
    var firstId := NextEntryId(store.entries);
    var created, errors := SaveValidItems(store, items, validate, firstId, now);
    ghost var analysis := AnalysisIfAny(created, ReplyOf(attempts), env);
    var insights: Dict := map[];
    log := None;
    var marked := created;
    if created != [] {
      assert store.entries[|store.entries| - |created|..] == created;
      insights, log := AnalyzeContext(created, attempts, env);
      marked := SaveInsights(store, created, insights, now, failingSave);
      assert existing + created == old(store.entries) + created;
      assert (existing + created)[..|existing|] == existing;
    }
    assert insights == analysis.result && log == analysis.log;
    ghost var appended := MarkFirst(created, insights, now, SavedCount(|created|, failingSave));
    assert store.entries == existing + appended;
    response := BulkCreated(|created|, errors, marked);
  }

  /** `bulk_create`: 400 and nothing stored for a body that is not a list; otherwise
      the valid items are stored, analysed once and marked. The table stays valid. */
  method BulkCreate(store: Store, body: Json, validate: Json -> Checked, attempts: seq<Attempt>, env: Env,
                    now: Timestamp, failingSave: Option<nat>)
    returns (response: BulkResponse, log: Option<ProcessingLog>)
    requires |attempts| >= MaxRetries
    requires store.Valid()
    requires forall i :: 0 <= i < |store.entries| ==> store.entries[i].createdAt <= now
    modifies store`entries
    ensures var b := Bulk(old(store.entries), body, validate, ReplyOf(attempts), env, now, failingSave);
      response == b.response && log == b.log && store.entries == old(store.entries) + b.appended
    ensures store.Valid()
  {
    if !body.JArr? {
      return BadRequest(NotAList), None;
    }
    response, log := CreateAndProcess(store, body.items, validate, attempts, env, now, failingSave);
    BulkAppendedNow(old(store.entries), body, validate, ReplyOf(attempts), env, now, failingSave);
    AppendedInOrder(old(store.entries), Bulk(old(store.entries), body, validate, ReplyOf(attempts), env, now, failingSave).appended, now);
  }

  /** Every item is either accepted or reported. */
  lemma {:induction false} ItemsPartitioned(items: seq<Json>, validate: Json -> Checked)
    ensures |AcceptedData(items, validate)| + |Rejections(items, validate)| == |items|
    decreases |items|
  {
    if items != [] {
      ItemsPartitioned(items[..|items| - 1], validate);
    }
  }

  /** Each error names a rejected item, with that item's errors. */
  lemma {:induction false} RejectionsSound(items: seq<Json>, validate: Json -> Checked)
    ensures forall k {:trigger Rejections(items, validate)[k]} :: 0 <= k < |Rejections(items, validate)| ==>
      var e := Rejections(items, validate)[k];
      e.index < |items| && validate(items[e.index]) == Rejected(e.errors)
    decreases |items|
  {
    if items != [] {
      var n := |items| - 1;
      var init := items[..n];
      RejectionsSound(init, validate);
      var r0 := Rejections(init, validate);
      var r := Rejections(items, validate);
      var tail := match validate(items[n]) case Rejected(e) => [ItemError(n, e)] case _ => [];
      assert r == r0 + tail;
      forall k | 0 <= k < |r| ensures r[k].index < |items| && validate(items[r[k].index]) == Rejected(r[k].errors) {
        if k < |r0| {
          assert r[k] == r0[k] && init[r0[k].index] == items[r0[k].index];
        }
      }
    }
  }

  /** Each rejected item is reported under its own index. */
  lemma {:induction false} RejectionsComplete(items: seq<Json>, validate: Json -> Checked)
    ensures var r := Rejections(items, validate);
      forall i :: 0 <= i < |items| && validate(items[i]).Rejected? ==> ItemError(i, validate(items[i]).errors) in r
    decreases |items|
  {
    if items != [] {
      var n := |items| - 1;
      var init := items[..n];
      RejectionsComplete(init, validate);
      var r0 := Rejections(init, validate);
      var r := Rejections(items, validate);
      var tail := match validate(items[n]) case Rejected(e) => [ItemError(n, e)] case _ => [];
      assert r == r0 + tail;
      forall i | 0 <= i < |items| && validate(items[i]).Rejected? ensures ItemError(i, validate(items[i]).errors) in r {
        if i < n {
          assert init[i] == items[i];
          assert ItemError(i, validate(items[i]).errors) in r0;
        }
      }
    }
  }

  /** The errors come in request order. */
  lemma {:induction false} RejectionsOrdered(items: seq<Json>, validate: Json -> Checked)
    ensures forall j, k :: 0 <= j < k < |Rejections(items, validate)| ==>
      Rejections(items, validate)[j].index < Rejections(items, validate)[k].index
    decreases |items|
  {
    if items != [] {
      var n := |items| - 1;
      var init := items[..n];
      RejectionsOrdered(init, validate);
      RejectionsSound(init, validate);
      var r0 := Rejections(init, validate);
      var r := Rejections(items, validate);
      var tail := match validate(items[n]) case Rejected(e) => [ItemError(n, e)] case _ => [];
      assert r == r0 + tail;
      forall j, k | 0 <= j < k < |r| ensures r[j].index < r[k].index {
        assert r[j] == r0[j];
        if k < |r0| {
          assert r[k] == r0[k];
        }
      }
    }
  }

  /** The accepted data are exactly those of the accepted items. */
  lemma {:induction false} AcceptedExact(items: seq<Json>, validate: Json -> Checked)
    ensures var a := AcceptedData(items, validate);
      && (forall k :: 0 <= k < |a| ==> exists i :: 0 <= i < |items| && validate(items[i]) == Accepted(a[k]))
      && (forall i :: 0 <= i < |items| && validate(items[i]).Accepted? ==> validate(items[i]).data in a)
    decreases |items|
  {
    if items != [] {
      var n := |items| - 1;
      var init := items[..n];
      AcceptedExact(init, validate);
      var a0 := AcceptedData(init, validate);
      var a := AcceptedData(items, validate);
      assert a[..|a0|] == a0;
      forall k | 0 <= k < |a| ensures exists i :: 0 <= i < |items| && validate(items[i]) == Accepted(a[k]) {
        if k < |a0| {
          assert a[k] == a0[k];
          var i :| 0 <= i < |init| && validate(init[i]) == Accepted(a0[k]);
          assert init[i] == items[i];
        } else {
          assert validate(items[n]) == Accepted(a[k]);
        }
      }
      forall i | 0 <= i < |items| && validate(items[i]).Accepted? ensures validate(items[i]).data in a {
        if i < n {
          assert init[i] == items[i];
        }
      }
    }
  }

  /** Partial success: a body that is not a list is refused with nothing stored and no
      analysis; otherwise `created` counts the valid items, every other item is
      reported, one row is stored per valid item, and the analysis runs (and is logged)
      exactly when something was created. */
  lemma BulkPartialSuccess(existing: seq<ContextEntry>, body: Json, validate: Json -> Checked, reply: Reply,
                           env: Env, now: Timestamp, failingSave: Option<nat>)
    ensures var b := Bulk(existing, body, validate, reply, env, now, failingSave);
      && (!body.JArr? ==> b.response == BadRequest(NotAList) && b.log.None? && b.appended == [])
      && (body.JArr? ==>
            && b.response.BulkCreated?
            && b.response.created == |AcceptedData(body.items, validate)| == |b.appended| == |b.response.entries|
            && b.response.created + |b.response.errors| == |body.items|
            && b.response.errors == Rejections(body.items, validate)
            && (b.log.Some? <==> b.response.created > 0))
  {
    if body.JArr? {
      ItemsPartitioned(body.items, validate);
    }
  }

  /** The rows created from the accepted data, named once. */
  function CreatedRows(existing: seq<ContextEntry>, items: seq<Json>, validate: Json -> Checked, now: Timestamp)
    : seq<ContextEntry>
  {
    NewEntries(AcceptedData(items, validate), NextEntryId(existing), now)
  }

  /** `Bulk` on a list, unfolded. */
  lemma BulkOfList(existing: seq<ContextEntry>, items: seq<Json>, validate: Json -> Checked, reply: Reply,
                   env: Env, now: Timestamp, failingSave: Option<nat>)
    ensures var created := CreatedRows(existing, items, validate, now);
      var insights := AnalysisIfAny(created, reply, env).result;
      var b := Bulk(existing, JArr(items), validate, reply, env, now, failingSave);
      && b.appended == MarkFirst(created, insights, now, SavedCount(|created|, failingSave))
      && b.response.entries == MarkFirst(created, insights, now, TouchedCount(|created|, failingSave))
  {
  }

  /** The stored rows carry the accepted data, ids beyond every existing id and
      consecutive among themselves, and the creation time. */
  lemma BulkRows(existing: seq<ContextEntry>, items: seq<Json>, validate: Json -> Checked, reply: Reply,
                 env: Env, now: Timestamp, failingSave: Option<nat>)
    ensures var appended := Bulk(existing, JArr(items), validate, reply, env, now, failingSave).appended;
      var data := AcceptedData(items, validate);
      && |appended| == |data|
      && (forall k :: 0 <= k < |appended| ==>
            && appended[k].id == NextEntryId(existing) + k
            && appended[k].content == data[k].content && appended[k].sourceType == data[k].sourceType
            && appended[k].sourceIdentifier == data[k].sourceIdentifier
            && appended[k].timestamp == (if data[k].timestamp.Some? then data[k].timestamp.value else now)
            && appended[k].createdAt == now)
      && (forall k, i :: 0 <= k < |appended| && 0 <= i < |existing| ==> existing[i].id < appended[k].id)
  {
    var data := AcceptedData(items, validate);
    var created := CreatedRows(existing, items, validate, now);
    var appended := Bulk(existing, JArr(items), validate, reply, env, now, failingSave).appended;
    NewEntriesAt(data, NextEntryId(existing), now);
    BulkOfList(existing, items, validate, reply, env, now, failingSave);
    forall k | 0 <= k < |appended|
      ensures appended[k].id == created[k].id && appended[k].content == created[k].content
      ensures appended[k].sourceType == created[k].sourceType
      ensures appended[k].sourceIdentifier == created[k].sourceIdentifier
      ensures appended[k].timestamp == created[k].timestamp && appended[k].createdAt == created[k].createdAt
    {
    }
  }

  /** Created rows start unprocessed. */
  lemma CreatedUnprocessed(existing: seq<ContextEntry>, items: seq<Json>, validate: Json -> Checked, now: Timestamp)
    ensures var created := CreatedRows(existing, items, validate, now);
      forall k :: 0 <= k < |created| ==> created[k].processedAt.None? && created[k].processedInsights == map[]
  {
    NewEntriesAt(AcceptedData(items, validate), NextEntryId(existing), now);
  }

  /** When no save fails, every created entry is stored with the same insights, the
      result of the one analysis, and a processing time; the response shows them as
      stored. */
  lemma BulkSameInsights(existing: seq<ContextEntry>, items: seq<Json>, validate: Json -> Checked, reply: Reply,
                         env: Env, now: Timestamp, failingSave: Option<nat>)
    requires failingSave.None? || failingSave.value >= |AcceptedData(items, validate)|
    ensures var b := Bulk(existing, JArr(items), validate, reply, env, now, failingSave);
      var insights := AnalysisIfAny(CreatedRows(existing, items, validate, now), reply, env).result;
      && b.response.entries == b.appended
      && forall k :: 0 <= k < |b.appended| ==>
           b.appended[k].processedInsights == insights && b.appended[k].processedAt == Some(now)
  {
    BulkOfList(existing, items, validate, reply, env, now, failingSave);
  }

  /** When the save at position `f` raises, the entries before it are stored processed,
      it and the later ones stay unprocessed in the table, and the response shows the
      failed one marked. */
  lemma BulkSaveFails(existing: seq<ContextEntry>, items: seq<Json>, validate: Json -> Checked, reply: Reply,
                      env: Env, now: Timestamp, f: nat)
    requires f < |AcceptedData(items, validate)|
    ensures var b := Bulk(existing, JArr(items), validate, reply, env, now, Some(f));
      var insights := AnalysisIfAny(CreatedRows(existing, items, validate, now), reply, env).result;
      && (forall k :: 0 <= k < f ==> b.appended[k].processedAt == Some(now) && b.appended[k].processedInsights == insights)
      && (forall k :: f <= k < |b.appended| ==> b.appended[k].processedAt.None?)
      && b.response.entries[f].processedAt == Some(now)
  {
    BulkOfList(existing, items, validate, reply, env, now, Some(f));
    CreatedUnprocessed(existing, items, validate, now);
  }

  // --------------------------------------------- TaskPrioritizationView.post

  /** The validated request: `task_ids`, and `context_entries` (empty when omitted). */
  datatype PrioritizationRequest = PrioritizationRequest(taskIds: seq<int>, contextIds: seq<int>)

  /** One element of the response. */
  datatype PrioritizationRow = PrioritizationRow(taskId: int, priorityScore: real, reasoning: Json)

  /** 400 with the serializer's errors, or 200 with one row per task. */
  datatype PrioritizationResponse =
    | InvalidRequest(errors: string)
    | Prioritizations(rows: seq<PrioritizationRow>)

  /** How a stored deadline is spelled: `isoformat()` and `str()`. */
  datatype Formats = Formats(iso: Timestamp -> string, text: Timestamp -> string)

  /** `(deadline - now).days`: whole days, rounded down. */
  function DaysUntil(deadline: Timestamp, now: Timestamp): (d: int)
    ensures d * MicrosPerDay <= deadline - now < (d + 1) * MicrosPerDay
    ensures deadline >= now ==> d >= 0
    ensures deadline < now ==> d < 0
  {
    (deadline - now) / MicrosPerDay
  }

  /** A stored task as `prioritize_task` reads it: the attributes of the row, the
      category's name when it has one, the deadline as a datetime. */
  function TaskInfoOf(task: TaskFields, now: Timestamp, formats: Formats): TaskInfo {
    TaskInfo(
      JStr(task.title),
      match task.description case Some(d) => JStr(d) case None => JNull,
      match task.category case Some(n) => CategoryObject(Some(n)) case None => NoCategory,
      JStr(task.priority.Name()),
      match task.deadline
      case Some(d) => DateTime(Moment(formats.iso(d), formats.text(d), DaysUntil(d, now)))
      case None => NoDeadline,
      match task.estimatedDuration case Some(m) => JNum(m as real) case None => JNull,
      JStr(task.status.Name()))
  }

  /** `filter(id__in=ids)` on a table whose rows have the primary keys `keys`: the
      positions of the rows whose key is requested, in the table's order. */
  function MatchingIds(keys: seq<int>, ids: seq<int>): (r: seq<nat>)
    ensures |r| <= |keys|
    ensures forall k :: 0 <= k < |r| ==> r[k] < |keys| && keys[r[k]] in ids
    ensures forall i :: 0 <= i < |keys| && keys[i] in ids ==> i in r
    ensures forall j, k :: 0 <= j < k < |r| ==> r[j] < r[k]
    decreases |keys|
  {
    if keys == [] then []
    else
      var n := |keys| - 1;
      var init := keys[..n];
      assert forall i :: 0 <= i < n ==> init[i] == keys[i];
      MatchingIds(init, ids) + (if keys[n] in ids then [n] else [])
  }

  /** The primary keys of the task rows. */
  function TaskIds(tasks: seq<Task>): (r: seq<int>)
    ensures |r| == |tasks| && forall i :: 0 <= i < |tasks| ==> r[i] == tasks[i].id
  {
    seq(|tasks|, i requires 0 <= i < |tasks| => tasks[i].id)
  }

  /** The primary keys of the context entries. */
  function EntryIds(entries: seq<ContextEntry>): (r: seq<int>)
    ensures |r| == |entries| && forall i :: 0 <= i < |entries| ==> r[i] == entries[i].id
  {
    seq(|entries|, i requires 0 <= i < |entries| => entries[i].id)
  }

  /** The rows at the given positions. */
  function Pick<T>(rows: seq<T>, positions: seq<nat>): (r: seq<T>)
    requires forall k :: 0 <= k < |positions| ==> positions[k] < |rows|
    ensures |r| == |positions| && forall k :: 0 <= k < |r| ==> r[k] == rows[positions[k]]
  {
    seq(|positions|, k requires 0 <= k < |positions| => rows[positions[k]])
  }

  /** `Task.objects.filter(id__in=task_ids)`, in the table's order: requested ids that
      match no task are skipped. */
  function SelectTasks(tasks: seq<Task>, ids: seq<int>): (r: seq<Task>)
    ensures |r| <= |tasks|
    ensures forall i :: 0 <= i < |r| ==> r[i] in tasks && r[i].id in ids
    ensures forall i :: 0 <= i < |tasks| && tasks[i].id in ids ==> tasks[i] in r
  {
    var m := MatchingIds(TaskIds(tasks), ids);
    var r := Pick(tasks, m);
    assert forall i :: 0 <= i < |tasks| && tasks[i].id in ids ==> tasks[i] in r by {
      forall i | 0 <= i < |tasks| && tasks[i].id in ids ensures tasks[i] in r {
        var k :| 0 <= k < |m| && m[k] == i;
        assert r[k] == tasks[i];
      }
    }
    r
  }

  /** `ContextEntry.objects.filter(id__in=context_entry_ids)`, in the table's order. */
  function SelectEntries(entries: seq<ContextEntry>, ids: seq<int>): (r: seq<ContextEntry>)
    ensures |r| <= |entries|
    ensures forall i :: 0 <= i < |r| ==> r[i] in entries && r[i].id in ids
    ensures forall i :: 0 <= i < |entries| && entries[i].id in ids ==> entries[i] in r
  {
    var m := MatchingIds(EntryIds(entries), ids);
    var r := Pick(entries, m);
    assert forall i :: 0 <= i < |entries| && entries[i].id in ids ==> entries[i] in r by {
      forall i | 0 <= i < |entries| && entries[i].id in ids ensures entries[i] in r {
        var k :| 0 <= k < |m| && m[k] == i;
        assert r[k] == entries[i];
      }
    }
    r
  }

  /** Distinct rows stay distinct when selected. */
  lemma SelectedDistinct(tasks: seq<Task>, ids: seq<int>)
    requires forall i, j :: 0 <= i < j < |tasks| ==> tasks[i] != tasks[j]
    ensures forall i, j :: 0 <= i < j < |SelectTasks(tasks, ids)| ==> SelectTasks(tasks, ids)[i] != SelectTasks(tasks, ids)[j]
  {
    var m := MatchingIds(TaskIds(tasks), ids);
    assert SelectTasks(tasks, ids) == Pick(tasks, m);
  }

  /** `prioritization.get('priority_score', task.priority_score)`. */
  function StoredScore(result: Dict, current: real): real {
    match Get(result, "priority_score", JNum(current))
    case JNum(x) => x
    case _ => current
  }

  /** The score stored is the prioritisation's own, never the old one, and lies in [0,1]. */
  lemma StoredScoreOfPrioritization(info: TaskInfo, context: Dict, reply: Reply, env: Env, current: real)
    ensures var r := Prioritized(info, context, reply, env).result;
      && "priority_score" in r && r["priority_score"].JNum?
      && StoredScore(r, current) == r["priority_score"].x
      && 0.0 <= StoredScore(r, current) <= 1.0
  {
    PrioritizedScored(info, context, reply, env);
  }

  /** The columns after one step of the loop: the prioritisation's score (the old one
      when it carries none) and its dict stored, then `save`; nothing else changes. */
  function AfterPrioritization(task: TaskFields, result: Dict, now: Timestamp): TaskFields {
    task.(priorityScore := StoredScore(result, task.priorityScore), aiSuggestions := result,
          updatedAt := now, completedAt := CompletedAtAfterSave(task.status, task.completedAt, now))
  }

  /** Storing a prioritisation: `task.priority_score = ...; task.ai_suggestions = ...;
      task.save()`. */
  method StorePrioritization(task: Task, result: Dict, now: Timestamp)
    modifies task
    ensures task.Fields() == AfterPrioritization(old(task.Fields()), result, now)
  {
    task.priorityScore := StoredScore(result, task.priorityScore);
    task.aiSuggestions := result;
    task.Save(now);
  }

  /** What `prioritize_task` makes of a task, given the model's answers for it. */
  function PrioritizationOf(task: TaskFields, context: Dict, attempts: seq<Attempt>, env: Env, now: Timestamp,
                            formats: Formats): Outcome
    requires |attempts| >= MaxRetries
  {
    Prioritized(TaskInfoOf(task, now, formats), context, ReplyOf(attempts), env)
  }

  /** A task with columns `before` after its step of the loop, given the prioritisation
      `o` it got: `after` holds its stored score and suggestions, `row` is its response
      row and `log` the record the prioritisation writes. */
  predicate Stored(id: int, before: TaskFields, after: TaskFields, o: Outcome, now: Timestamp,
                   row: PrioritizationRow, log: ProcessingLog)
  {
    && after == AfterPrioritization(before, o.result, now)
    && row == PrioritizationRow(id, after.priorityScore, Get(o.result, "reasoning", JStr("")))
    && Some(log) == o.log
  }

  /** A prioritised task is a valid task whatever it was before: its score is the one
      the prioritisation computed, which lies in [0,1], and `save` sets `completed_at`
      from the status. */
  lemma PrioritizedValid(task: TaskFields, context: Dict, attempts: seq<Attempt>, env: Env, now: Timestamp,
                         formats: Formats)
    requires |attempts| >= MaxRetries
    ensures var r := PrioritizationOf(task, context, attempts, env, now, formats).result;
      && "priority_score" in r && r["priority_score"].JNum?
      && AfterPrioritization(task, r, now).priorityScore == r["priority_score"].x
      && AfterPrioritization(task, r, now).Valid()
  {
    var info := TaskInfoOf(task, now, formats);
    StoredScoreOfPrioritization(info, context, ReplyOf(attempts), env, task.priorityScore);
  }

  /** The columns of each task. */
  function FieldsOf(tasks: seq<Task>): (r: seq<TaskFields>)
    reads tasks
  {
    seq(|tasks|, k requires 0 <= k < |tasks| reads tasks => tasks[k].Fields())
  }

  /** `planned[j]` is the prioritisation the j-th task gets from its columns `tasks[j]`,
      with its own answers of the model. */
  predicate Planned(tasks: seq<TaskFields>, planned: seq<Outcome>, context: Dict, taskAttempts: seq<seq<Attempt>>,
                    env: Env, now: Timestamp, formats: Formats)
    requires |tasks| <= |taskAttempts|
    requires forall k :: 0 <= k < |taskAttempts| ==> |taskAttempts[k]| >= MaxRetries
  {
    && |planned| == |tasks|
    && forall j {:trigger PrioritizationOf(tasks[j], context, taskAttempts[j], env, now, formats)} ::
         0 <= j < |tasks| ==> planned[j] == PrioritizationOf(tasks[j], context, taskAttempts[j], env, now, formats)
  }

  /** The prioritisations of a run, one per task. */
  lemma PlannedExists(tasks: seq<TaskFields>, context: Dict, taskAttempts: seq<seq<Attempt>>, env: Env,
                      now: Timestamp, formats: Formats)
    returns (planned: seq<Outcome>)
    requires |tasks| <= |taskAttempts|
    requires forall k :: 0 <= k < |taskAttempts| ==> |taskAttempts[k]| >= MaxRetries
    ensures Planned(tasks, planned, context, taskAttempts, env, now, formats)
  {
    planned := seq(|tasks|, j requires 0 <= j < |tasks| => PrioritizationOf(tasks[j], context, taskAttempts[j], env, now, formats));
  }

  /** One step of the loop, for the k-th of the tasks whose columns were `before`:
      prioritise the task as it is against the shared context, store the score and
      the suggestions, save, and report the row. */
  method PrioritizeStored(task: Task, context: Dict, taskAttempts: seq<seq<Attempt>>, env: Env, now: Timestamp,
                          formats: Formats, ghost before: seq<TaskFields>, ghost planned: seq<Outcome>, k: nat)
    returns (row: PrioritizationRow, log: ProcessingLog)
    requires k < |before| <= |taskAttempts|
    requires forall j :: 0 <= j < |taskAttempts| ==> |taskAttempts[j]| >= MaxRetries
    requires Planned(before, planned, context, taskAttempts, env, now, formats)
    requires task.Fields() == before[k]
    modifies task
    ensures Stored(task.id, before[k], task.Fields(), planned[k], now, row, log)
    ensures task.Valid()
  {
    assert planned[k] == PrioritizationOf(before[k], context, taskAttempts[k], env, now, formats);
    var info := TaskInfoOf(task.Fields(), now, formats);
    var result, record := PrioritizeTask(info, context, taskAttempts[k], env);
    PrioritizedValid(task.Fields(), context, taskAttempts[k], env, now, formats);
    log := record.value;
    StorePrioritization(task, result, now);
    row := PrioritizationRow(task.id, task.priorityScore, Get(result, "reasoning", JStr("")));
  }

  /** The loop over the selected tasks, each prioritised as it was against the same
      context with its own answers of the model: the k-th task ends up holding the
      k-th planned prioritisation, and reports the k-th row and log record. */
  method PrioritizeEach(selected: seq<Task>, context: Dict, taskAttempts: seq<seq<Attempt>>, env: Env,
                        now: Timestamp, formats: Formats, ghost planned: seq<Outcome>)
    returns (rows: seq<PrioritizationRow>, logs: seq<ProcessingLog>)
    requires |selected| <= |taskAttempts|
    requires forall k :: 0 <= k < |taskAttempts| ==> |taskAttempts[k]| >= MaxRetries
    requires forall i, j :: 0 <= i < j < |selected| ==> selected[i] != selected[j]
    requires Planned(FieldsOf(selected), planned, context, taskAttempts, env, now, formats)
    modifies selected
    ensures |rows| == |selected| && |logs| == |selected|
    ensures forall k :: 0 <= k < |selected| ==>
      && Stored(selected[k].id, old(selected[k].Fields()), selected[k].Fields(), planned[k], now, rows[k], logs[k])
      && selected[k].Valid()
  {
    ghost var before := FieldsOf(selected);
    rows := [];
    logs := [];
    for k := 0 to |selected|
      invariant |rows| == k && |logs| == k
      invariant forall j :: 0 <= j < k ==>
        Stored(selected[j].id, before[j], selected[j].Fields(), planned[j], now, rows[j], logs[j]) && selected[j].Valid()
      invariant forall j :: k <= j < |selected| ==> selected[j].Fields() == before[j]
    {
      var row, log := PrioritizeStored(selected[k], context, taskAttempts, env, now, formats, before, planned, k);
      rows := rows + [row];
      logs := logs + [log];
    }
  }

  /** The context the loop shares: the analysis of the requested entries, if any. */
  function SharedContext(entries: seq<ContextEntry>, request: PrioritizationRequest, reply: Reply, env: Env): Outcome {
    AnalysisIfAny(SelectEntries(entries, request.contextIds), reply, env)
  }

  /** The loop run against the shared context `shared`, whose log record, if any, is
      reported first; `planned[k]` is the prioritisation the k-th task gets. */
  method PrioritizeAgainst(selected: seq<Task>, ghost shared: Outcome, context: Dict, contextLogs: seq<ProcessingLog>,
                           taskAttempts: seq<seq<Attempt>>, env: Env, now: Timestamp, formats: Formats)
    returns (rows: seq<PrioritizationRow>, logs: seq<ProcessingLog>, ghost planned: seq<Outcome>)
    requires |selected| <= |taskAttempts|
    requires forall k :: 0 <= k < |taskAttempts| ==> |taskAttempts[k]| >= MaxRetries
    requires forall i, j :: 0 <= i < j < |selected| ==> selected[i] != selected[j]
    requires context == shared.result && contextLogs == (if shared.log.Some? then [shared.log.value] else [])
    modifies selected
    ensures var offset := if shared.log.Some? then 1 else 0;
      && Planned(old(FieldsOf(selected)), planned, shared.result, taskAttempts, env, now, formats)
      && |rows| == |selected| && |logs| == offset + |selected|
      && (shared.log.Some? ==> logs[0] == shared.log.value)
      && forall k :: 0 <= k < |selected| ==>
           && Stored(selected[k].id, old(selected[k].Fields()), selected[k].Fields(), planned[k],
                     now, rows[k], logs[offset + k])
           && selected[k].Valid()
  {
    planned := PlannedExists(FieldsOf(selected), context, taskAttempts, env, now, formats);
    var taskLogs;
    rows, taskLogs := PrioritizeEach(selected, context, taskAttempts, env, now, formats, planned);
    logs := contextLogs + taskLogs;
    forall k | 0 <= k < |selected|
      ensures Stored(selected[k].id, old(selected[k].Fields()), selected[k].Fields(), planned[k],
                     now, rows[k], logs[|contextLogs| + k])
    {
      assert logs[|contextLogs| + k] == taskLogs[k];
    }
  }

  /** The second `TaskPrioritizationView.post`, which replaces the first: 400 for an
      invalid request; otherwise the requested tasks that exist are prioritised one by
      one against a context analysed once, and each reports one row. The table is given
      in the order the query returns it; `taskAttempts[k]` are the model's answers for
      the k-th selected task, and `planned[k]` is the prioritisation that task gets. */
  method PrioritizeTasks(tasks: seq<Task>, entries: seq<ContextEntry>, request: Result<PrioritizationRequest>,
                         contextAttempts: seq<Attempt>, taskAttempts: seq<seq<Attempt>>, env: Env,
                         now: Timestamp, formats: Formats)
    returns (response: PrioritizationResponse, logs: seq<ProcessingLog>, ghost planned: seq<Outcome>)
    requires |contextAttempts| >= MaxRetries
    requires forall k :: 0 <= k < |taskAttempts| ==> |taskAttempts[k]| >= MaxRetries
    requires request.Ok? ==> |SelectTasks(tasks, request.value.taskIds)| <= |taskAttempts|
    requires forall i, j :: 0 <= i < j < |tasks| ==> tasks[i] != tasks[j]
    modifies tasks
    ensures request.Err? ==> response == InvalidRequest(request.message) && logs == []
    ensures request.Err? ==> forall i :: 0 <= i < |tasks| ==> unchanged(tasks[i])
    ensures request.Ok? ==>
      var selected := SelectTasks(tasks, request.value.taskIds);
      var shared := SharedContext(entries, request.value, ReplyOf(contextAttempts), env);
      var offset := if shared.log.Some? then 1 else 0;
      && response.Prioritizations?
      && Planned(old(FieldsOf(selected)), planned, shared.result, taskAttempts, env, now, formats)
      && |response.rows| == |selected| && |logs| == offset + |selected|
      && (shared.log.Some? ==> logs[0] == shared.log.value)
      && forall k :: 0 <= k < |selected| ==>
           && Stored(selected[k].id, old(selected[k].Fields()), selected[k].Fields(), planned[k],
                     now, response.rows[k], logs[offset + k])
           && selected[k].Valid()
    ensures request.Ok? ==>
      forall i :: 0 <= i < |tasks| && tasks[i].id !in request.value.taskIds ==> unchanged(tasks[i])
  {
    if request.Err? {
      return InvalidRequest(request.message), [], [];
    }
    var ids := request.value.taskIds;
    var selected := SelectTasks(tasks, ids);
    SelectedDistinct(tasks, ids);
    var contextEntries := SelectEntries(entries, request.value.contextIds);
    var context: Dict := map[];
    var contextLogs: seq<ProcessingLog> := [];
    if contextEntries != [] {
      var record;
      context, record := AnalyzeContext(contextEntries, contextAttempts, env);
      contextLogs := [record.value];
    }
    ghost var shared := SharedContext(entries, request.value, ReplyOf(contextAttempts), env);
    var rows;
    rows, logs, planned := PrioritizeAgainst(selected, shared, context, contextLogs, taskAttempts, env, now, formats);
    response := Prioritizations(rows);
  }
}
