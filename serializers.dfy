/** The task serializers: `TaskCreateSerializer.create`, which creates the task and
    registers its tags, and the field sets of `TaskSerializer`, of which only the
    client-editable ones change on an update. */
module Serializers {
  import opened JsonValues
  import opened Text
  import opened Models

  /** The TaskTag table (unique name to usage_count) and the TaskTagRelation table
      (unique (task id, tag name) pair to ai_suggested). */
  datatype TagTables = TagTables(tags: map<string, int>, relations: map<(int, string), bool>)

  /** Every relation names an existing tag and no usage count is negative. */
  predicate TablesValid(t: TagTables) {
    && (forall k :: k in t.relations ==> k.1 in t.tags)
    && (forall n :: n in t.tags ==> t.tags[n] >= 0)
  }

  /** No relation belongs to the task yet (it has just been created). */
  predicate NoRelationsOf(t: TagTables, taskId: int) {
    forall k :: k in t.relations ==> k.0 != taskId
  }

  /** Every name lowercased, in order. */
  function Lowered(names: seq<string>): (r: seq<string>)
    ensures |r| == |names|
    ensures forall i :: 0 <= i < |names| ==> r[i] == Lower(names[i])
  {
    if names == [] then [] else [Lower(names[0])] + Lowered(names[1..])
  }

  /** The names as a set. */
  function NameSet(names: seq<string>): set<string> {
    set i | 0 <= i < |names| :: names[i]
  }

  /** The (task, tag) pairs of the names. */
  function PairSet(taskId: int, names: seq<string>): set<(int, string)> {
    set i | 0 <= i < |names| :: (taskId, names[i])
  }

  predicate Distinct(s: seq<string>) {
    forall i, j :: 0 <= i < j < |s| ==> s[i] != s[j]
  }

  /** Registering a new task's tags either creates every relation, or stops at the
      position `at` whose relation already exists (an IntegrityError), leaving the
      tables as they stood then. */
  datatype Registration = Registered(tables: TagTables) | Duplicate(tables: TagTables, at: nat)

  /** One pass of the loop for the lowercased name `name` at position `at`:
      `get_or_create` the tag, `create` the relation, and count a tag that already
      existed. */
  function RegisterOne(t: TagTables, taskId: int, name: string, at: nat): Registration {
    var created := name !in t.tags;
    var tags := if created then t.tags[name := 0] else t.tags;
    if (taskId, name) in t.relations then Duplicate(TagTables(tags, t.relations), at)
    else Registered(TagTables(if created then tags else tags[name := tags[name] + 1],
                              t.relations[(taskId, name) := false]))
  }

  /** The tables after the loop over the lowercased names `names`. */
  function Register(t: TagTables, taskId: int, names: seq<string>): Registration
    decreases |names|
  {
    if names == [] then Registered(t)
    else match Register(t, taskId, names[..|names| - 1])
      case Duplicate(t', at) => Duplicate(t', at)
      case Registered(t') => RegisterOne(t', taskId, names[|names| - 1], |names| - 1)
  }

  /** Once the loop stops, the names after the stopping point change nothing. */
  lemma {:induction false} DuplicateSticks(t: TagTables, taskId: int, names: seq<string>, i: nat)
    requires i <= |names| && Register(t, taskId, names[..i]).Duplicate?
    ensures Register(t, taskId, names) == Register(t, taskId, names[..i])
    decreases |names| - i
  {
    if i < |names| {
      assert names[..i + 1][..i] == names[..i];
      DuplicateSticks(t, taskId, names, i + 1);
    } else {
      assert names[..i] == names;
    }
  }

  /** One pass over a name whose relation does not exist yet. */
  lemma RegisterOneFresh(p: TagTables, taskId: int, name: string, at: nat)
    requires (taskId, name) !in p.relations
    ensures RegisterOne(p, taskId, name, at).Registered?
    ensures var r := RegisterOne(p, taskId, name, at).tables;
      && r.relations == p.relations[(taskId, name) := false]
      && r.tags.Keys == p.tags.Keys + {name}
      && (forall n :: n in p.tags && n != name ==> r.tags[n] == p.tags[n])
      && r.tags[name] == (if name in p.tags then p.tags[name] + 1 else 0)
  {
  }

  /** Every pass keeps the tables valid, whether or not the loop stops. */
  lemma {:induction false} RegisterValid(t: TagTables, taskId: int, names: seq<string>)
    requires TablesValid(t)
    ensures TablesValid(Register(t, taskId, names).tables)
    decreases |names|
  {
    if names != [] {
      RegisterValid(t, taskId, names[..|names| - 1]);
    }
  }

  /** The loop over distinct names, from tables with no relation of the new task,
      registers them all, and the task's relations are exactly one per name. */
  lemma {:induction false} RegisterDistinct(t: TagTables, taskId: int, names: seq<string>)
    requires NoRelationsOf(t, taskId) && Distinct(names)
    ensures Register(t, taskId, names).Registered?
    ensures Register(t, taskId, names).tables.relations.Keys == t.relations.Keys + PairSet(taskId, names)
    decreases |names|
  {
    if names != [] {
      var n := |names| - 1;
      var init := names[..n];
      DistinctPrefix(names, n);
      RegisterDistinct(t, taskId, init);
      var prev := Register(t, taskId, init).tables;
      PrefixMisses(names, n);
      assert (taskId, names[n]) !in PairSet(taskId, init);
      assert Register(t, taskId, names) == RegisterOne(prev, taskId, names[n], n);
      assert PairSet(taskId, names) == PairSet(taskId, init) + {(taskId, names[n])} by {
        forall i | 0 <= i < n ensures init[i] == names[i] {}
      }
    }
  }

  /** Every relation the loop creates is marked as not suggested by the AI. */
  lemma {:induction false} RegisterNotSuggested(t: TagTables, taskId: int, names: seq<string>)
    requires NoRelationsOf(t, taskId)
    ensures forall k :: k in Register(t, taskId, names).tables.relations && k !in t.relations ==>
              !Register(t, taskId, names).tables.relations[k]
    decreases |names|
  {
    if names != [] {
      RegisterNotSuggested(t, taskId, names[..|names| - 1]);
    }
  }

  /** Registering never changes a relation that existed before. */
  lemma {:induction false} RegisterKeepsRelations(t: TagTables, taskId: int, names: seq<string>)
    requires NoRelationsOf(t, taskId)
    ensures forall k :: k in t.relations ==>
              k in Register(t, taskId, names).tables.relations
              && Register(t, taskId, names).tables.relations[k] == t.relations[k]
    decreases |names|
  {
    if names != [] {
      var n := |names| - 1;
      RegisterKeepsRelations(t, taskId, names[..n]);
    }
  }

  /** Over distinct names the tag table gains exactly the names. */
  lemma {:induction false} RegisterTagNames(t: TagTables, taskId: int, names: seq<string>)
    requires NoRelationsOf(t, taskId) && Distinct(names)
    ensures Register(t, taskId, names).tables.tags.Keys == t.tags.Keys + NameSet(names)
    decreases |names|
  {
    if names != [] {
      var n := |names| - 1;
      var init := names[..n];
      DistinctPrefix(names, n);
      RegisterDistinct(t, taskId, init);
      RegisterTagNames(t, taskId, init);
      var prev := Register(t, taskId, init).tables;
      assert Register(t, taskId, names) == RegisterOne(prev, taskId, names[n], n);
      NameSetSnoc(names);
    }
  }

  /** Over distinct names a tag that already existed is counted once more if named, and
      a new tag starts at 0. */
  lemma {:induction false} RegisterDistinctCounts(t: TagTables, taskId: int, names: seq<string>)
    requires NoRelationsOf(t, taskId) && Distinct(names)
    ensures var r := Register(t, taskId, names).tables;
      && (forall m :: m in t.tags ==> m in r.tags && r.tags[m] == t.tags[m] + (if m in NameSet(names) then 1 else 0))
      && (forall m :: m !in t.tags && m in NameSet(names) ==> m in r.tags && r.tags[m] == 0)
    decreases |names|
  {
    if names != [] {
      var n := |names| - 1;
      var init := names[..n];
      var name := names[n];
      DistinctPrefix(names, n);
      RegisterDistinct(t, taskId, init);
      RegisterDistinctCounts(t, taskId, init);
      RegisterTagNames(t, taskId, init);
      var prev := Register(t, taskId, init).tables;
      PrefixMisses(names, n);
      assert (taskId, name) !in prev.relations by {
        assert (taskId, name) !in PairSet(taskId, init);
      }
      RegisterOneFresh(prev, taskId, name, n);
      var r := RegisterOne(prev, taskId, name, n).tables;
      assert Register(t, taskId, names).tables == r;
      NameSetSnoc(names);
      forall m | m in t.tags
        ensures m in r.tags && r.tags[m] == t.tags[m] + (if m in NameSet(names) then 1 else 0)
      {
        if m != name {
          assert (m in NameSet(names)) == (m in NameSet(init));
        }
      }
      forall m | m !in t.tags && m in NameSet(names)
        ensures m in r.tags && r.tags[m] == 0
      {
        if m != name {
          assert m in NameSet(init);
        }
      }
    }
  }

  /** The names of a sequence are those of its prefix plus its last one. */
  lemma NameSetSnoc(names: seq<string>)
    requires names != []
    ensures NameSet(names) == NameSet(names[..|names| - 1]) + {names[|names| - 1]}
  {
    var init := names[..|names| - 1];
    forall i | 0 <= i < |init| ensures init[i] == names[i] {}
  }

  lemma DistinctPrefix(names: seq<string>, n: nat)
    requires n <= |names| && Distinct(names)
    ensures Distinct(names[..n])
  {
    forall i, j | 0 <= i < j < n ensures names[..n][i] != names[..n][j] {
      assert names[..n][i] == names[i] && names[..n][j] == names[j];
    }
  }

  /** In distinct names, the one at `n` is not among those before it. */
  lemma PrefixMisses(names: seq<string>, n: nat)
    requires n < |names| && Distinct(names)
    ensures names[n] !in NameSet(names[..n])
  {
    forall i | 0 <= i < n ensures names[..n][i] != names[n] {
      assert names[..n][i] == names[i];
    }
  }

  /** A repeated name makes the loop stop at its second occurrence, the relation of that
      pair having been created by the first one. */
  lemma {:induction false} RegisterRepeated(t: TagTables, taskId: int, names: seq<string>, i: nat, j: nat)
    requires NoRelationsOf(t, taskId)
    requires i < j < |names| && names[i] == names[j]
    requires Distinct(names[..j])
    ensures Register(t, taskId, names) == Duplicate(Register(t, taskId, names[..j]).tables, j)
  {
    var init := names[..j];
    RegisterDistinct(t, taskId, init);
    RegisterTagNames(t, taskId, init);
    assert init[i] == names[i];
    assert (taskId, init[i]) in PairSet(taskId, init);
    assert init[i] in NameSet(init);
    var upTo := names[..j + 1];
    assert upTo[..j] == init;
    assert Register(t, taskId, upTo).Duplicate?;
    DuplicateSticks(t, taskId, names, j + 1);
  }

  /** The loop succeeds exactly when the names are distinct: a name given twice stops it
      at the second mention. */
  lemma RegisterSucceedsIffDistinct(t: TagTables, taskId: int, names: seq<string>)
    requires NoRelationsOf(t, taskId)
    ensures Register(t, taskId, names).Registered? <==> Distinct(names)
  {
    if Distinct(names) {
      RegisterDistinct(t, taskId, names);
    } else {
      var j := FirstRepeat(names);
      var i :| 0 <= i < j && names[i] == names[j];
      RegisterRepeated(t, taskId, names, i, j);
    }
  }

  /** The first position whose entry has already occurred. */
  function FirstRepeat(s: seq<string>): (j: nat)
    requires !Distinct(s)
    ensures j < |s| && (exists i :: 0 <= i < j && s[i] == s[j])
    ensures Distinct(s[..j])
  {
    var n := |s| - 1;
    if Distinct(s[..n]) then
      assert exists i :: 0 <= i < n && s[i] == s[n] by {
        forall i, j | 0 <= i < j < n
          ensures s[i] != s[j]
        {
          assert s[..n][i] == s[i] && s[..n][j] == s[j];
        }
        var i, j :| 0 <= i < j < |s| && s[i] == s[j];
        assert j == n;
      }
      n
    else
      var j := FirstRepeat(s[..n]);
      assert s[..n][..j] == s[..j];
      j
  }

  /** No tags means no relations and no change. */
  lemma NoTagsNoRelations(t: TagTables, taskId: int)
    ensures Register(t, taskId, Lowered([])) == Registered(t)
  {
  }

  /** The validated data of `TaskCreateSerializer`: the Task fields it accepts (status is
      not among them), and the tag names, which are never stored on the task itself.
      `None` stands for a field the request left out. */
  datatype NewTask = NewTask(
    title: string,
    description: Option<string>,
    category: Option<string>,
    priority: Option<Priority>,
    deadline: Option<Timestamp>,
    estimatedDuration: Option<int>,
    tags: seq<string>)

  /** The loop over one more name is one more pass, unless it had already stopped. */
  lemma RegisterSnoc(t: TagTables, taskId: int, names: seq<string>, i: nat)
    requires i < |names| && Register(t, taskId, names[..i]).Registered?
    ensures Register(t, taskId, names[..i + 1]) == RegisterOne(Register(t, taskId, names[..i]).tables, taskId, names[i], i)
  {
    assert names[..i + 1][..i] == names[..i];
  }

  /** One pass of the tag loop for the lowercased `name` at position `at`:
      `get_or_create` the tag, then create the relation, which raises when it exists,
      and only then count a tag that already existed. */
  method RegisterStep(store: Store, id: int, name: string, at: nat) returns (duplicate: bool)
    modifies store`tags, store`relations
    ensures RegisterOne(TagTables(old(store.tags), old(store.relations)), id, name, at)
         == if duplicate then Duplicate(TagTables(store.tags, store.relations), at)
            else Registered(TagTables(store.tags, store.relations))
  {
    var created := name !in store.tags;
    if created {
      store.tags := store.tags[name := 0];
    }
    if (id, name) in store.relations {
      return true;
    }
    store.relations := store.relations[(id, name) := false];
    if !created {
      store.tags := store.tags[name := store.tags[name] + 1];
    }
    return false;
  }

  /** The tag loop of `TaskCreateSerializer.create` for the task `id`. `failedAt` is the
      position of the tag whose relation already existed, when the loop stopped with an
      IntegrityError. */
  method RegisterTags(store: Store, id: int, names: seq<string>) returns (failedAt: Option<nat>)
    modifies store`tags, store`relations
    ensures Register(TagTables(old(store.tags), old(store.relations)), id, Lowered(names))
         == if failedAt.None? then Registered(TagTables(store.tags, store.relations))
            else Duplicate(TagTables(store.tags, store.relations), failedAt.value)
  {
    ghost var start := TagTables(store.tags, store.relations);
    ghost var lowered := Lowered(names);
    failedAt := None;
    var i: nat := 0;
    while i < |names|
      invariant 0 <= i <= |names|
      invariant Register(start, id, lowered[..i]) == Registered(TagTables(store.tags, store.relations))
    {
      var name := Lower(names[i]);
      RegisterSnoc(start, id, lowered, i);
      var duplicate := RegisterStep(store, id, name, i);
      if duplicate {
        failedAt := Some(i);
        DuplicateSticks(start, id, lowered, i + 1);
        return;
      }
      i := i + 1;
    }
    assert lowered[..i] == lowered;
  }

  /** `TaskCreateSerializer.create`: the tags are taken out of the validated data, the
      task is created from the rest (every other field at its model default), and then
      the tags are registered. */
  method CreateTask(store: Store, data: NewTask, id: int, now: Timestamp)
    returns (task: Task, failedAt: Option<nat>)
    modifies store`tags, store`relations
    ensures fresh(task) && task.Valid()
    ensures task.id == id && task.title == data.title && task.description == data.description
    ensures task.category == data.category && task.deadline == data.deadline
    ensures task.estimatedDuration == data.estimatedDuration
    ensures task.priority == (if data.priority.Some? then data.priority.value else DefaultPriority)
    ensures task.status == DefaultStatus && task.priorityScore == DefaultPriorityScore
    ensures task.aiSuggestedTags == JArr([]) && task.aiSuggestions == map[]
    ensures Register(TagTables(old(store.tags), old(store.relations)), id, Lowered(data.tags))
         == if failedAt.None? then Registered(TagTables(store.tags, store.relations))
            else Duplicate(TagTables(store.tags, store.relations), failedAt.value)
  {
    var priority := if data.priority.Some? then data.priority.value else DefaultPriority;
    task := new Task(id, data.title, data.description, data.category, priority, data.deadline,
                     data.estimatedDuration, now);
    failedAt := RegisterTags(store, id, data.tags);
  }

  /** The fields of an update request that `TaskSerializer` lets a client write; `None`
      leaves a field as it is. `priority_score`, the AI fields and the timestamps are
      read-only and have no place here. */
  datatype TaskChanges = TaskChanges(
    title: Option<string>,
    description: Option<Option<string>>,
    category: Option<Option<string>>,
    priority: Option<Priority>,
    status: Option<Status>,
    deadline: Option<Option<Timestamp>>,
    estimatedDuration: Option<Option<int>>)

  /** The fields once `serializer.save()` has set each validated writable field; every
      other field keeps its value. */
  function Written(t: TaskFields, changes: TaskChanges): TaskFields {
    t.(title := if changes.title.Some? then changes.title.value else t.title,
       description := if changes.description.Some? then changes.description.value else t.description,
       category := if changes.category.Some? then changes.category.value else t.category,
       priority := if changes.priority.Some? then changes.priority.value else t.priority,
       status := if changes.status.Some? then changes.status.value else t.status,
       deadline := if changes.deadline.Some? then changes.deadline.value else t.deadline,
       estimatedDuration := if changes.estimatedDuration.Some? then changes.estimatedDuration.value
                            else t.estimatedDuration)
  }

  /** The fields after `perform_update`: the written fields, then `Task.save`'s
      `updated_at` and `completed_at`. */
  function Updated(t: TaskFields, changes: TaskChanges, now: Timestamp): TaskFields {
    var w := Written(t, changes);
    w.(updatedAt := now, completedAt := CompletedAtAfterSave(w.status, w.completedAt, now))
  }

  /** An update changes a field the request carries and no other client field; the
      read-only fields (`priority_score`, the AI fields, `created_at`) keep their values;
      `updated_at` is now and `completed_at` follows the status; a valid task stays
      valid; and the same update applied again at the same time changes nothing. */
  lemma UpdatedProperties(t: TaskFields, changes: TaskChanges, now: Timestamp)
    ensures var r := Updated(t, changes, now);
      && r.title == (if changes.title.Some? then changes.title.value else t.title)
      && r.description == (if changes.description.Some? then changes.description.value else t.description)
      && r.category == (if changes.category.Some? then changes.category.value else t.category)
      && r.priority == (if changes.priority.Some? then changes.priority.value else t.priority)
      && r.status == (if changes.status.Some? then changes.status.value else t.status)
      && r.deadline == (if changes.deadline.Some? then changes.deadline.value else t.deadline)
      && r.estimatedDuration == (if changes.estimatedDuration.Some? then changes.estimatedDuration.value else t.estimatedDuration)
      && r.priorityScore == t.priorityScore && r.aiEnhancedDescription == t.aiEnhancedDescription
      && r.aiSuggestedTags == t.aiSuggestedTags && r.aiSuggestions == t.aiSuggestions
      && r.createdAt == t.createdAt && r.updatedAt == now
      && (r.completedAt.Some? <==> r.status == Completed)
      && (r.status == Completed && t.completedAt.Some? ==> r.completedAt == t.completedAt)
    ensures t.Valid() ==> Updated(t, changes, now).Valid()
    ensures Updated(Updated(t, changes, now), changes, now) == Updated(t, changes, now)
  {
    var w := Written(t, changes);
    SaveIdempotent(w.status, w.completedAt, now, now);
  }

  /** `serializer.save()` on an update: each validated writable field is set, every
      other field keeps its value. */
  method SetWritable(task: Task, changes: TaskChanges)
    modifies task`title, task`description, task`category, task`priority, task`status,
             task`deadline, task`estimatedDuration
    ensures task.Fields() == Written(old(task.Fields()), changes)
  {
    var w := Written(task.Fields(), changes);
    task.title, task.description, task.category, task.priority := w.title, w.description, w.category, w.priority;
    task.status, task.deadline, task.estimatedDuration := w.status, w.deadline, w.estimatedDuration;
  }

  /** `perform_update`: the validated writable fields are set and the task is saved. */
  method ApplyChanges(task: Task, changes: TaskChanges, now: Timestamp)
    modifies task
    ensures task.Fields() == Updated(old(task.Fields()), changes, now)
  {
    SetWritable(task, changes);
    task.Save(now);
  }
}
