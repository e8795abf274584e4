/** The two management commands the model covers: `setup_initial_data`, which seeds the
    default categories and tags with `get_or_create`, and `process_context_entries`,
    which analyses the unprocessed context entries one at a time. */
module Commands {
  import opened JsonValues
  import opened Models
  import opened LMStudio
  import opened TaskManager

  // ------------------------------------------------------------ setup_initial_data

  /** The default categories with their colours, in the order they are seeded. */
  const DefaultCategories: seq<(string, string)> := [
    ("Work", "#3B82F6"), ("Personal", "#10B981"), ("Shopping", "#F59E0B"), ("Health", "#EF4444"),
    ("Learning", "#8B5CF6"), ("Finance", "#06B6D4"), ("Family", "#F97316"), ("Travel", "#84CC16")]

  /** The default tags, in the order they are seeded. */
  const DefaultTags: seq<string> := [
    "urgent", "important", "meeting", "call", "email", "research",
    "development", "review", "planning", "follow-up", "deadline",
    "quick", "complex", "creative", "routine", "documentation",
    "presentation", "analysis", "discussion", "approval"]

  /** The rows `get_or_create` would insert for the categories: the given colour, and
      the model default `usage_count` of 0. */
  function CategoryRows(): (r: seq<(string, Category)>)
    ensures |r| == 8
    ensures forall i :: 0 <= i < |r| ==> r[i].1.usageCount == 0
  {
    seq(|DefaultCategories|, i requires 0 <= i < |DefaultCategories| =>
      (DefaultCategories[i].0, Category(DefaultCategories[i].1, 0)))
  }

  /** The rows `get_or_create` would insert for the tags: a `usage_count` of 0. */
  function TagRows(): (r: seq<(string, int)>)
    ensures |r| == 20
    ensures forall i :: 0 <= i < |r| ==> r[i].1 == 0
  {
    seq(|DefaultTags|, i requires 0 <= i < |DefaultTags| => (DefaultTags[i], 0))
  }

  /** The rows are the listed defaults, in order. */
  lemma DefaultRows()
    ensures forall i :: 0 <= i < 8 ==> CategoryRows()[i] == (DefaultCategories[i].0, Category(DefaultCategories[i].1, 0))
    ensures forall i :: 0 <= i < 20 ==> TagRows()[i] == (DefaultTags[i], 0)
  {
  }

  /** The names of a list of rows. */
  function Names<V>(rows: seq<(string, V)>): set<string> {
    set i | 0 <= i < |rows| :: rows[i].0
  }

  /** A table keyed by unique name after `get_or_create` has run for each row in turn:
      a missing name is inserted with the row's defaults, a present one is left alone. */
  function GetOrCreateAll<V>(table: map<string, V>, rows: seq<(string, V)>): map<string, V>
    decreases |rows|
  {
    if rows == [] then table
    else
      var n := |rows| - 1;
      var before := GetOrCreateAll(table, rows[..n]);
      if rows[n].0 in before then before else before[rows[n].0 := rows[n].1]
  }

  /** How many of those calls report `created`. */
  function CreatedCount<V>(table: map<string, V>, rows: seq<(string, V)>): nat
    decreases |rows|
  {
    if rows == [] then 0
    else
      var n := |rows| - 1;
      CreatedCount(table, rows[..n]) + if rows[n].0 in GetOrCreateAll(table, rows[..n]) then 0 else 1
  }

  /** The names of all rows but the last, and the last one's. */
  lemma NamesSnoc<V>(rows: seq<(string, V)>)
    requires rows != []
    ensures Names(rows) == Names(rows[..|rows| - 1]) + {rows[|rows| - 1].0}
  {
    var init := rows[..|rows| - 1];
    assert forall i :: 0 <= i < |init| ==> init[i] == rows[i];
    assert forall i :: 0 <= i < |rows| - 1 ==> rows[i].0 in Names(init);
  }

  /** After the calls every listed name is present and nothing else is added. */
  lemma {:induction false} GetOrCreateAllKeys<V>(table: map<string, V>, rows: seq<(string, V)>)
    ensures GetOrCreateAll(table, rows).Keys == table.Keys + Names(rows)
    decreases |rows|
  {
    if rows != [] {
      GetOrCreateAllKeys(table, rows[..|rows| - 1]);
      NamesSnoc(rows);
    }
  }

  /** The rows that were present are unchanged. */
  lemma {:induction false} GetOrCreateAllKeeps<V>(table: map<string, V>, rows: seq<(string, V)>)
    ensures forall name :: name in table ==> name in GetOrCreateAll(table, rows) && GetOrCreateAll(table, rows)[name] == table[name]
    decreases |rows|
  {
    if rows != [] {
      GetOrCreateAllKeeps(table, rows[..|rows| - 1]);
    }
  }

  /** A name that was missing holds the defaults of the first row listing it. */
  lemma {:induction false} GetOrCreateAllFirst<V>(table: map<string, V>, rows: seq<(string, V)>, i: nat)
    requires i < |rows| && rows[i].0 !in table
    requires forall j :: 0 <= j < i ==> rows[j].0 != rows[i].0
    ensures rows[i].0 in GetOrCreateAll(table, rows) && GetOrCreateAll(table, rows)[rows[i].0] == rows[i].1
    decreases |rows|
  {
    var n := |rows| - 1;
    var init := rows[..n];
    if i < n {
      assert init[i] == rows[i];
      assert forall j :: 0 <= j < i ==> init[j] == rows[j];
      GetOrCreateAllFirst(table, init, i);
    } else {
      GetOrCreateAllKeys(table, init);
      assert forall j :: 0 <= j < n ==> init[j] == rows[j];
      assert rows[n].0 !in Names(init);
    }
  }

  /** A created row holds the defaults of some row listing its name. */
  lemma {:induction false} CreatedFromRows<V>(table: map<string, V>, rows: seq<(string, V)>, name: string)
    requires name in GetOrCreateAll(table, rows) && name !in table
    ensures exists i :: 0 <= i < |rows| && rows[i] == (name, GetOrCreateAll(table, rows)[name])
    decreases |rows|
  {
    var n := |rows| - 1;
    var init := rows[..n];
    if name in GetOrCreateAll(table, init) {
      CreatedFromRows(table, init, name);
      var i :| 0 <= i < |init| && init[i] == (name, GetOrCreateAll(table, init)[name]);
      assert rows[i] == init[i];
    } else {
      assert rows[n] == (name, GetOrCreateAll(table, rows)[name]);
    }
  }

  /** Adding one name to a list adds one missing name exactly when it was neither listed
      nor present. */
  lemma MissingSnoc(listed: set<string>, keys: set<string>, name: string)
    ensures name in listed + keys ==> (listed + {name}) - keys == listed - keys
    ensures name !in listed + keys ==> |(listed + {name}) - keys| == |listed - keys| + 1
  {
    if name !in listed + keys {
      assert (listed + {name}) - keys == (listed - keys) + {name};
    }
  }

  /** The counter counts exactly the listed names that were missing. */
  lemma {:induction false} CreatedCountIsMissing<V>(table: map<string, V>, rows: seq<(string, V)>)
    ensures CreatedCount(table, rows) == |Names(rows) - table.Keys|
    decreases |rows|
  {
    if rows != [] {
      var n := |rows| - 1;
      var init := rows[..n];
      CreatedCountIsMissing(table, init);
      GetOrCreateAllKeys(table, init);
      NamesSnoc(rows);
      MissingSnoc(Names(init), table.Keys, rows[n].0);
    }
  }

  /** Seeding again changes nothing and creates nothing. */
  lemma GetOrCreateAllIdempotent<V>(table: map<string, V>, rows: seq<(string, V)>)
    ensures GetOrCreateAll(GetOrCreateAll(table, rows), rows) == GetOrCreateAll(table, rows)
    ensures CreatedCount(GetOrCreateAll(table, rows), rows) == 0
  {
    var once := GetOrCreateAll(table, rows);
    GetOrCreateAllKeys(table, rows);
    GetOrCreateAllKeys(once, rows);
    GetOrCreateAllKeeps(once, rows);
    CreatedCountIsMissing(once, rows);
    assert Names(rows) - once.Keys == {};
  }

  /** The category loop of `setup_initial_data`. */
  method SeedCategories(store: Store) returns (created: nat)
    modifies store`categories
    ensures store.categories == GetOrCreateAll(old(store.categories), CategoryRows())
    ensures created == CreatedCount(old(store.categories), CategoryRows())
  {
    var rows := CategoryRows();
    ghost var table := store.categories;
    created := 0;
    for i := 0 to |rows|
      invariant store.categories == GetOrCreateAll(table, rows[..i])
      invariant created == CreatedCount(table, rows[..i])
    {
      var (name, row) := rows[i];
      assert rows[..i + 1][..i] == rows[..i];
      if name !in store.categories {
        store.categories := store.categories[name := row];
        created := created + 1;
      }
    }
    assert rows[..|rows|] == rows;
  }

  /** The tag loop of `setup_initial_data`. */
  method SeedTags(store: Store) returns (created: nat)
    modifies store`tags
    ensures store.tags == GetOrCreateAll(old(store.tags), TagRows())
    ensures created == CreatedCount(old(store.tags), TagRows())
  {
    var rows := TagRows();
    ghost var table := store.tags;
    created := 0;
    for i := 0 to |rows|
      invariant store.tags == GetOrCreateAll(table, rows[..i])
      invariant created == CreatedCount(table, rows[..i])
    {
      var (name, row) := rows[i];
      assert rows[..i + 1][..i] == rows[..i];
      if name !in store.tags {
        store.tags := store.tags[name := row];
        created := created + 1;
      }
    }
    assert rows[..|rows|] == rows;
  }

  /** `setup_initial_data`: get-or-create every default category, then every default
      tag, counting the rows created. */
  method SetupInitialData(store: Store) returns (createdCategories: nat, createdTags: nat)
    requires store.Valid()
    modifies store`categories, store`tags
    ensures store.categories == GetOrCreateAll(old(store.categories), CategoryRows())
    ensures store.tags == GetOrCreateAll(old(store.tags), TagRows())
    ensures createdCategories == CreatedCount(old(store.categories), CategoryRows())
    ensures createdTags == CreatedCount(old(store.tags), TagRows())
    ensures store.Valid()
  {
    createdCategories := SeedCategories(store);
    createdTags := SeedTags(store);
    GetOrCreateAllKeys(old(store.tags), TagRows());
    forall name | name in store.tags
      ensures store.tags[name] >= 0
    {
      if name in old(store.tags) {
        GetOrCreateAllKeeps(old(store.tags), TagRows());
      } else {
        CreatedFromRows(old(store.tags), TagRows(), name);
        var i :| 0 <= i < |TagRows()| && TagRows()[i] == (name, store.tags[name]);
        assert TagRows()[i].1 == 0;
      }
    }
  }

  /** After the calls every listed name is present, rows that existed are untouched, a
      created row holds the defaults of a row listing its name, and the counter counts
      the listed names that were missing. */
  lemma GetOrCreateAllProperties<V>(table: map<string, V>, rows: seq<(string, V)>)
    ensures var r := GetOrCreateAll(table, rows);
      && (forall i :: 0 <= i < |rows| ==> rows[i].0 in r)
      && (forall name :: name in table ==> name in r && r[name] == table[name])
      && (forall name :: name in r && name !in table ==> exists i :: 0 <= i < |rows| && rows[i] == (name, r[name]))
      && CreatedCount(table, rows) == |Names(rows) - table.Keys|
  {
    var r := GetOrCreateAll(table, rows);
    GetOrCreateAllKeys(table, rows);
    GetOrCreateAllKeeps(table, rows);
    CreatedCountIsMissing(table, rows);
    assert forall i :: 0 <= i < |rows| ==> rows[i].0 in Names(rows);
    forall name | name in r && name !in table
      ensures exists i :: 0 <= i < |rows| && rows[i] == (name, r[name])
    {
      CreatedFromRows(table, rows, name);
    }
  }

  /** After a run every default category exists. */
  lemma DefaultCategoriesPresent(categories: map<string, Category>)
    ensures forall i :: 0 <= i < |DefaultCategories| ==> DefaultCategories[i].0 in GetOrCreateAll(categories, CategoryRows())
  {
    var c := CategoryRows();
    GetOrCreateAllKeys(categories, c);
    forall i | 0 <= i < |DefaultCategories|
      ensures DefaultCategories[i].0 in GetOrCreateAll(categories, c)
    {
      assert c[i].0 == DefaultCategories[i].0;
      assert c[i].0 in Names(c);
    }
  }

  /** After a run categories that existed are untouched, a created one has no uses, and
      the counter counts the defaults that were missing. */
  lemma SetupCategories(categories: map<string, Category>)
    ensures var cs := GetOrCreateAll(categories, CategoryRows());
      && (forall name :: name in categories ==> name in cs && cs[name] == categories[name])
      && (forall name :: name in cs && name !in categories ==> cs[name].usageCount == 0)
      && CreatedCount(categories, CategoryRows()) == |Names(CategoryRows()) - categories.Keys|
  {
    var c := CategoryRows();
    GetOrCreateAllProperties(categories, c);
    var cs := GetOrCreateAll(categories, c);
    forall name | name in cs && name !in categories
      ensures cs[name].usageCount == 0
    {
      var i :| 0 <= i < |c| && c[i] == (name, cs[name]);
      assert c[i].1.usageCount == 0;
    }
  }

  /** After a run every default tag exists. */
  lemma DefaultTagsPresent(tags: map<string, int>)
    ensures forall i :: 0 <= i < |DefaultTags| ==> DefaultTags[i] in GetOrCreateAll(tags, TagRows())
  {
    var t := TagRows();
    GetOrCreateAllKeys(tags, t);
    forall i | 0 <= i < |DefaultTags|
      ensures DefaultTags[i] in GetOrCreateAll(tags, t)
    {
      assert t[i].0 == DefaultTags[i];
      assert t[i].0 in Names(t);
    }
  }

  /** After a run tags that existed are untouched, a created one has no uses, and the
      counter counts the defaults that were missing. */
  lemma SetupTags(tags: map<string, int>)
    ensures var ts := GetOrCreateAll(tags, TagRows());
      && (forall name :: name in tags ==> name in ts && ts[name] == tags[name])
      && (forall name :: name in ts && name !in tags ==> ts[name] == 0)
      && CreatedCount(tags, TagRows()) == |Names(TagRows()) - tags.Keys|
  {
    var t := TagRows();
    GetOrCreateAllProperties(tags, t);
    var ts := GetOrCreateAll(tags, t);
    forall name | name in ts && name !in tags
      ensures ts[name] == 0
    {
      var i :| 0 <= i < |t| && t[i] == (name, ts[name]);
      assert t[i].1 == 0;
    }
  }

  /** A created category takes the colour listed for it: a missing default name holds
      `Category(color, 0)`. */
  lemma CreatedCategoryColor(categories: map<string, Category>, i: nat)
    requires i < |DefaultCategories| && DefaultCategories[i].0 !in categories
    ensures DefaultCategories[i].0 in GetOrCreateAll(categories, CategoryRows())
    ensures GetOrCreateAll(categories, CategoryRows())[DefaultCategories[i].0]
         == Category(DefaultCategories[i].1, 0)
  {
    DefaultRows();
    var c := CategoryRows();
    assert forall j :: 0 <= j < i ==> c[j].0 != c[i].0;
    GetOrCreateAllFirst(categories, c, i);
  }

  /** A second consecutive run creates no category and no tag and changes nothing. */
  lemma SetupTwice(categories: map<string, Category>, tags: map<string, int>)
    ensures var cs := GetOrCreateAll(categories, CategoryRows());
      GetOrCreateAll(cs, CategoryRows()) == cs && CreatedCount(cs, CategoryRows()) == 0
    ensures var ts := GetOrCreateAll(tags, TagRows());
      GetOrCreateAll(ts, TagRows()) == ts && CreatedCount(ts, TagRows()) == 0
  {
    GetOrCreateAllIdempotent(categories, CategoryRows());
    GetOrCreateAllIdempotent(tags, TagRows());
  }

  // ------------------------------------------------------ process_context_entries

  /** The `--limit` option's default. */
  const DefaultLimit: int := 50

  /** What slicing a query set with a negative bound raises. */
  const NegativeIndexing := "Negative indexing is not supported."

  /** How a run ends: the slice raised, nothing was selected, or `processed_count`. */
  datatype CommandResult =
    | Failed(message: string)
    | NothingToProcess
    | ProcessedEntries(count: nat)

  /** Positions of the entries with no `processed_at`, most recently created first (the
      table is kept in creation order, so that is from the end). */
  function UnprocessedNewestFirst(entries: seq<ContextEntry>): (r: seq<nat>)
    ensures forall k :: 0 <= k < |r| ==> r[k] < |entries| && entries[r[k]].processedAt.None?
    ensures forall i :: 0 <= i < |entries| && entries[i].processedAt.None? ==> i in r
    ensures forall j, k :: 0 <= j < k < |r| ==> r[j] > r[k]
    decreases |entries|
  {
    if entries == [] then []
    else
      var n := |entries| - 1;
      (if entries[n].processedAt.None? then [n] else []) + UnprocessedNewestFirst(entries[..n])
  }

  /** `ContextEntry.objects.filter(processed_at__isnull=True).order_by('-created_at')[:limit]`
      for a bound that is not negative. */
  function Selection(entries: seq<ContextEntry>, limit: nat): seq<nat> {
    var u := UnprocessedNewestFirst(entries);
    if limit < |u| then u[..limit] else u
  }

  /** The selection holds unprocessed entries only, newest first, at most `limit` of
      them, and fewer only when there are no more; an unprocessed entry left out is
      older than every one selected. */
  lemma SelectionProperties(entries: seq<ContextEntry>, limit: nat)
    requires EntriesInCreationOrder(entries)
    ensures var s := Selection(entries, limit);
      && |s| <= limit
      && (forall k :: 0 <= k < |s| ==> s[k] < |entries| && entries[s[k]].processedAt.None?)
      && (forall j, k :: 0 <= j < k < |s| ==> s[j] > s[k] && entries[s[j]].createdAt >= entries[s[k]].createdAt)
      && (|s| < limit ==> forall i :: 0 <= i < |entries| && entries[i].processedAt.None? ==> i in s)
      && (forall i, k :: 0 <= i < |entries| && entries[i].processedAt.None? && i !in s && 0 <= k < |s| ==>
            i < s[k] && entries[i].createdAt <= entries[s[k]].createdAt)
  {
    var u := UnprocessedNewestFirst(entries);
    var s := Selection(entries, limit);
    forall i, k | 0 <= i < |entries| && entries[i].processedAt.None? && i !in s && 0 <= k < |s|
      ensures i < s[k]
    {
      var m :| 0 <= m < |u| && u[m] == i;
      assert forall t :: 0 <= t < |s| ==> s[t] == u[t];
      assert m >= |s|;
    }
  }

  /** An entry once its analysis is stored: `processed_insights` and `processed_at`. */
  function ProcessedEntry(entry: ContextEntry, insights: Dict, now: Timestamp): (r: ContextEntry) {
    entry.(processedInsights := insights, processedAt := Some(now))
  }

  /** `analyses[k]` is the analysis of the k-th selected entry alone, with its own
      answers of the model. */
  predicate Analysed(entries: seq<ContextEntry>, selection: seq<nat>, analyses: seq<Outcome>,
                     attempts: seq<seq<Attempt>>, env: Env)
    requires |selection| <= |attempts|
    requires forall k :: 0 <= k < |selection| ==> selection[k] < |entries|
    requires forall k :: 0 <= k < |attempts| ==> |attempts[k]| >= MaxRetries
  {
    && |analyses| == |selection|
    && forall k {:trigger Analysis([entries[selection[k]]], ReplyOf(attempts[k]), env)} ::
         0 <= k < |selection| ==> analyses[k] == Analysis([entries[selection[k]]], ReplyOf(attempts[k]), env)
  }

  /** The analyses of a run, one per selected entry. */
  lemma AnalysedExists(entries: seq<ContextEntry>, selection: seq<nat>, attempts: seq<seq<Attempt>>, env: Env)
    returns (analyses: seq<Outcome>)
    requires |selection| <= |attempts|
    requires forall k :: 0 <= k < |selection| ==> selection[k] < |entries|
    requires forall k :: 0 <= k < |attempts| ==> |attempts[k]| >= MaxRetries
    ensures Analysed(entries, selection, analyses, attempts, env)
  {
    analyses := seq(|selection|, k requires 0 <= k < |selection| =>
      Analysis([entries[selection[k]]], ReplyOf(attempts[k]), env));
  }

  /** The table after the first `n` selected entries were handled: an entry whose save
      succeeded holds its analysis; one whose save raised is as it was. */
  function AfterProcessing(entries: seq<ContextEntry>, selection: seq<nat>, analyses: seq<Outcome>,
                           saveFails: seq<bool>, now: Timestamp, n: nat): (r: seq<ContextEntry>)
    requires n <= |selection| && n <= |analyses| && n <= |saveFails|
    requires forall k :: 0 <= k < |selection| ==> selection[k] < |entries|
    ensures |r| == |entries|
  {
    if n == 0 then entries
    else
      var r := AfterProcessing(entries, selection, analyses, saveFails, now, n - 1);
      var i := selection[n - 1];
      if saveFails[n - 1] then r else r[i := ProcessedEntry(entries[i], analyses[n - 1].result, now)]
  }

  /** `processed_count` after `n` entries: the saves that did not raise. */
  function SavedCount(saveFails: seq<bool>, n: nat): (c: nat)
    requires n <= |saveFails|
    ensures c <= n
  {
    if n == 0 then 0 else SavedCount(saveFails, n - 1) + if saveFails[n - 1] then 0 else 1
  }

  /** The log records of the first `n` analyses. */
  function AnalysisLogs(analyses: seq<Outcome>, n: nat): (r: seq<ProcessingLog>)
    requires n <= |analyses|
    ensures |r| <= n
  {
    if n == 0 then []
    else AnalysisLogs(analyses, n - 1) + match analyses[n - 1].log case Some(l) => [l] case None => []
  }

  /** One pass of the loop: the k-th selected entry, as read at the start, is analysed
      on its own and written back unless its save raises; the analysis's log record, if
      any, is returned. */
  method ProcessOne(store: Store, snapshot: seq<ContextEntry>, selection: seq<nat>, ghost analyses: seq<Outcome>,
                    attempts: seq<seq<Attempt>>, env: Env, now: Timestamp, saveFails: seq<bool>, k: nat)
    returns (saved: bool, record: seq<ProcessingLog>)
    requires k < |selection| <= |attempts| && |selection| <= |saveFails|
    requires forall j :: 0 <= j < |selection| ==> selection[j] < |snapshot|
    requires forall j :: 0 <= j < |attempts| ==> |attempts[j]| >= MaxRetries
    requires Analysed(snapshot, selection, analyses, attempts, env)
    requires |store.entries| == |snapshot|
    modifies store`entries
    ensures saved == !saveFails[k]
    ensures store.entries == if saveFails[k] then old(store.entries)
      else old(store.entries)[selection[k] := ProcessedEntry(snapshot[selection[k]], analyses[k].result, now)]
    ensures record == match analyses[k].log case Some(l) => [l] case None => []
  {
    var entry := snapshot[selection[k]];
    assert analyses[k] == Analysis([entry], ReplyOf(attempts[k]), env);
    var insights, log := AnalyzeContext([entry], attempts[k], env);
    record := match log case Some(l) => [l] case None => [];
    saved := !saveFails[k];
    if saved {
      store.entries := store.entries[selection[k] := ProcessedEntry(entry, insights, now)];
    }
  }

  /** `process_context_entries`. The query set is read once; each selected entry is
      analysed on its own and written back unless its save raises, which is reported
      and skipped. `attempts[k]` are the model's answers for the k-th selected entry
      and `saveFails[k]` says whether its save raises; `analyses` are the analyses. */
  method ProcessContextEntries(store: Store, limit: int, attempts: seq<seq<Attempt>>, env: Env, now: Timestamp,
                               saveFails: seq<bool>)
    returns (result: CommandResult, logs: seq<ProcessingLog>, ghost analyses: seq<Outcome>)
    requires forall k :: 0 <= k < |attempts| ==> |attempts[k]| >= MaxRetries
    requires limit >= 0 ==> |Selection(store.entries, limit)| <= |attempts|
    requires limit >= 0 ==> |Selection(store.entries, limit)| <= |saveFails|
    modifies store`entries
    ensures limit < 0 ==> result == Failed(NegativeIndexing) && store.entries == old(store.entries) && logs == []
    ensures limit >= 0 && Selection(old(store.entries), limit) == [] ==>
      result == NothingToProcess && store.entries == old(store.entries) && logs == []
    ensures limit >= 0 && Selection(old(store.entries), limit) != [] ==>
      var selection := Selection(old(store.entries), limit);
      && Analysed(old(store.entries), selection, analyses, attempts, env)
      && store.entries == AfterProcessing(old(store.entries), selection, analyses, saveFails, now, |selection|)
      && result == ProcessedEntries(SavedCount(saveFails, |selection|))
      && logs == AnalysisLogs(analyses, |selection|)
  {
    if limit < 0 {
      return Failed(NegativeIndexing), [], [];
    }
    var snapshot := store.entries;
    var selection := Selection(snapshot, limit);
    if selection == [] {
      return NothingToProcess, [], [];
    }
    analyses := AnalysedExists(snapshot, selection, attempts, env);
    var count := 0;
    logs := [];
    for k := 0 to |selection|
      invariant store.entries == AfterProcessing(snapshot, selection, analyses, saveFails, now, k)
      invariant count == SavedCount(saveFails, k)
      invariant logs == AnalysisLogs(analyses, k)
    {
      var saved, record := ProcessOne(store, snapshot, selection, analyses, attempts, env, now, saveFails, k);
      logs := logs + record;
      if saved {
        count := count + 1;
      }
    }
    result := ProcessedEntries(count);
  }

  /** After a run, an entry selected at position k whose save succeeded holds the
      analysis of that entry and is marked processed now; every other entry, selected
      or not, is as it was; no entry changes anything but those two fields. */
  lemma {:induction false} AfterProcessingAt(entries: seq<ContextEntry>, selection: seq<nat>, analyses: seq<Outcome>,
                                             saveFails: seq<bool>, now: Timestamp, n: nat)
    requires n <= |selection| && n <= |analyses| && n <= |saveFails|
    requires forall k :: 0 <= k < |selection| ==> selection[k] < |entries|
    requires forall j, k :: 0 <= j < k < |selection| ==> selection[j] != selection[k]
    ensures var r := AfterProcessing(entries, selection, analyses, saveFails, now, n);
      && (forall k :: 0 <= k < n && !saveFails[k] ==>
            r[selection[k]] == ProcessedEntry(entries[selection[k]], analyses[k].result, now))
      && (forall k :: 0 <= k < n && saveFails[k] ==> r[selection[k]] == entries[selection[k]])
      && (forall i :: 0 <= i < |entries| && (forall k :: 0 <= k < n ==> selection[k] != i) ==> r[i] == entries[i])
    decreases n
  {
    if n > 0 {
      AfterProcessingAt(entries, selection, analyses, saveFails, now, n - 1);
    }
  }

  /** Each entry whose save succeeded ends with its analysis and a `processed_at`; the
      count is the number of successes, never more than the selection; a failure is
      skipped and the later entries are still handled; and the table stays in creation
      order. */
  lemma ProcessingProperties(entries: seq<ContextEntry>, limit: nat, analyses: seq<Outcome>,
                             attempts: seq<seq<Attempt>>, env: Env, saveFails: seq<bool>, now: Timestamp)
    requires EntriesInCreationOrder(entries)
    requires forall k :: 0 <= k < |attempts| ==> |attempts[k]| >= MaxRetries
    requires |Selection(entries, limit)| <= |attempts| && |Selection(entries, limit)| <= |saveFails|
    requires Analysed(entries, Selection(entries, limit), analyses, attempts, env)
    ensures var s := Selection(entries, limit);
      var r := AfterProcessing(entries, s, analyses, saveFails, now, |s|);
      && (forall k :: 0 <= k < |s| && !saveFails[k] ==>
            && r[s[k]].processedAt == Some(now)
            && r[s[k]].processedInsights == Analysis([entries[s[k]]], ReplyOf(attempts[k]), env).result)
      && (forall k :: 0 <= k < |s| && saveFails[k] ==> r[s[k]] == entries[s[k]])
      && SavedCount(saveFails, |s|) <= |s|
      && EntriesInCreationOrder(r)
  {
    var s := Selection(entries, limit);
    SelectionProperties(entries, limit);
    AfterProcessingAt(entries, s, analyses, saveFails, now, |s|);
    var r := AfterProcessing(entries, s, analyses, saveFails, now, |s|);
    SameCreation(entries, s, analyses, saveFails, now, |s|);
    forall k | 0 <= k < |s| && !saveFails[k]
      ensures r[s[k]].processedInsights == Analysis([entries[s[k]]], ReplyOf(attempts[k]), env).result
    {
      assert analyses[k] == Analysis([entries[s[k]]], ReplyOf(attempts[k]), env);
    }
  }

  /** Processing never changes `created_at`. */
  lemma {:induction false} SameCreation(entries: seq<ContextEntry>, selection: seq<nat>, analyses: seq<Outcome>,
                                        saveFails: seq<bool>, now: Timestamp, n: nat)
    requires n <= |selection| && n <= |analyses| && n <= |saveFails|
    requires forall k :: 0 <= k < |selection| ==> selection[k] < |entries|
    ensures var r := AfterProcessing(entries, selection, analyses, saveFails, now, n);
      forall i :: 0 <= i < |entries| ==> r[i].createdAt == entries[i].createdAt
    decreases n
  {
    if n > 0 {
      SameCreation(entries, selection, analyses, saveFails, now, n - 1);
    }
  }

  /** The positions among the first `n` whose save did not raise. */
  function Saved(saveFails: seq<bool>, n: nat): set<nat>
    requires n <= |saveFails|
  {
    set k: nat | k < n && !saveFails[k]
  }

  /** One more position adds itself to the successes exactly when its save did not raise. */
  lemma SavedSnoc(saveFails: seq<bool>, n: nat)
    requires 0 < n <= |saveFails|
    ensures saveFails[n - 1] ==> Saved(saveFails, n) == Saved(saveFails, n - 1)
    ensures !saveFails[n - 1] ==> Saved(saveFails, n) == Saved(saveFails, n - 1) + {n - 1}
  {
  }

  /** `processed_count` is the number of entries whose save did not raise. */
  lemma {:induction false} SavedCountCounts(saveFails: seq<bool>, n: nat)
    requires n <= |saveFails|
    ensures SavedCount(saveFails, n) == |Saved(saveFails, n)|
    decreases n
  {
    if n > 0 {
      SavedCountCounts(saveFails, n - 1);
      SavedSnoc(saveFails, n);
      assert n - 1 !in Saved(saveFails, n - 1);
    }
  }

  /** Every selected entry is analysed and logged, whether or not its save raises. */
  lemma {:induction false} OneLogPerEntry(entries: seq<ContextEntry>, selection: seq<nat>, analyses: seq<Outcome>,
                                          attempts: seq<seq<Attempt>>, env: Env, n: nat)
    requires |selection| <= |attempts|
    requires forall k :: 0 <= k < |selection| ==> selection[k] < |entries|
    requires forall k :: 0 <= k < |attempts| ==> |attempts[k]| >= MaxRetries
    requires Analysed(entries, selection, analyses, attempts, env)
    requires n <= |selection|
    ensures |AnalysisLogs(analyses, n)| == n
    ensures forall k :: 0 <= k < n ==> AnalysisLogs(analyses, n)[k].processingType == ContextAnalysis
    decreases n
  {
    if n > 0 {
      OneLogPerEntry(entries, selection, analyses, attempts, env, n - 1);
      assert analyses[n - 1] == Analysis([entries[selection[n - 1]]], ReplyOf(attempts[n - 1]), env);
    }
  }
}
