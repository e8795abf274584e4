/** What `AITaskManager` does with a model reply before using it: pull a JSON object out
    of a possibly messy reply, clamp the priority score, fill the required fields with
    defaults; and `_get_safe_category_name`. `json.loads` is an oracle `parse` that
    gives `None` where it raises `JSONDecodeError`. */
module ResponseHandling {
  import opened JsonValues

  /** `s.find(c)`: the first position holding `c`, or -1. */
  function FindFirst(s: string, c: char): (r: int)
    ensures -1 <= r < |s|
    ensures r == -1 <==> c !in s
    ensures r >= 0 ==> s[r] == c
    ensures forall k :: 0 <= k < |s| && s[k] == c ==> 0 <= r <= k
  {
    if s == [] then -1
    else if s[0] == c then 0
    else
      var r := FindFirst(s[1..], c);
      assert forall k :: 1 <= k < |s| ==> s[k] == s[1..][k - 1];
      if r == -1 then -1 else r + 1
  }

  /** `s.rfind(c)`: the last position holding `c`, or -1. */
  function FindLast(s: string, c: char): (r: int)
    ensures -1 <= r < |s|
    ensures r == -1 <==> c !in s
    ensures r >= 0 ==> s[r] == c
    ensures forall k :: 0 <= k < |s| && s[k] == c ==> r >= k
  {
    if s == [] then -1
    else if s[|s| - 1] == c then |s| - 1
    else
      var r := FindLast(s[..|s| - 1], c);
      assert forall k :: 0 <= k < |s| - 1 ==> s[k] == s[..|s| - 1][k];
      assert s == s[..|s| - 1] + [s[|s| - 1]];
      r
  }

  /** The substring `_extract_json_from_response` falls back to: from the first `{`
      through the last `}`, when both exist and the `}` comes after the `{`. */
  function Candidate(s: string): (r: Option<string>)
    ensures r.Some? <==> exists i, j :: 0 <= i < j < |s| && s[i] == '{' && s[j] == '}'
    ensures r.Some? ==>
      var first := FindFirst(s, '{');
      var last := FindLast(s, '}');
      && 0 <= first < last < |s|
      && r.value == s[first..last + 1]
      && (forall k :: 0 <= k < first ==> s[k] != '{')
      && (forall k :: last < k < |s| ==> s[k] != '}')
  {
    var start := FindFirst(s, '{');
    var end := FindLast(s, '}') + 1;
    if start != -1 && end > start then Some(s[start..end]) else None
  }

  /** The dict returned when nothing parses. */
  function ParseFailure(response: string): Dict {
    map["error" := JStr("Failed to parse JSON response"), "raw_response" := JStr(response)]
  }

  /** `_extract_json_from_response`: an empty reply gives the "Empty response" dict; a
      reply that parses as a whole is used as it is; otherwise the `{`..`}` candidate is
      parsed; when there is none, or it does not parse, the "Failed to parse" dict. */
  function ExtractJson(response: string, parse: string -> Option<Json>): (r: Json)
    ensures response == "" ==> r == JObj(map["error" := JStr("Empty response"), "raw_response" := JStr("")])
    ensures response != "" && parse(response).Some? ==> r == parse(response).value
    ensures response != "" && parse(response).None? ==>
      r == (match Candidate(response)
            case Some(c) => if parse(c).Some? then parse(c).value else JObj(ParseFailure(response))
            case None => JObj(ParseFailure(response)))
  {
    if response == "" then
      JObj(map["error" := JStr("Empty response"), "raw_response" := JStr(response)])
    else match parse(response)
      case Some(j) => j
      case None =>
        match Candidate(response)
        case Some(c) => (match parse(c) case Some(j) => j case None => JObj(ParseFailure(response)))
        case None => JObj(ParseFailure(response))
  }

  /** A table of required fields and their defaults, in the order the source lists
      them; a dict literal, so no key appears twice. */
  type Defaults = seq<(string, Json)>

  predicate DistinctKeys(defaults: Defaults) {
    forall i, j :: 0 <= i < j < |defaults| ==> defaults[i].0 != defaults[j].0
  }

  function KeysOf(defaults: Defaults): set<string> {
    set i | 0 <= i < |defaults| :: defaults[i].0
  }

  /** A key needs its default when it is missing or holds `None`. */
  predicate Missing(d: Dict, key: string) {
    key !in d || d[key] == JNull
  }

  /** One step of the loop: `if field not in result or result[field] is None: result[field] = default`. */
  function FillOne(d: Dict, field: string, default: Json): Dict {
    if Missing(d, field) then d[field := default] else d
  }

  /** The dict after the loop has run over all of `defaults`, in order. */
  function Filled(d: Dict, defaults: Defaults): Dict
    decreases |defaults|
  {
    if defaults == [] then d
    else
      var last := defaults[|defaults| - 1];
      FillOne(Filled(d, defaults[..|defaults| - 1]), last.0, last.1)
  }

  /** The default-filling loop, updating the dict in place. */
  method FillDefaults(result: Dict, defaults: Defaults) returns (filled: Dict)
    ensures filled == Filled(result, defaults)
  {
    filled := result;
    for i := 0 to |defaults|
      invariant filled == Filled(result, defaults[..i])
    {
      var (field, default) := defaults[i];
      if field !in filled || filled[field] == JNull {
        filled := filled[field := default];
      }
      assert defaults[..i + 1][..i] == defaults[..i];
    }
    assert defaults[..|defaults|] == defaults;
  }

  /** The keys of all entries but the last, and the last one's. */
  lemma KeysOfSnoc(defaults: Defaults)
    requires defaults != []
    ensures KeysOf(defaults) == KeysOf(defaults[..|defaults| - 1]) + {defaults[|defaults| - 1].0}
  {
    var init := defaults[..|defaults| - 1];
    assert forall i :: 0 <= i < |init| ==> init[i] == defaults[i];
    assert forall i :: 0 <= i < |defaults| - 1 ==> defaults[i].0 in KeysOf(init);
  }

  /** Filling adds exactly the required keys. */
  lemma {:induction false} FilledKeys(d: Dict, defaults: Defaults)
    ensures Filled(d, defaults).Keys == d.Keys + KeysOf(defaults)
    decreases |defaults|
  {
    if defaults != [] {
      FilledKeys(d, defaults[..|defaults| - 1]);
      KeysOfSnoc(defaults);
    }
  }

  /** Keys outside the table are untouched. */
  lemma {:induction false} FilledOutside(d: Dict, defaults: Defaults)
    ensures forall k :: k in d && k !in KeysOf(defaults) ==> k in Filled(d, defaults) && Filled(d, defaults)[k] == d[k]
    decreases |defaults|
  {
    if defaults != [] {
      FilledOutside(d, defaults[..|defaults| - 1]);
      KeysOfSnoc(defaults);
    }
  }

  /** A required key that was missing or `None` holds its default; one that held a
      value keeps it. */
  lemma {:induction false} FilledDefaultAt(d: Dict, defaults: Defaults)
    requires DistinctKeys(defaults)
    ensures forall i :: 0 <= i < |defaults| ==>
      && defaults[i].0 in Filled(d, defaults)
      && Filled(d, defaults)[defaults[i].0] == if Missing(d, defaults[i].0) then defaults[i].1 else d[defaults[i].0]
    decreases |defaults|
  {
    if defaults != [] {
      var n := |defaults| - 1;
      var init := defaults[..n];
      assert forall i :: 0 <= i < n ==> init[i] == defaults[i];
      FilledDefaultAt(d, init);
      FilledKeys(d, init);
      FilledOutside(d, init);
      assert defaults[n].0 !in KeysOf(init);
    }
  }

  /** After filling: the keys are the old ones plus the required ones; a required key
      that was missing or `None` holds its default, one that held a value keeps it; and
      keys outside the table are untouched. */
  lemma FilledAt(d: Dict, defaults: Defaults)
    requires DistinctKeys(defaults)
    ensures Filled(d, defaults).Keys == d.Keys + KeysOf(defaults)
    ensures forall i :: 0 <= i < |defaults| ==>
      Filled(d, defaults)[defaults[i].0] == if Missing(d, defaults[i].0) then defaults[i].1 else d[defaults[i].0]
    ensures forall k :: k in d && k !in KeysOf(defaults) ==> Filled(d, defaults)[k] == d[k]
  {
    FilledKeys(d, defaults);
    FilledOutside(d, defaults);
    FilledDefaultAt(d, defaults);
  }

  /** Every required key is present afterwards, and non-null whenever its default is. */
  lemma RequiredPresent(d: Dict, defaults: Defaults)
    requires DistinctKeys(defaults)
    ensures forall i :: 0 <= i < |defaults| ==> defaults[i].0 in Filled(d, defaults)
    ensures forall i :: 0 <= i < |defaults| && defaults[i].1 != JNull ==> !Missing(Filled(d, defaults), defaults[i].0)
  {
    FilledAt(d, defaults);
    assert forall i :: 0 <= i < |defaults| ==> defaults[i].0 in KeysOf(defaults);
  }

  /** Filling never drops a key, and never changes a key that already holds a value. */
  lemma FilledKeepsValues(d: Dict, defaults: Defaults)
    requires DistinctKeys(defaults)
    ensures d.Keys <= Filled(d, defaults).Keys
    ensures forall k :: k in d && d[k] != JNull ==> Filled(d, defaults)[k] == d[k]
  {
    FilledAt(d, defaults);
    forall k | k in d && d[k] != JNull
      ensures Filled(d, defaults)[k] == d[k]
    {
      if k in KeysOf(defaults) {
        var i :| 0 <= i < |defaults| && defaults[i].0 == k;
      }
    }
  }

  /** Filling twice is filling once. */
  lemma FilledIdempotent(d: Dict, defaults: Defaults)
    requires DistinctKeys(defaults)
    ensures Filled(Filled(d, defaults), defaults) == Filled(d, defaults)
  {
    var once := Filled(d, defaults);
    FilledAt(d, defaults);
    FilledAt(once, defaults);
    var twice := Filled(once, defaults);
    forall k | k in once
      ensures twice[k] == once[k]
    {
      if k in KeysOf(defaults) {
        var i :| 0 <= i < |defaults| && defaults[i].0 == k;
        assert twice[k] == if Missing(once, k) then defaults[i].1 else once[k];
        assert once[k] == if Missing(d, k) then defaults[i].1 else d[k];
      }
    }
  }

  /** Clamp into [0,1]: `max(0.0, min(1.0, x))`. */
  function Clamp01(x: real): (r: real)
    ensures 0.0 <= r <= 1.0
    ensures 0.0 <= x <= 1.0 ==> r == x
    ensures x < 0.0 ==> r == 0.0
    ensures x > 1.0 ==> r == 1.0
  {
    if x < 0.0 then 0.0 else if x > 1.0 then 1.0 else x
  }

  /** The stored `priority_score` for `raw = result.get('priority_score', 0.5)`: numbers
      are clamped into [0,1]; a bool counts as the number 1 or 0 (Python's bool is an
      int); anything else becomes 0.5. */
  function NormalizeScore(raw: Json): (r: real)
    ensures 0.0 <= r <= 1.0
    ensures raw.JNum? ==> r == Clamp01(raw.x)
    ensures raw.JBool? ==> r == (if raw.b then 1.0 else 0.0)
    ensures !raw.JNum? && !raw.JBool? ==> r == 0.5
  {
    match raw
    case JNum(x) => Clamp01(x)
    case JBool(b) => if b then 1.0 else 0.0
    case _ => 0.5
  }

  /** What a task's `category` attribute can be. */
  datatype CategoryValue =
    | NoCategory
    | CategoryString(s: string)
      /** an object; `name` is `str(category.name)` when it has that attribute */
    | CategoryObject(name: Option<string>)
      /** a dict; `name` is `str(category['name'])` when it has that key */
    | CategoryDict(name: Option<string>)
      /** anything else (a number, a list) */
    | CategoryOther

  const Uncategorized := "uncategorized"

  /** `_get_safe_category_name`: the category's own name where it carries one, and
      "uncategorized" for `None`, for a nameless object or dict, and for anything else. */
  function SafeCategoryName(c: CategoryValue): (r: string)
    ensures c.CategoryString? ==> r == c.s
    ensures (c.CategoryObject? || c.CategoryDict?) && c.name.Some? ==> r == c.name.value
    ensures c.NoCategory? || c.CategoryOther? || ((c.CategoryObject? || c.CategoryDict?) && c.name.None?)
            ==> r == Uncategorized
  {
    match c
    case NoCategory => Uncategorized
    case CategoryString(s) => s
    case CategoryObject(Some(n)) => n
    case CategoryDict(Some(n)) => n
    case _ => Uncategorized
  }
}
