/** The autocomplete functions the plugin offers for its action parameters:
    listings of Google Cloud resources, page by page, narrowed down to the
    words the user typed. The provider's listing calls are not modelled:
    their replies are parameters, and each run records the requests it made. */
module Autocomplete {
  import opened Wrappers
  import opened Strings
  import opened Values
  import opened Sorting
  import Parsers

  /** One filtering returns at most this many items. */
  const MaxResults: nat := 10

  /** One autocomplete entry: `id` is what the action receives, `value` is
      what the user sees. */
  datatype AutoItem = AutoItem(id: Json, value: Json)

  /** A list of entries as JavaScript holds it: `None` is a hole of the
      listed array (or the `undefined` that spreading such a hole gives). */
  type Items = seq<Option<AutoItem>>

  // ---------------------------------------------------------------------------
  // Parameters
  // ---------------------------------------------------------------------------

  /** One `{name, value}` entry of the plugin settings or the action parameters. */
  datatype AutoParam = AutoParam(name: Json, value: Json)

  /** One entry as forEach hands it over: reading `param.name` of undefined
      or null throws; an entry that is not an object has neither field. */
  function ReadAutoParam(v: Json): (r: Result<AutoParam, Json>)
    ensures r.Err? <==> v.Undef? || v.Null?
    ensures r.Err? ==> r.error == ReadError(v, "name")
    ensures v.Obj? ==> r == Ok(AutoParam(Get(v.fields, "name"), Get(v.fields, "value")))
    ensures r.Ok? && !v.Obj? ==> r.value == AutoParam(Undef, Undef)
  {
    match v
    case Undef => Err(ReadError(v, "name"))
    case Null => Err(ReadError(v, "name"))
    case Obj(m) => Ok(AutoParam(Get(m, "name"), Get(m, "value")))
    case _ => Ok(AutoParam(Undef, Undef))
  }

  /** The entries forEach visits, read in order: holes are skipped, and the
      first undefined or null entry throws. */
  function ReadEntries(items: seq<Option<Json>>): (r: Result<seq<AutoParam>, Json>)
    ensures r.Err? <==> exists i :: 0 <= i < |items| && items[i].Some? && (items[i].value.Undef? || items[i].value.Null?)
    ensures r.Ok? ==> |r.value| <= |items|
    decreases |items|
  {
    if items == [] then Ok([])
    else
      var rest := ReadEntries(items[1..]);
      assert forall i :: 1 <= i < |items| ==> items[i] == items[1..][i - 1];
      if items[0].None? then rest
      else
        match ReadAutoParam(items[0].value)
        case Err(e) => Err(e)
        case Ok(param) => if rest.Err? then rest else Ok([param] + rest.value)
  }

  /** What `mapAutoParams(autoParams)` reads before assigning: `forEach`
      needs an array. */
  function ReadAutoParams(autoParams: Json): (r: Result<seq<AutoParam>, Json>)
    ensures !autoParams.Arr? ==> r == Err(NoMethod(autoParams, "autoParams", "forEach"))
    ensures autoParams.Arr? ==> r == ReadEntries(autoParams.items)
  {
    if autoParams.Arr? then ReadEntries(autoParams.items)
    else Err(NoMethod(autoParams, "autoParams", "forEach"))
  }

  /** The `{name, value}` objects the entries stand for. */
  function Entries(ps: seq<AutoParam>): seq<Option<Json>> {
    seq(|ps|, i requires 0 <= i < |ps| => Some(Obj(map["name" := ps[i].name, "value" := ps[i].value])))
  }

  /** Reading `{name, value}` objects gives the entries back, in order. */
  lemma {:induction false} ReadEntriesOfEntries(ps: seq<AutoParam>)
    ensures ReadEntries(Entries(ps)) == Ok(ps)
    decreases |ps|
  {
    if ps != [] {
      var items := Entries(ps);
      assert items[1..] == Entries(ps[1..]);
      ReadEntriesOfEntries(ps[1..]);
      assert items[0].value.Obj?;
      assert "name" in items[0].value.fields && "value" in items[0].value.fields;
      assert ReadAutoParam(items[0].value) == Ok(ps[0]);
      assert ps == [ps[0]] + ps[1..];
    }
  }

  /** What one entry contributes: `parsers.autocomplete(value)`, undefined
      standing for nothing. */
  function ParamValue(p: AutoParam): (r: Json)
    ensures !Truthy(p.value) ==> r == Undef
    ensures p.value.Str? && p.value.s != "" ==> r == p.value
  {
    match Parsers.Autocomplete(p.value, Undef)
    case None => Undef
    case Some(v) => v
  }

  /** The object mapAutoParams builds: the entries assigned left to right,
      each under the string form of its name. */
  function AutoParams(ps: seq<AutoParam>): map<string, Json>
  {
    if ps == [] then map[]
    else AutoParams(ps[..|ps| - 1])[ToJsString(ps[|ps| - 1].name) := ParamValue(ps[|ps| - 1])]
  }

  /** mapAutoParams: one assignment per entry, in order. */
  method MapAutoParams(ps: seq<AutoParam>) returns (params: map<string, Json>)
    ensures params == AutoParams(ps)
  {
    params := map[];
    var i := 0;
    while i < |ps|
      invariant 0 <= i <= |ps|
      invariant params == AutoParams(ps[..i])
    {
      assert ps[..i + 1][..i] == ps[..i];
      params := params[ToJsString(ps[i].name) := ParamValue(ps[i])];
      i := i + 1;
    }
    assert ps[..|ps|] == ps;
  }

  /** Every entry's name becomes a key, and nothing else does. */
  lemma {:induction false} AutoParamsKeys(ps: seq<AutoParam>)
    ensures AutoParams(ps).Keys == set j | 0 <= j < |ps| :: ToJsString(ps[j].name)
    decreases |ps|
  {
    if ps != [] {
      var init := ps[..|ps| - 1];
      AutoParamsKeys(init);
      forall k | k in AutoParams(ps).Keys
        ensures exists j :: 0 <= j < |ps| && ToJsString(ps[j].name) == k
      {
        if k != ToJsString(ps[|ps| - 1].name) {
          var j :| 0 <= j < |init| && ToJsString(init[j].name) == k;
          assert ps[j] == init[j];
        }
      }
      forall j | 0 <= j < |ps|
        ensures ToJsString(ps[j].name) in AutoParams(ps)
      {
        if j < |init| {
          assert ps[j] == init[j];
        }
      }
    }
  }

  /** When an entry is the last one with its name, its value is the one kept:
      a later duplicate overrides an earlier one. */
  lemma {:induction false} AutoParamsLastWins(ps: seq<AutoParam>, i: nat)
    requires i < |ps|
    requires forall j :: i < j < |ps| ==> ToJsString(ps[j].name) != ToJsString(ps[i].name)
    ensures ToJsString(ps[i].name) in AutoParams(ps)
    ensures AutoParams(ps)[ToJsString(ps[i].name)] == ParamValue(ps[i])
    decreases |ps|
  {
    if i < |ps| - 1 {
      var init := ps[..|ps| - 1];
      assert init[i] == ps[i];
      forall j | i < j < |init|
        ensures ToJsString(init[j].name) != ToJsString(init[i].name)
      {
        assert init[j] == ps[j];
      }
      AutoParamsLastWins(init, i);
    }
  }

  // ---------------------------------------------------------------------------
  // Reading listed elements
  // ---------------------------------------------------------------------------

  /** getAutoResult: each of `id` and `value` falls back on the other when falsy. */
  function GetAutoResult(id: Json, value: Json): (r: AutoItem)
    ensures Truthy(id) ==> r.id == id
    ensures !Truthy(id) ==> r.id == value
    ensures Truthy(value) ==> r.value == value
    ensures !Truthy(value) ==> r.value == id
    ensures Truthy(r.id) <==> Truthy(id) || Truthy(value)
    ensures Truthy(r.value) <==> Truthy(id) || Truthy(value)
  {
    AutoItem(OrElse(id, value), OrElse(value, id))
  }

  /** The fields a listing reads, `["id", "name"]` unless it names its own. */
  function ResolvedFields(fields: Option<seq<string>>): (r: seq<string>)
    ensures fields.Some? ==> r == fields.value
    ensures fields.None? ==> r == ["id", "name"]
  {
    match fields
    case None => ["id", "name"]
    case Some(f) => f
  }

  /** `getParseFromParam(...fields)` applied to one listed element: the first
      field gives the id; a second, non-empty field gives the value, which
      otherwise falls back on the id. Undefined and null have no fields. */
  function ParseItem(fields: seq<string>, element: Json): (r: Result<AutoItem, Json>)
    ensures r.Err? <==> element.Undef? || element.Null?
    ensures element.Obj? && |fields| >= 2 && fields[1] != "" ==>
              r == Ok(GetAutoResult(Get(element.fields, fields[0]), Get(element.fields, fields[1])))
    ensures element.Obj? && |fields| == 1 ==>
              r == Ok(GetAutoResult(Get(element.fields, fields[0]), Undef))
  {
    var idName := if |fields| == 0 then "undefined" else fields[0];
    var valName := if |fields| < 2 then "" else fields[1];
    match Property(element, idName)
    case Err(e) => Err(e)
    case Ok(id) =>
      if valName == "" then Ok(GetAutoResult(id, Undef))
      else Ok(GetAutoResult(id, Property(element, valName).value))
  }

  /** `result.map(parse)`: holes stay holes, and the first element that
      cannot be read throws. */
  function ParseAll(fields: seq<string>, elements: seq<Option<Json>>): (r: Result<Items, Json>)
    ensures r.Ok? ==> |r.value| == |elements|
    ensures r.Ok? ==> forall i :: 0 <= i < |elements| ==>
                        (r.value[i].None? <==> elements[i].None?)
    ensures r.Ok? ==> forall i :: 0 <= i < |elements| && elements[i].Some? ==>
                        ParseItem(fields, elements[i].value) == Ok(r.value[i].value)
    ensures r.Err? <==> exists i :: 0 <= i < |elements| && elements[i].Some? && ParseItem(fields, elements[i].value).Err?
    decreases |elements|
  {
    if elements == [] then Ok([])
    else
      var rest := ParseAll(fields, elements[1..]);
      if elements[0].None? then
        if rest.Err? then rest else Ok([None] + rest.value)
      else
        match ParseItem(fields, elements[0].value)
        case Err(e) => Err(e)
        case Ok(item) => if rest.Err? then rest else Ok([Some(item)] + rest.value)
  }

  /** `v.toLowerCase()`, which only strings have. */
  function LowerText(v: Json, expr: string): (r: Result<string, Json>)
    ensures r.Ok? <==> v.Str?
    ensures v.Str? ==> r.value == Lower(v.s)
  {
    if v.Str? then Ok(Lower(v.s)) else Err(NoMethod(v, expr, "toLowerCase"))
  }

  // ---------------------------------------------------------------------------
  // filterItems
  // ---------------------------------------------------------------------------

  /** The query split at dots and spaces, each word in lower case. */
  function QueryWords(query: string): (r: seq<string>)
    ensures |r| >= 1
    ensures |r| == |Split(query, {'.', ' '})|
    ensures forall i :: 0 <= i < |r| ==> r[i] == Lower(Split(query, {'.', ' '})[i])
  {
    var parts := Split(query, {'.', ' '});
    seq(|parts|, i requires 0 <= i < |parts| => Lower(parts[i]))
  }

  predicate HasWords(text: string, words: seq<string>) {
    forall j :: 0 <= j < |words| ==> Contains(text, words[j])
  }

  /** The entry is present, its value is a string, and that string in lower
      case contains every word. */
  predicate Matches(item: Option<AutoItem>, words: seq<string>) {
    item.Some? && item.value.value.Str? && HasWords(Lower(item.value.value.s), words)
  }

  predicate AllMatch(items: Items, words: seq<string>) {
    forall i :: 0 <= i < |items| ==> Matches(items[i], words)
  }

  /** A present entry whose value is not a string: `toLowerCase` throws on it. */
  predicate Unreadable(item: Option<AutoItem>) {
    item.Some? && !item.value.value.Str?
  }

  /** `items.filter(...)` keeping the entries whose value contains every word:
      holes are skipped, and the first entry with a value that is not a
      string throws. */
  function Matching(items: Items, words: seq<string>): (r: Result<Items, Json>)
    requires |words| >= 1
    ensures r.Err? <==> exists i :: 0 <= i < |items| && Unreadable(items[i])
    ensures r.Ok? ==> AllMatch(r.value, words)
    ensures r.Ok? ==> forall x :: x in items && Matches(x, words) ==> x in r.value
    ensures r.Ok? ==> multiset(r.value) <= multiset(items)
    decreases |items|
  {
    if items == [] then Ok([])
    else
      assert items == [items[0]] + items[1..];
      var rest := Matching(items[1..], words);
      if items[0].None? then rest
      else
        match LowerText(items[0].value.value, "item.value")
        case Err(e) => Err(e)
        case Ok(text) =>
          if rest.Err? then rest
          else if HasWords(text, words) then Ok([items[0]] + rest.value)
          else rest
  }

  /** Each matching entry is kept as often as it occurs. */
  lemma {:induction false} MatchingCounts(items: Items, words: seq<string>)
    requires |words| >= 1 && Matching(items, words).Ok?
    ensures forall x :: Matches(x, words) ==> multiset(Matching(items, words).value)[x] == multiset(items)[x]
    decreases |items|
  {
    if items != [] {
      assert items == [items[0]] + items[1..];
      MatchingCounts(items[1..], words);
    }
  }

  /** The matching entries of `items`, in input order: the reference the
      filter is compared with. */
  function Kept(items: Items, words: seq<string>): seq<Option<AutoItem>>
    decreases |items|
  {
    if items == [] then []
    else (if Matches(items[0], words) then [items[0]] else []) + Kept(items[1..], words)
  }

  /** When it does not throw, the filter returns exactly the matching
      entries, in input order. */
  lemma {:induction false} MatchingIsKept(items: Items, words: seq<string>)
    requires |words| >= 1 && Matching(items, words).Ok?
    ensures Matching(items, words).value == Kept(items, words)
    decreases |items|
  {
    if items != [] {
      assert !Unreadable(items[0]);
      MatchingIsKept(items[1..], words);
    }
  }

  /** Keeping distributes over concatenation. */
  lemma {:induction false} KeptAppend(a: Items, b: Items, words: seq<string>)
    ensures Kept(a + b, words) == Kept(a, words) + Kept(b, words)
    decreases |a|
  {
    if a == [] {
      assert a + b == b;
    } else {
      var head := if Matches(a[0], words) then [a[0]] else [];
      assert (a + b)[0] == a[0] && (a + b)[1..] == a[1..] + b;
      assert Kept(a + b, words) == head + Kept(a[1..] + b, words);
      assert Kept(a, words) == head + Kept(a[1..], words);
      KeptAppend(a[1..], b, words);
      assert head + (Kept(a[1..], words) + Kept(b, words)) == (head + Kept(a[1..], words)) + Kept(b, words);
    }
  }

  /** Where the first query word starts in the entry's lower-case value; -1
      for an entry the filter never keeps. */
  function Rank(item: Option<AutoItem>, word: string): int {
    if item.Some? && item.value.value.Str? then IndexOf(Lower(item.value.value.s), word) else -1
  }

  /** The comparator of the sort: an earlier occurrence sorts first. */
  function ByRank(word: string): (Option<AutoItem>, Option<AutoItem>) -> bool {
    (a: Option<AutoItem>, b: Option<AutoItem>) => Rank(a, word) <= Rank(b, word)
  }

  lemma {:induction false} ByRankTotal(word: string)
    ensures TotalPreorder(ByRank(word))
  {
  }

  /** How many entries `splice(0, MaxResults)` takes out of `n`. */
  function Count(n: nat): (r: nat)
    ensures r <= n && r <= MaxResults
    ensures r == n || r == MaxResults
  {
    if n < MaxResults then n else MaxResults
  }

  /** filterItems: with a query, the entries containing every query word,
      ordered by where the first word occurs (a stable sort); without one,
      the entries in their order. Either way, at most the first ten. */
  function FilteredItems(items: Items, query: string): (r: Result<Items, Json>)
    ensures r.Ok? ==> |r.value| <= MaxResults
    ensures query == "" ==> r == Ok(items[..Count(|items|)])
    ensures query != "" ==> (r.Err? <==> exists i :: 0 <= i < |items| && Unreadable(items[i]))
  {
    if query == "" then Ok(items[..Count(|items|)])
    else
      var words := QueryWords(query);
      match Matching(items, words)
      case Err(e) => Err(e)
      case Ok(kept) =>
        var sorted := Sort(kept, ByRank(words[0]));
        Ok(sorted[..Count(|sorted|)])
  }

  /** The entries returned are drawn from the input, each at most as often
      as it occurs there. */
  lemma {:induction false} FilteredFromInput(items: Items, query: string)
    ensures FilteredItems(items, query).Ok? ==>
              multiset(FilteredItems(items, query).value) <= multiset(items)
  {
    if query == "" {
      PrefixWithin(items, Count(|items|));
    } else {
      var words := QueryWords(query);
      var m := Matching(items, words);
      if m.Ok? {
        var sorted := Sort(m.value, ByRank(words[0]));
        PrefixWithin(sorted, Count(|sorted|));
        assert FilteredItems(items, query) == Ok(sorted[..Count(|sorted|)]);
      }
    }
  }

  lemma {:induction false} PrefixWithin<T>(s: seq<T>, n: nat)
    requires n <= |s|
    ensures multiset(s[..n]) <= multiset(s)
  {
    assert s == s[..n] + s[n..];
  }

  /** With a query, every entry returned contains every query word. */
  lemma {:induction false} FilteredMatch(items: Items, query: string)
    requires query != "" && FilteredItems(items, query).Ok?
    ensures AllMatch(FilteredItems(items, query).value, QueryWords(query))
  {
    var words := QueryWords(query);
    var kept := Matching(items, words).value;
    var sorted := Sort(kept, ByRank(words[0]));
    forall i | 0 <= i < Count(|sorted|)
      ensures Matches(sorted[i], words)
    {
      assert sorted[i] in multiset(kept);
      var k :| 0 <= k < |kept| && kept[k] == sorted[i];
    }
  }

  /** With a query, the entries come out in ascending order of where the
      first query word occurs in their value. */
  lemma {:induction false} FilteredSorted(items: Items, query: string)
    requires query != "" && FilteredItems(items, query).Ok?
    ensures var r := FilteredItems(items, query).value;
            forall i, j :: 0 <= i < j < |r| ==> Rank(r[i], QueryWords(query)[0]) <= Rank(r[j], QueryWords(query)[0])
  {
    var words := QueryWords(query);
    var kept := Matching(items, words).value;
    var sorted := Sort(kept, ByRank(words[0]));
    ByRankTotal(words[0]);
    SortSorted(kept, ByRank(words[0]));
    forall i, j | 0 <= i < j < Count(|sorted|)
      ensures Rank(sorted[..Count(|sorted|)][i], words[0]) <= Rank(sorted[..Count(|sorted|)][j], words[0])
    {
      assert ByRank(words[0])(sorted[i], sorted[j]);
    }
  }

  /** With a query, a matching entry is left out only when the ten returned
      all rank at least as well: none of the best matches is lost. */
  lemma {:induction false} FilteredKeepsBest(items: Items, query: string, x: Option<AutoItem>)
    requires query != "" && FilteredItems(items, query).Ok?
    requires x in items && Matches(x, QueryWords(query))
    requires x !in FilteredItems(items, query).value
    ensures |FilteredItems(items, query).value| == MaxResults
    ensures forall y :: y in FilteredItems(items, query).value ==>
              Rank(y, QueryWords(query)[0]) <= Rank(x, QueryWords(query)[0])
  {
    var words := QueryWords(query);
    var kept := Matching(items, words).value;
    var sorted := Sort(kept, ByRank(words[0]));
    var n := Count(|sorted|);
    ByRankTotal(words[0]);
    SortSorted(kept, ByRank(words[0]));
    assert x in multiset(sorted);
    var k :| 0 <= k < |sorted| && sorted[k] == x;
    assert forall j :: 0 <= j < n ==> sorted[..n][j] == sorted[j];
    forall y | y in sorted[..n]
      ensures Rank(y, words[0]) <= Rank(x, words[0])
    {
      var j :| 0 <= j < n && sorted[..n][j] == y;
      assert ByRank(words[0])(sorted[j], sorted[k]);
    }
  }

  /** An item list filterItems works on in place. */
  class ItemList {
    var items: Items

    constructor(items: Items)
      ensures this.items == items
    {
      this.items := items;
    }
  }

  /** filterItems on `list`: without a query the returned entries are spliced
      out of the list itself; with one, the filter works on a copy and the
      list is left as it was. */
  method FilterItems(list: ItemList, query: string) returns (r: Result<Items, Json>)
    modifies list
    ensures r == FilteredItems(old(list.items), query)
    ensures query == "" ==> list.items == old(list.items)[Count(|old(list.items)|)..]
    ensures query != "" ==> list.items == old(list.items)
  {
    r := FilteredItems(list.items, query);
    if query == "" {
      list.items := list.items[Count(|list.items|)..];
    }
  }

  // ---------------------------------------------------------------------------
  // One page of a listing
  // ---------------------------------------------------------------------------

  /** handleResult: a listed array read with the field names and filtered. */
  function HandledResult(list: Json, query: string, fields: seq<string>): (r: Result<Items, Json>)
    ensures !list.Arr? ==> r.Err?
    ensures list.Arr? && ParseAll(fields, list.items).Ok? ==> r == FilteredItems(ParseAll(fields, list.items).value, query)
  {
    if !list.Arr? then Err(NoMethod(list, "result", "map"))
    else
      match ParseAll(fields, list.items)
      case Err(e) => Err(e)
      case Ok(parsed) => FilteredItems(parsed, query)
  }

  /** handleResult, filtering the freshly mapped array in place. */
  method HandleResult(list: Json, query: string, fields: seq<string>) returns (r: Result<Items, Json>)
    ensures r == HandledResult(list, query, fields)
  {
    if !list.Arr? {
      return Err(NoMethod(list, "result", "map"));
    }
    var parsed := ParseAll(fields, list.items);
    if parsed.Err? {
      return Err(parsed.error);
    }
    var mapped := new ItemList(parsed.value);
    r := FilterItems(mapped, query);
  }

  /** The entry's value or id, in lower case, equals the query in lower case. */
  predicate IsExact(item: AutoItem, query: string) {
    || (item.value.Str? && Lower(item.value.s) == Lower(query))
    || (item.id.Str? && Lower(item.id.s) == Lower(query))
  }

  /** `items.find(...)` for an exact match: the value is compared first, the
      id only when the value differs, and either throws when it is not a string. */
  function ExactMatch(items: Items, query: string): (r: Result<Option<AutoItem>, Json>)
    ensures r.Ok? && r.value.Some? ==> Some(r.value.value) in items && IsExact(r.value.value, query)
    ensures r.Ok? && r.value.None? ==>
              forall i :: 0 <= i < |items| ==> items[i].Some? && !IsExact(items[i].value, query)
    decreases |items|
  {
    if items == [] then Ok(None)
    else if items[0].None? then Err(NoMethod(Undef, "item", "value"))
    else
      var item := items[0].value;
      match LowerText(item.value, "item.value")
      case Err(e) => Err(e)
      case Ok(v) =>
        if v == Lower(query) then Ok(Some(item))
        else
          match LowerText(item.id, "item.id")
          case Err(e) => Err(e)
          case Ok(id) =>
            if id == Lower(query) then Ok(Some(item))
            else
              var rest := ExactMatch(items[1..], query);
              assert forall i :: 1 <= i < |items| ==> items[i] == items[1..][i - 1];
              rest
  }

  /** `find` returns the first match: every item before the one found is
      present and does not match. */
  lemma {:induction false} ExactMatchIsFirst(items: Items, query: string)
    requires ExactMatch(items, query).Ok? && ExactMatch(items, query).value.Some?
    ensures exists k :: 0 <= k < |items| && items[k] == Some(ExactMatch(items, query).value.value) &&
              forall j :: 0 <= j < k ==> items[j].Some? && !IsExact(items[j].value, query)
    decreases |items|
  {
    var found := ExactMatch(items, query).value.value;
    if items[0] == Some(found) && IsExact(found, query) {
      assert items[0] == Some(found);
    } else {
      var rest := ExactMatch(items[1..], query);
      assert rest == ExactMatch(items, query);
      assert items[0].Some? && !IsExact(items[0].value, query);
      ExactMatchIsFirst(items[1..], query);
      var k :| 0 <= k < |items[1..]| && items[1..][k] == Some(found) &&
                 forall j :: 0 <= j < k ==> items[1..][j].Some? && !IsExact(items[1..][j].value, query);
      assert items[k + 1] == Some(found);
      assert forall j :: 1 <= j < k + 1 ==> items[j] == items[1..][j - 1];
    }
  }

  /** How the listing loop treats a page: `fallback` reads a falsy reply as
      `[]` and a reply without `items` as the array itself; `paging` lets it
      fetch further pages at all. */
  datatype PageLoop = PageLoop(fallback: bool, paging: bool, fields: seq<string>, query: string)

  /** What one page leads to: an end, or the next page with what has been
      gathered so far. */
  datatype Step = Stop(outcome: Listing) | Next(gathered: Items, token: Json)

  /** The end of a listing: its entries, an error, or (the replies ran out)
      a listing still waiting for a page. */
  datatype Listing = Listed(entries: Items) | Failed(error: Json) | Unfinished

  /** The listed array of a page: `result.items || result`, or `result.items`. */
  function PageList(fallback: bool, result: Json): (r: Result<Json, Json>)
    ensures r.Err? <==> result.Undef? || result.Null?
  {
    match Property(result, "items")
    case Err(e) => Err(e)
    case Ok(list) => Ok(if fallback then OrElse(list, result) else list)
  }

  /** `result.nextPageToken` once `result` is known to be readable. */
  function NextToken(result: Json): Json {
    match Property(result, "nextPageToken")
    case Ok(t) => t
    case Err(_) => Undef
  }

  /** The page a reply stands for: `|| []` applies only with the fallback. */
  function PageResult(l: PageLoop, raw: Json): Json {
    if l.fallback then OrElse(raw, Arr([])) else raw
  }

  /** The entries a page contributes, or what reading it throws. */
  function PageFound(l: PageLoop, reply: Result<Json, Json>): (r: Result<Items, Json>)
    ensures r.Ok? ==> reply.Ok?
  {
    match reply
    case Err(e) => Err(e)
    case Ok(raw) =>
      match PageList(l.fallback, PageResult(l, raw))
      case Err(e) => Err(e)
      case Ok(list) => HandledResult(list, l.query, l.fields)
  }

  /** With a query, a page contributes only entries containing every query word. */
  lemma {:induction false} PageFoundMatches(l: PageLoop, reply: Result<Json, Json>)
    requires l.query != "" && PageFound(l, reply).Ok?
    ensures AllMatch(PageFound(l, reply).value, QueryWords(l.query))
  {
    var list := PageList(l.fallback, PageResult(l, reply.value)).value;
    FilteredMatch(ParseAll(l.fields, list.items).value, l.query);
  }

  /** One iteration of the listing loop, given the entries gathered so far
      and the reply to this page's request. */
  function PageStep(l: PageLoop, items: Items, reply: Result<Json, Json>): (r: Step)
    ensures r.Next? ==> l.paging && l.query != "" && Truthy(r.token) && |r.gathered| < MaxResults
    ensures r.Next? ==> ExactMatch(r.gathered, l.query) == Ok(None)
  {
    match PageFound(l, reply)
    case Err(e) => Stop(Failed(e))
    case Ok(found) =>
      var all := items + found;
      var next := NextToken(PageResult(l, reply.value));
      if !l.paging || l.query == "" || !Truthy(next) || |all| >= MaxResults then Stop(Listed(all))
      else
        match ExactMatch(all, l.query)
        case Err(e) => Stop(Failed(e))
        case Ok(Some(m)) => Stop(Listed([Some(m)]))
        case Ok(None) => Next(all, next)
  }

  /** The loop body: the page's entries are pushed onto what was gathered,
      then the stop rules and the exact-match exit are checked in turn. */
  method PageOnce(l: PageLoop, items: Items, reply: Result<Json, Json>) returns (step: Step)
    ensures step == PageStep(l, items, reply)
  {
    if reply.Err? {
      return Stop(Failed(reply.error));
    }
    var result := reply.value;
    if l.fallback {
      result := OrElse(result, Arr([]));
    }
    var list := PageList(l.fallback, result);
    if list.Err? {
      return Stop(Failed(list.error));
    }
    var found := HandleResult(list.value, l.query, l.fields);
    assert found == PageFound(l, reply);
    if found.Err? {
      return Stop(Failed(found.error));
    }
    var all := items + found.value;
    var next := NextToken(result);
    if !l.paging || l.query == "" || !Truthy(next) || |all| >= MaxResults {
      return Stop(Listed(all));
    }
    var exact := ExactMatch(all, l.query);
    if exact.Err? {
      return Stop(Failed(exact.error));
    }
    if exact.value.Some? {
      return Stop(Listed([exact.value]));
    }
    step := Next(all, next);
  }

  /** When a page stops the loop on its own rules (paging off, no query, no
      next token, ten or more entries), the answer is everything gathered. */
  lemma {:induction false} PageStopsWithAll(l: PageLoop, items: Items, raw: Json, found: Items)
    requires PageFound(l, Ok(raw)) == Ok(found)
    requires || !l.paging || l.query == "" || !Truthy(NextToken(PageResult(l, raw)))
             || |items + found| >= MaxResults
    ensures PageStep(l, items, Ok(raw)) == Stop(Listed(items + found))
  {
  }

  /** Otherwise an exact match on value or id ends the listing with just
      that entry. */
  lemma {:induction false} PageStopsAtExactMatch(l: PageLoop, items: Items, raw: Json, found: Items, m: AutoItem)
    requires PageFound(l, Ok(raw)) == Ok(found)
    requires l.paging && l.query != "" && Truthy(NextToken(PageResult(l, raw))) && |items + found| < MaxResults
    requires ExactMatch(items + found, l.query) == Ok(Some(m))
    ensures PageStep(l, items, Ok(raw)) == Stop(Listed([Some(m)]))
    ensures Some(m) in items + found && IsExact(m, l.query)
  {
  }

  /** With a query, a page hands on only entries that contain every query
      word, provided it was given such entries. */
  lemma {:induction false} PageStepMatches(l: PageLoop, items: Items, reply: Result<Json, Json>)
    requires l.query != "" && AllMatch(items, QueryWords(l.query))
    ensures var r := PageStep(l, items, reply);
            && (r.Stop? && r.outcome.Listed? ==> AllMatch(r.outcome.entries, QueryWords(l.query)))
            && (r.Next? ==> AllMatch(r.gathered, QueryWords(l.query)))
  {
    var words := QueryWords(l.query);
    if PageFound(l, reply).Ok? {
      var found := PageFound(l, reply).value;
      PageFoundMatches(l, reply);
      var all := items + found;
      AppendMatches(items, found, words);
      var exact := ExactMatch(all, l.query);
      if exact.Ok? && exact.value.Some? {
        var k :| 0 <= k < |all| && all[k] == Some(exact.value.value);
        assert Matches(all[k], words);
      }
    }
  }

  lemma {:induction false} AppendMatches(a: Items, b: Items, words: seq<string>)
    requires AllMatch(a, words) && AllMatch(b, words)
    ensures AllMatch(a + b, words)
  {
    forall i | 0 <= i < |a + b|
      ensures Matches((a + b)[i], words)
    {
      if i >= |a| {
        assert (a + b)[i] == b[i - |a|];
      } else {
        assert (a + b)[i] == a[i];
      }
    }
  }

  // ---------------------------------------------------------------------------
  // The listing loop
  // ---------------------------------------------------------------------------

  /** A listing in progress: how it ends and the page token of each request
      it makes. */
  datatype PageRun = PageRun(outcome: Listing, tokens: seq<Json>)

  /** The `while (true)` loop over the replies to successive page requests,
      starting from `items` with the page token `token`. */
  function Pages(l: PageLoop, items: Items, token: Json, replies: seq<Result<Json, Json>>): (r: PageRun)
    ensures |r.tokens| <= |replies|
    ensures replies != [] ==> |r.tokens| >= 1 && r.tokens[0] == token
    ensures r.outcome.Unfinished? ==> |r.tokens| == |replies|
    decreases |replies|
  {
    if replies == [] then PageRun(Unfinished, [])
    else
      match PageStep(l, items, replies[0])
      case Stop(o) => PageRun(o, [token])
      case Next(all, next) =>
        var rest := Pages(l, all, next, replies[1..]);
        PageRun(rest.outcome, [token] + rest.tokens)
  }

  /** Without paging, the listing makes exactly one request, with no page token. */
  lemma {:induction false} PagesWithoutPaging(l: PageLoop, items: Items, replies: seq<Result<Json, Json>>)
    requires !l.paging && replies != []
    ensures Pages(l, items, Undef, replies).tokens == [Undef]
    ensures !Pages(l, items, Undef, replies).outcome.Unfinished?
  {
    assert PageStep(l, items, replies[0]).Stop?;
  }

  /** With a query, a listing that starts from matching entries ends, if it
      lists anything, with entries that contain every query word. */
  lemma {:induction false} PagesMatch(l: PageLoop, items: Items, token: Json, replies: seq<Result<Json, Json>>)
    requires l.query != "" && AllMatch(items, QueryWords(l.query))
    ensures Pages(l, items, token, replies).outcome.Listed? ==>
              AllMatch(Pages(l, items, token, replies).outcome.entries, QueryWords(l.query))
    decreases |replies|
  {
    if replies != [] {
      PageStepMatches(l, items, replies[0]);
      match PageStep(l, items, replies[0])
      case Stop(o) =>
      case Next(all, next) =>
        PagesMatch(l, all, next, replies[1..]);
    }
  }

  /** The run so far, `tokens`, followed by the run from here. */
  function Resumed(tokens: seq<Json>, rest: PageRun): PageRun {
    PageRun(rest.outcome, tokens + rest.tokens)
  }

  /** Loop invariant of ListPages: the whole run is the requests made so far
      followed by the run from page `i` with what has been gathered. */
  ghost predicate PagedFrom(l: PageLoop, start: Items, replies: seq<Result<Json, Json>>,
                            items: Items, token: Json, tokens: seq<Json>, i: nat)
  {
    i <= |replies| && Pages(l, start, Undef, replies) == Resumed(tokens, Pages(l, items, token, replies[i..]))
  }

  lemma {:induction false} PageAdvance(l: PageLoop, start: Items, replies: seq<Result<Json, Json>>,
                                       items: Items, token: Json, tokens: seq<Json>, i: nat)
    requires i < |replies| && PagedFrom(l, start, replies, items, token, tokens, i)
    ensures PageStep(l, items, replies[i]).Stop? ==>
              Pages(l, start, Undef, replies) == PageRun(PageStep(l, items, replies[i]).outcome, tokens + [token])
    ensures PageStep(l, items, replies[i]).Next? ==>
              PagedFrom(l, start, replies, PageStep(l, items, replies[i]).gathered,
                        PageStep(l, items, replies[i]).token, tokens + [token], i + 1)
  {
    var rest := replies[i..];
    assert rest[0] == replies[i];
    assert rest[1..] == replies[i + 1..];
    var step := PageStep(l, items, replies[i]);
    if step.Next? {
      var later := Pages(l, step.gathered, step.token, replies[i + 1..]);
      assert tokens + ([token] + later.tokens) == (tokens + [token]) + later.tokens;
    }
  }

  /** The listing loop: one request per iteration, each with the token the
      previous page returned. */
  method ListPages(l: PageLoop, start: Items, replies: seq<Result<Json, Json>>) returns (outcome: Listing, tokens: seq<Json>)
    ensures PageRun(outcome, tokens) == Pages(l, start, Undef, replies)
  {
    var items := start;
    var nextPageToken := Undef;
    tokens := [];
    var i := 0;
    assert replies[0..] == replies;
    while i < |replies|
      invariant PagedFrom(l, start, replies, items, nextPageToken, tokens, i)
      decreases |replies| - i
    {
      PageAdvance(l, start, replies, items, nextPageToken, tokens, i);
      var step := PageOnce(l, items, replies[i]);
      tokens := tokens + [nextPageToken];
      if step.Stop? {
        return step.outcome, tokens;
      }
      items := step.gathered;
      nextPageToken := step.token;
      i := i + 1;
    }
    assert replies[i..] == [];
    outcome := Unfinished;
  }

  // ---------------------------------------------------------------------------
  // listAuto
  // ---------------------------------------------------------------------------

  /** How listAuto was configured for one autocomplete function: the provider
      listing to call, the fields to read, whether to page, and whether the
      client is built without a project. */
  datatype Lister = Lister(listFunc: string, fields: Option<seq<string>>, paging: bool, noProject: bool)

  const ClustersLister: Lister := Lister("listClusters", None, false, false)
  const NodePoolsLister: Lister := Lister("listNodePools", None, false, false)
  const ProjectsLister: Lister := Lister("listProjects", Some(["projectId", "name"]), false, true)
  const RegionsLister: Lister := Lister("listRegions", Some(["name"]), false, false)
  const ZonesLister: Lister := Lister("listZones", Some(["name"]), false, false)
  const ServiceAccountsLister: Lister := Lister("listServiceAccounts", Some(["email", "displayName"]), false, false)
  const MachineTypesLister: Lister := Lister("listMachineTypes", Some(["name"]), false, false)
  const NetworksLister: Lister := Lister("listNetworks", None, false, false)
  const SubnetworksLister: Lister := Lister("listSubnetworks", None, false, false)

  /** One listing request: the provider method, the parameters, the fields
      and the page token. */
  datatype PageRequest = PageRequest(listFunc: string, params: map<string, Json>, fields: seq<string>, pageToken: Json)

  /** An autocomplete run: how it ends and the listing requests it made. */
  datatype Run = Run(outcome: Listing, calls: seq<PageRequest>)

  function Requests(listFunc: string, params: map<string, Json>, fields: seq<string>, tokens: seq<Json>): (r: seq<PageRequest>)
    ensures |r| == |tokens|
    ensures forall i :: 0 <= i < |tokens| ==> r[i] == PageRequest(listFunc, params, fields, tokens[i])
  {
    seq(|tokens|, i requires 0 <= i < |tokens| => PageRequest(listFunc, params, fields, tokens[i]))
  }

  /** `(query || "").trim()`: a truthy query that is not a string has no `trim`. */
  function QueryText(query: Json): (r: Result<string, Json>)
    ensures !Truthy(query) ==> r.Ok?
    ensures query.Str? ==> r == Ok(Trim(query.s))
    ensures r.Ok? ==> IsTrimmed(r.value)
  {
    var q := OrElse(query, Str(""));
    if q.Str? then Ok(Trim(q.s)) else Err(NoMethod(q, "(query || \"\")", "trim"))
  }

  /** The text a failed listing's error starts with. */
  function ProblemWith(listFunc: string): string {
    "Problem with '" + listFunc + "': "
  }

  /** The catch block: a failure is rethrown with the listing's name. */
  function Wrapped(listFunc: string, o: Listing): (r: Listing)
    ensures o.Failed? ==> r == Failed(Rethrown(ProblemWith(listFunc), o.error))
    ensures !o.Failed? ==> r == o
  {
    if o.Failed? then Failed(Rethrown(ProblemWith(listFunc), o.error)) else o
  }

  /** The function listAuto returns, applied to a query, the action
      parameters, the failure of building the client (if it fails) and the
      replies to the listing requests. The settings only reach the client.
      A query without `trim` throws before the catch block. */
  function ListAutoRun(lister: Lister, query: Json, actionParams: seq<AutoParam>, clientError: Option<Json>,
                       replies: seq<Result<Json, Json>>): Run
  {
    match QueryText(query)
    case Err(e) => Run(Failed(e), [])
    case Ok(q) =>
      if clientError.Some? then Run(Failed(Rethrown(ProblemWith(lister.listFunc), clientError.value)), [])
      else ListQuery(lister, q, actionParams, replies)
  }

  /** The listing loop of listAuto once the client is built, for the trimmed
      query `q`: every request carries the action parameters plus `query`. */
  function ListQuery(lister: Lister, q: string, actionParams: seq<AutoParam>, replies: seq<Result<Json, Json>>): Run
  {
    var fields := ResolvedFields(lister.fields);
    var pages := Pages(PageLoop(true, lister.paging, fields, q), [], Undef, replies);
    Run(Wrapped(lister.listFunc, pages.outcome),
        Requests(lister.listFunc, AutoParams(actionParams)["query" := Str(q)], fields, pages.tokens))
  }

  method ListAuto(lister: Lister, query: Json, actionParams: seq<AutoParam>, clientError: Option<Json>,
                  replies: seq<Result<Json, Json>>) returns (outcome: Listing, calls: seq<PageRequest>)
    ensures Run(outcome, calls) == ListAutoRun(lister, query, actionParams, clientError, replies)
  {
    var q := QueryText(query);
    if q.Err? {
      outcome, calls := Failed(q.error), [];
      ListAutoRunOfEarly(lister, query, actionParams, clientError, replies, Run(outcome, calls));
    } else if clientError.Some? {
      outcome, calls := Failed(Rethrown(ProblemWith(lister.listFunc), clientError.value)), [];
      ListAutoRunOfEarly(lister, query, actionParams, clientError, replies, Run(outcome, calls));
    } else {
      outcome, calls := ListWithClient(lister, q.value, actionParams, replies);
      ListAutoRunOfClient(lister, query, q.value, actionParams, clientError, replies, Run(outcome, calls));
    }
  }

  lemma {:induction false} ListAutoRunOfEarly(lister: Lister, query: Json, actionParams: seq<AutoParam>,
                                              clientError: Option<Json>, replies: seq<Result<Json, Json>>, run: Run)
    requires QueryText(query).Err? ==> run == Run(Failed(QueryText(query).error), [])
    requires QueryText(query).Ok? ==>
               clientError.Some? && run == Run(Failed(Rethrown(ProblemWith(lister.listFunc), clientError.value)), [])
    ensures run == ListAutoRun(lister, query, actionParams, clientError, replies)
  {
    ListAutoRunEarly(lister, query, actionParams, clientError, replies);
  }

  lemma {:induction false} ListAutoRunOfClient(lister: Lister, query: Json, q: string, actionParams: seq<AutoParam>,
                                               clientError: Option<Json>, replies: seq<Result<Json, Json>>, run: Run)
    requires QueryText(query) == Ok(q) && clientError.None? && run == ListQuery(lister, q, actionParams, replies)
    ensures run == ListAutoRun(lister, query, actionParams, clientError, replies)
  {
    ListAutoRunOfQuery(lister, query, q, actionParams, replies);
  }

  lemma {:induction false} ListAutoRunOfQuery(lister: Lister, query: Json, q: string, actionParams: seq<AutoParam>,
                                              replies: seq<Result<Json, Json>>)
    requires QueryText(query) == Ok(q)
    ensures ListAutoRun(lister, query, actionParams, None, replies) == ListQuery(lister, q, actionParams, replies)
  {
  }

  /** The two ways listAuto fails before any listing request. */
  lemma {:induction false} ListAutoRunEarly(lister: Lister, query: Json, actionParams: seq<AutoParam>,
                                            clientError: Option<Json>, replies: seq<Result<Json, Json>>)
    ensures QueryText(query).Err? ==>
              ListAutoRun(lister, query, actionParams, clientError, replies) == Run(Failed(QueryText(query).error), [])
    ensures QueryText(query).Ok? && clientError.Some? ==>
              ListAutoRun(lister, query, actionParams, clientError, replies)
                == Run(Failed(Rethrown(ProblemWith(lister.listFunc), clientError.value)), [])
  {
  }

  /** The body of the try block after the client is built. */
  method ListWithClient(lister: Lister, q: string, actionParams: seq<AutoParam>, replies: seq<Result<Json, Json>>)
    returns (outcome: Listing, calls: seq<PageRequest>)
    ensures Run(outcome, calls) == ListQuery(lister, q, actionParams, replies)
  {
    var fields := ResolvedFields(lister.fields);
    var params := MapAutoParams(actionParams);
    params := params["query" := Str(q)];
    var pages, tokens := ListPages(PageLoop(true, lister.paging, fields, q), [], replies);
    outcome := Wrapped(lister.listFunc, pages);
    calls := Requests(lister.listFunc, params, fields, tokens);
  }

  /** A listing without paging asks for one page, with the action parameters
      plus the trimmed query and no page token, and answers from it. */
  lemma {:induction false} ListAutoOnePage(lister: Lister, query: Json, actionParams: seq<AutoParam>,
                                           replies: seq<Result<Json, Json>>)
    requires !lister.paging && replies != [] && QueryText(query).Ok?
    ensures var run := ListAutoRun(lister, query, actionParams, None, replies);
            && run.calls == [PageRequest(lister.listFunc, AutoParams(actionParams)["query" := Str(QueryText(query).value)],
                                         ResolvedFields(lister.fields), Undef)]
            && !run.outcome.Unfinished?
  {
    ListAutoRunOfQuery(lister, query, QueryText(query).value, actionParams, replies);
    ListQueryOnePage(lister, QueryText(query).value, actionParams, replies);
  }

  lemma {:induction false} ListQueryOnePage(lister: Lister, q: string, actionParams: seq<AutoParam>,
                                            replies: seq<Result<Json, Json>>)
    requires !lister.paging && replies != []
    ensures var run := ListQuery(lister, q, actionParams, replies);
            && run.calls == [PageRequest(lister.listFunc, AutoParams(actionParams)["query" := Str(q)],
                                         ResolvedFields(lister.fields), Undef)]
            && !run.outcome.Unfinished?
  {
    var l := PageLoop(true, lister.paging, ResolvedFields(lister.fields), q);
    PagesWithoutPaging(l, [], replies);
    var tokens := Pages(l, [], Undef, replies).tokens;
    assert tokens == [Undef];
  }

  /** With a non-blank query, whatever listAuto lists contains every query word. */
  lemma {:induction false} ListAutoMatchesQuery(lister: Lister, query: Json, actionParams: seq<AutoParam>,
                                                clientError: Option<Json>, replies: seq<Result<Json, Json>>)
    requires QueryText(query).Ok? && QueryText(query).value != ""
    ensures var run := ListAutoRun(lister, query, actionParams, clientError, replies);
            run.outcome.Listed? ==> AllMatch(run.outcome.entries, QueryWords(QueryText(query).value))
  {
    var q := QueryText(query).value;
    if clientError.None? {
      ListAutoRunOfQuery(lister, query, q, actionParams, replies);
      PagesMatch(PageLoop(true, lister.paging, ResolvedFields(lister.fields), q), [], Undef, replies);
    }
  }

  /** Once the query is read, every failure is rethrown naming the listing. */
  lemma {:induction false} ListAutoFailure(lister: Lister, query: Json, actionParams: seq<AutoParam>,
                                           clientError: Option<Json>, replies: seq<Result<Json, Json>>)
    requires QueryText(query).Ok?
    requires ListAutoRun(lister, query, actionParams, clientError, replies).outcome.Failed?
    ensures exists e :: ListAutoRun(lister, query, actionParams, clientError, replies).outcome.error
                          == Rethrown(ProblemWith(lister.listFunc), e)
  {
    var q := QueryText(query).value;
    var run := ListAutoRun(lister, query, actionParams, clientError, replies);
    if clientError.None? {
      ListAutoRunOfQuery(lister, query, q, actionParams, replies);
      ListQueryFailure(lister, q, actionParams, replies);
    } else {
      ListAutoRunEarly(lister, query, actionParams, clientError, replies);
      var e := clientError.value;
      assert run.outcome.error == Rethrown(ProblemWith(lister.listFunc), e);
    }
  }

  /** Once the client is built, every failure is the catch block's rethrow. */
  lemma {:induction false} ListQueryFailure(lister: Lister, q: string, actionParams: seq<AutoParam>,
                                            replies: seq<Result<Json, Json>>)
    requires ListQuery(lister, q, actionParams, replies).outcome.Failed?
    ensures exists e :: ListQuery(lister, q, actionParams, replies).outcome.error
                          == Rethrown(ProblemWith(lister.listFunc), e)
  {
    var pages := Pages(PageLoop(true, lister.paging, ResolvedFields(lister.fields), q), [], Undef, replies);
    var e := pages.outcome.error;
    assert ListQuery(lister, q, actionParams, replies).outcome.error == Rethrown(ProblemWith(lister.listFunc), e);
  }

  // ---------------------------------------------------------------------------
  // listMachineTypesWithCustomAuto
  // ---------------------------------------------------------------------------

  /** The custom machine types offered ahead of the listed ones. */
  const CustomMachineTypes: Items := [
    Some(AutoItem(Str("custom"), Str("Custom N1(Default Custom)"))),
    Some(AutoItem(Str("n2-custom"), Str("Custom N2"))),
    Some(AutoItem(Str("n2d-custom"), Str("Custom N2D"))),
    Some(AutoItem(Str("e2-custom"), Str("Custom E2")))
  ]

  const MachineTypesWithCustom: string := "listMachineTypesAuto"

  /** listMachineTypesWithCustomAuto: the custom entries that match the query
      first; a query mentioning "custom" stops there, any other pages through
      the machine types (with the parameters as given and the `name` field). */
  function MachineTypesRun(query: Json, actionParams: seq<AutoParam>, clientError: Option<Json>,
                           replies: seq<Result<Json, Json>>): Run
  {
    if clientError.Some? then Run(Failed(Rethrown(ProblemWith(MachineTypesWithCustom), clientError.value)), [])
    else
      match QueryText(query)
      case Err(e) => Run(Failed(Rethrown(ProblemWith(MachineTypesWithCustom), e)), [])
      case Ok(q) => MachineTypesFor(q, actionParams, replies)
  }

  /** listMachineTypesWithCustomAuto once the query is trimmed to `q`. */
  function MachineTypesFor(q: string, actionParams: seq<AutoParam>, replies: seq<Result<Json, Json>>): Run
  {
    match FilteredItems(CustomMachineTypes, q)
    case Err(e) => Run(Failed(Rethrown(ProblemWith(MachineTypesWithCustom), e)), [])
    case Ok(custom) =>
      if Contains(Lower(q), "custom") then Run(Listed(custom), [])
      else
        var pages := Pages(PageLoop(false, true, ["name"], q), custom, Undef, replies);
        Run(Wrapped(MachineTypesWithCustom, pages.outcome),
            Requests("listMachineTypes", AutoParams(actionParams), ["name"], pages.tokens))
  }

  method ListMachineTypesWithCustom(query: Json, actionParams: seq<AutoParam>, clientError: Option<Json>,
                                    replies: seq<Result<Json, Json>>) returns (outcome: Listing, calls: seq<PageRequest>)
    ensures Run(outcome, calls) == MachineTypesRun(query, actionParams, clientError, replies)
  {
    if clientError.Some? {
      return Failed(Rethrown(ProblemWith(MachineTypesWithCustom), clientError.value)), [];
    }
    var q := QueryText(query);
    if q.Err? {
      return Failed(Rethrown(ProblemWith(MachineTypesWithCustom), q.error)), [];
    }
    outcome, calls := ListMachineTypesFor(q.value, actionParams, replies);
  }

  /** The try block of listMachineTypesWithCustomAuto after the query is trimmed. */
  method ListMachineTypesFor(q: string, actionParams: seq<AutoParam>, replies: seq<Result<Json, Json>>)
    returns (outcome: Listing, calls: seq<PageRequest>)
    ensures Run(outcome, calls) == MachineTypesFor(q, actionParams, replies)
  {
    var params := MapAutoParams(actionParams);
    var list := new ItemList(CustomMachineTypes);
    var custom := FilterItems(list, q);
    if custom.Err? {
      return Failed(Rethrown(ProblemWith(MachineTypesWithCustom), custom.error)), [];
    }
    if Contains(Lower(q), "custom") {
      return Listed(custom.value), [];
    }
    var pages, tokens := ListPages(PageLoop(false, true, ["name"], q), custom.value, replies);
    outcome := Wrapped(MachineTypesWithCustom, pages);
    calls := Requests("listMachineTypes", params, ["name"], tokens);
  }

  /** Filtering the custom entries never throws and gives custom entries
      only, which with a query contain every query word. */
  lemma {:induction false} CustomEntriesFiltered(q: string)
    ensures FilteredItems(CustomMachineTypes, q).Ok?
    ensures forall x :: x in FilteredItems(CustomMachineTypes, q).value ==> x in CustomMachineTypes
    ensures q != "" ==> AllMatch(FilteredItems(CustomMachineTypes, q).value, QueryWords(q))
  {
    assert forall i :: 0 <= i < |CustomMachineTypes| ==> !Unreadable(CustomMachineTypes[i]);
    if q != "" {
      FilteredMatch(CustomMachineTypes, q);
      var words := QueryWords(q);
      var kept := Matching(CustomMachineTypes, words).value;
      var sorted := Sort(kept, ByRank(words[0]));
      forall x | x in sorted[..Count(|sorted|)]
        ensures x in CustomMachineTypes
      {
        assert x in multiset(kept);
      }
    }
  }

  /** A query mentioning "custom" makes no request and answers with custom
      entries only, each containing every query word. */
  lemma {:induction false} CustomQueryShortCircuits(query: Json, actionParams: seq<AutoParam>,
                                                    replies: seq<Result<Json, Json>>)
    requires QueryText(query).Ok? && Contains(Lower(QueryText(query).value), "custom")
    ensures var run := MachineTypesRun(query, actionParams, None, replies);
            && run.calls == []
            && run.outcome.Listed?
            && (forall x :: x in run.outcome.entries ==> x in CustomMachineTypes)
            && AllMatch(run.outcome.entries, QueryWords(QueryText(query).value))
  {
    var q := QueryText(query).value;
    assert q != "" by {
      assert Lower(q) != "";
    }
    CustomEntriesFiltered(q);
    assert MachineTypesRun(query, actionParams, None, replies) == MachineTypesFor(q, actionParams, replies);
  }

  /** Without a query, a page that lists anything lists what was gathered
      before it first. */
  lemma {:induction false} PageStepKeepsGathered(l: PageLoop, items: Items, reply: Result<Json, Json>)
    requires l.query == ""
    ensures var r := PageStep(l, items, reply);
            r.Stop? && r.outcome.Listed? ==> |r.outcome.entries| >= |items| && r.outcome.entries[..|items|] == items
  {
    var r := PageStep(l, items, reply);
    if r.Stop? && r.outcome.Listed? {
      var found := PageFound(l, reply).value;
      assert r.outcome.entries == items + found;
      assert (items + found)[..|items|] == items;
    }
  }

  /** Without a query the machine types come after all four custom entries,
      from a single page. */
  lemma {:induction false} MachineTypesWithoutQuery(actionParams: seq<AutoParam>, replies: seq<Result<Json, Json>>)
    requires replies != []
    ensures var run := MachineTypesRun(Str(""), actionParams, None, replies);
            && |run.calls| == 1
            && run.calls[0] == PageRequest("listMachineTypes", AutoParams(actionParams), ["name"], Undef)
            && (run.outcome.Listed? ==> |run.outcome.entries| >= 4 && run.outcome.entries[..4] == CustomMachineTypes)
  {
    var pages := Pages(PageLoop(false, true, ["name"], ""), CustomMachineTypes, Undef, replies);
    MachineTypesEmptyQuery(actionParams, replies);
    CustomFirstPage(replies);
    var run := MachineTypesRun(Str(""), actionParams, None, replies);
    assert run.calls == Requests("listMachineTypes", AutoParams(actionParams), ["name"], [Undef]);
    if run.outcome.Listed? {
      assert run.outcome == pages.outcome;
    }
  }

  /** An empty query keeps all four custom entries and lists from there. */
  lemma {:induction false} MachineTypesEmptyQuery(actionParams: seq<AutoParam>, replies: seq<Result<Json, Json>>)
    ensures var pages := Pages(PageLoop(false, true, ["name"], ""), CustomMachineTypes, Undef, replies);
            MachineTypesRun(Str(""), actionParams, None, replies)
              == Run(Wrapped(MachineTypesWithCustom, pages.outcome),
                     Requests("listMachineTypes", AutoParams(actionParams), ["name"], pages.tokens))
  {
    MachineTypesOfEmptyQuery(actionParams, replies);
    CustomUnfiltered();
    assert !Contains(Lower(""), "custom");
  }

  lemma {:induction false} MachineTypesOfEmptyQuery(actionParams: seq<AutoParam>, replies: seq<Result<Json, Json>>)
    ensures MachineTypesRun(Str(""), actionParams, None, replies) == MachineTypesFor("", actionParams, replies)
  {
    assert |Trim("")| == 0;
  }

  /** Without a query all four custom entries are offered. */
  lemma {:induction false} CustomUnfiltered()
    ensures FilteredItems(CustomMachineTypes, "") == Ok(CustomMachineTypes)
  {
    assert CustomMachineTypes[..Count(4)] == CustomMachineTypes;
  }

  /** With paging and no query, the first page always ends the loop, after
      the custom entries. */
  lemma {:induction false} CustomFirstPage(replies: seq<Result<Json, Json>>)
    requires replies != []
    ensures var pages := Pages(PageLoop(false, true, ["name"], ""), CustomMachineTypes, Undef, replies);
            && pages.tokens == [Undef]
            && (pages.outcome.Listed? ==> |pages.outcome.entries| >= 4 && pages.outcome.entries[..4] == CustomMachineTypes)
  {
    var l := PageLoop(false, true, ["name"], "");
    var step := PageStep(l, CustomMachineTypes, replies[0]);
    assert step.Stop?;
    PageStepKeepsGathered(l, CustomMachineTypes, replies[0]);
    assert Pages(l, CustomMachineTypes, Undef, replies) == PageRun(step.outcome, [Undef]);
  }
}
