/** The read-side operations over the cached datasets: keyword search,
    lookup by id or name, and the category and service-type summary. Each
    reads the cache in its iteration order. */
module CatalogQueries {
  import opened Wrappers
  import opened Text
  import opened OrderedMaps
  import opened Discovery

  // ---------------------------------------------------------------------
  // Search

  /** Name, title, description and the space-joined tags, joined by spaces. */
  function SearchText(d: Dataset): string {
    Join([d.name, d.title, d.description, Join(d.tags, " ")], " ")
  }

  function LowerAll(xs: seq<string>): (r: seq<string>)
    ensures |r| == |xs| && forall i :: 0 <= i < |xs| ==> r[i] == Lower(xs[i])
  {
    seq(|xs|, i requires 0 <= i < |xs| => Lower(xs[i]))
  }

  /** The search criteria: an empty query and an empty or absent category
      accept everything. */
  predicate Matches(d: Dataset, query: string, category: Option<string>) {
    TextMatches(d, query) && CategoryMatches(d, category)
  }

  predicate TextMatches(d: Dataset, query: string) {
    query == [] || Contains(Lower(SearchText(d)), Lower(query))
  }

  predicate CategoryMatches(d: Dataset, category: Option<string>) {
    category.None? || category.value == [] || Lower(category.value) in LowerAll(d.categories)
  }

  /** The matching datasets, in order. */
  function Filter(ds: seq<Dataset>, query: string, category: Option<string>): seq<Dataset>
    decreases |ds|
  {
    if ds == [] then []
    else
      var d := ds[|ds| - 1];
      Filter(ds[..|ds| - 1], query, category) + (if Matches(d, query, category) then [d] else [])
  }

  /** The search stops once it holds `limit` results; since the check comes
      after an append, it never stops before holding one. */
  function SearchLimit(limit: int): nat {
    if limit < 1 then 1 else limit
  }

  function Take<T>(xs: seq<T>, n: nat): seq<T> {
    if |xs| <= n then xs else xs[..n]
  }

  lemma FilterSnoc(ds: seq<Dataset>, d: Dataset, query: string, category: Option<string>)
    ensures Filter(ds + [d], query, category) == Filter(ds, query, category) + (if Matches(d, query, category) then [d] else [])
  {
    assert (ds + [d])[..|ds|] == ds;
  }

  /** Filtering commutes with concatenation: results keep the input order. */
  lemma {:induction false} FilterAppend(a: seq<Dataset>, b: seq<Dataset>, query: string, category: Option<string>)
    ensures Filter(a + b, query, category) == Filter(a, query, category) + Filter(b, query, category)
    decreases |b|
  {
    if b == [] {
      assert a + b == a;
    } else {
      assert (a + b)[..|a + b| - 1] == a + b[..|b| - 1];
      FilterAppend(a, b[..|b| - 1], query, category);
    }
  }

  /** A dataset is among the filtered ones exactly when it is in the input
      and matches. */
  lemma {:induction false} FilterMembers(ds: seq<Dataset>, query: string, category: Option<string>, d: Dataset)
    ensures d in Filter(ds, query, category) <==> d in ds && Matches(d, query, category)
    decreases |ds|
  {
    if ds != [] {
      FilterMembers(ds[..|ds| - 1], query, category, d);
      assert ds == ds[..|ds| - 1] + [ds[|ds| - 1]];
    }
  }

  lemma {:induction false} FilterAllMatch(ds: seq<Dataset>, query: string, category: Option<string>)
    requires forall i :: 0 <= i < |ds| ==> Matches(ds[i], query, category)
    ensures Filter(ds, query, category) == ds
    decreases |ds|
  {
    if ds != [] {
      FilterAllMatch(ds[..|ds| - 1], query, category);
    }
  }

  /** A match means: the lower-cased query occurs in the lower-cased search
      text, and the lower-cased category is one of the lower-cased categories. */
  lemma MatchesMeaning(d: Dataset, query: string, category: Option<string>)
    ensures Matches(d, query, category) <==>
      && (query == [] || exists i :: OccursAt(Lower(SearchText(d)), Lower(query), i))
      && (category.None? || category.value == [] ||
          exists j :: 0 <= j < |d.categories| && Lower(d.categories[j]) == Lower(category.value))
  {
    ContainsIff(Lower(SearchText(d)), Lower(query));
    var cats := LowerAll(d.categories);
    if category.Some? && Lower(category.value) in cats {
      var j :| 0 <= j < |cats| && cats[j] == Lower(category.value);
      assert Lower(d.categories[j]) == Lower(category.value);
    }
  }

  /** With an empty query, no category and a positive limit, a search returns
      the first `limit` datasets (all of them when there are fewer). */
  lemma EmptySearchIsPrefix(ds: seq<Dataset>, limit: int)
    requires limit >= 1
    ensures Take(Filter(ds, "", None), SearchLimit(limit)) == ds[..if limit < |ds| then limit else |ds|]
  {
    FilterAllMatch(ds, "", None);
  }

  /** Once the filtered prefix holds `SearchLimit(limit)` datasets, it is the
      search result over the whole input. */
  lemma SearchStopsEarly(ds: seq<Dataset>, i: nat, query: string, category: Option<string>, limit: int)
    requires i <= |ds| && |Filter(ds[..i], query, category)| == SearchLimit(limit)
    ensures Take(Filter(ds, query, category), SearchLimit(limit)) == Filter(ds[..i], query, category)
  {
    FilterAppend(ds[..i], ds[i..], query, category);
    assert ds[..i] + ds[i..] == ds;
  }

  /** Every search result is an input dataset that matches. */
  lemma SearchResultsMatch(ds: seq<Dataset>, r: seq<Dataset>, query: string, category: Option<string>, limit: int)
    requires r == Take(Filter(ds, query, category), SearchLimit(limit))
    ensures forall k :: 0 <= k < |r| ==> r[k] in ds && Matches(r[k], query, category)
  {
    var f := Filter(ds, query, category);
    forall k | 0 <= k < |r|
      ensures r[k] in ds && Matches(r[k], query, category)
    {
      assert r[k] == f[k];
      FilterMembers(ds, query, category, f[k]);
    }
  }

  /** The per-dataset test of the search loop. */
  method CheckMatch(d: Dataset, query: string, queryLower: string, category: Option<string>) returns (matches: bool)
    requires queryLower == Lower(query)
    ensures matches == Matches(d, query, category)
  {
    matches := true;
    if query != [] {
      var searchable := Lower(SearchText(d));
      if !Contains(searchable, queryLower) {
        matches := false;
      }
    }
    if category.Some? && category.value != [] && matches {
      if Lower(category.value) !in LowerAll(d.categories) {
        matches := false;
      }
    }
  }

  /** `_search_datasets` over the current cache. */
  method Search(cache: OrderedMap<string, Dataset>, query: string, category: Option<string>, limit: int)
    returns (results: seq<Dataset>)
    requires cache.Valid()
    ensures results == Take(Filter(cache.Values(), query, category), SearchLimit(limit))
    ensures |results| <= SearchLimit(limit)
  {
    var values := cache.Values();
    results := [];
    var queryLower := Lower(query);
    var i := 0;
    while i < |values|
      invariant 0 <= i <= |values|
      invariant results == Filter(values[..i], query, category)
      invariant |results| < SearchLimit(limit)
    {
      var d := values[i];
      var matches := CheckMatch(d, query, queryLower, category);
      assert values[..i + 1] == values[..i] + [d];
      FilterSnoc(values[..i], d, query, category);
      if matches {
        results := results + [d];
        if |results| >= limit {
          SearchStopsEarly(values, i + 1, query, category, limit);
          return;
        }
      }
      i := i + 1;
    }
    assert values[..i] == values;
  }

  // ---------------------------------------------------------------------
  // Lookup

  /** The argument equals the name or the title, ignoring case. */
  predicate NameMatches(d: Dataset, key: string) {
    Lower(d.name) == Lower(key) || Lower(d.title) == Lower(key)
  }

  /** The index of the first dataset whose name or title matches. */
  function FirstNameMatch(ds: seq<Dataset>, key: string): (r: Option<nat>)
    ensures r.Some? ==> r.value < |ds| && NameMatches(ds[r.value], key) &&
                        forall j :: 0 <= j < r.value ==> !NameMatches(ds[j], key)
    ensures r.None? ==> forall j :: 0 <= j < |ds| ==> !NameMatches(ds[j], key)
    decreases |ds|
  {
    if ds == [] then None
    else if NameMatches(ds[0], key) then Some(0)
    else match FirstNameMatch(ds[1..], key)
      case None => None
      case Some(i) => Some(i + 1)
  }

  /** `_get_dataset_info`: an exact id first, then the first dataset in cache
      order whose name or title matches ignoring case, else "not found". */
  function LookupDataset(cache: OrderedMap<string, Dataset>, key: string): (r: Result<Dataset, string>)
    requires cache.Valid()
    ensures key in cache.entries ==> r == Ok(cache.entries[key])
    ensures key !in cache.entries && r.Ok? ==>
      exists i :: 0 <= i < |cache.keys| && r.value == cache.Values()[i] && NameMatches(r.value, key) &&
                  forall j :: 0 <= j < i ==> !NameMatches(cache.Values()[j], key)
    ensures r.Err? <==> key !in cache.entries && forall i :: 0 <= i < |cache.keys| ==> !NameMatches(cache.Values()[i], key)
    ensures r.Err? ==> r.error == "Dataset not found: " + key
  {
    if key in cache.entries then Ok(cache.entries[key])
    else
      match FirstNameMatch(cache.Values(), key)
      case Some(i) => Ok(cache.Values()[i])
      case None => Err("Dataset not found: " + key)
  }

  /** The lookup loop: the exact id, else a scan in cache order that stops
      at the first name or title match. */
  method FindDataset(cache: OrderedMap<string, Dataset>, key: string) returns (r: Result<Dataset, string>)
    requires cache.Valid()
    ensures r == LookupDataset(cache, key)
  {
    if key in cache.entries {
      return Ok(cache.entries[key]);
    }
    var values := cache.Values();
    var keyLower := Lower(key);
    var i := 0;
    while i < |values|
      invariant 0 <= i <= |values|
      invariant forall j :: 0 <= j < i ==> !NameMatches(values[j], key)
    {
      var d := values[i];
      if Lower(d.name) == keyLower || Lower(d.title) == keyLower {
        return Ok(d);
      }
      i := i + 1;
    }
    return Err("Dataset not found: " + key);
  }

  // ---------------------------------------------------------------------
  // Summary

  /** The result of `_list_municipal_services`. */
  datatype Summary = Summary(
    categories: OrderedMap<string, seq<string>>,
    serviceTypes: OrderedMap<string, int>,
    totalDatasets: int,
    totalServices: int)

  /** Appending `name` to the list of each category in `cats`, in order. */
  function AddCategories(index: OrderedMap<string, seq<string>>, cats: seq<string>, name: string): OrderedMap<string, seq<string>>
    decreases |cats|
  {
    if cats == [] then index
    else
      var idx := AddCategories(index, cats[..|cats| - 1], name);
      var c := cats[|cats| - 1];
      idx.Put(c, idx.Get(c, []) + [name])
  }

  /** The category index built over the datasets in order. */
  function CategoryIndex(ds: seq<Dataset>): OrderedMap<string, seq<string>>
    decreases |ds|
  {
    if ds == [] then Empty()
    else
      var d := ds[|ds| - 1];
      AddCategories(CategoryIndex(ds[..|ds| - 1]), d.categories, d.name)
  }

  function Increment(counts: OrderedMap<string, int>, t: string): OrderedMap<string, int> {
    counts.Put(t, counts.Get(t, 0) + 1)
  }

  /** The per-type counts built over the datasets in order. */
  function TypeCounts(ds: seq<Dataset>): OrderedMap<string, int>
    decreases |ds|
  {
    if ds == [] then Empty() else Increment(TypeCounts(ds[..|ds| - 1]), ds[|ds| - 1].serviceType)
  }

  function Occurrences(xs: seq<string>, x: string): nat
    decreases |xs|
  {
    if xs == [] then 0 else Occurrences(xs[..|xs| - 1], x) + (if xs[|xs| - 1] == x then 1 else 0)
  }

  function Repeat(x: string, n: nat): (r: seq<string>)
    ensures |r| == n && forall i :: 0 <= i < n ==> r[i] == x
  {
    seq(n, i => x)
  }

  /** Reference definition: the name of every dataset carrying category `c`,
      in order, once per occurrence of `c` among its categories. */
  function NamesIn(ds: seq<Dataset>, c: string): seq<string>
    decreases |ds|
  {
    if ds == [] then []
    else
      var d := ds[|ds| - 1];
      NamesIn(ds[..|ds| - 1], c) + Repeat(d.name, Occurrences(d.categories, c))
  }

  /** Reference definition: how many datasets have service type `t`. */
  function CountType(ds: seq<Dataset>, t: string): nat
    decreases |ds|
  {
    if ds == [] then 0 else CountType(ds[..|ds| - 1], t) + (if ds[|ds| - 1].serviceType == t then 1 else 0)
  }

  function SumOver(keys: seq<string>, e: map<string, int>): int
    decreases |keys|
  {
    if keys == [] then 0
    else SumOver(keys[..|keys| - 1], e) + (if keys[|keys| - 1] in e then e[keys[|keys| - 1]] else 0)
  }

  /** The sum of a dictionary's values. */
  function SumValues(m: OrderedMap<string, int>): int {
    SumOver(m.keys, m.entries)
  }

  lemma {:induction false} AddCategoriesGet(index: OrderedMap<string, seq<string>>, cats: seq<string>, name: string, c: string)
    ensures AddCategories(index, cats, name).Get(c, []) == index.Get(c, []) + Repeat(name, Occurrences(cats, c))
    ensures c in AddCategories(index, cats, name).entries <==> c in index.entries || c in cats
    ensures index.Valid() ==> AddCategories(index, cats, name).Valid()
    decreases |cats|
  {
    if cats != [] {
      var init := cats[..|cats| - 1];
      AddCategoriesGet(index, init, name, c);
      assert cats == init + [cats[|cats| - 1]];
      var n := Occurrences(init, c);
      if cats[|cats| - 1] == c {
        assert Repeat(name, n) + [name] == Repeat(name, n + 1);
      }
    }
  }

  /** Each category lists, in cache order, the name of every dataset that
      carries it, once per occurrence; the index has exactly the categories
      that occur. */
  lemma {:induction false} CategoryIndexNames(ds: seq<Dataset>, c: string)
    ensures CategoryIndex(ds).Get(c, []) == NamesIn(ds, c)
    ensures c in CategoryIndex(ds).entries <==> exists i :: 0 <= i < |ds| && c in ds[i].categories
    ensures CategoryIndex(ds).Valid()
    decreases |ds|
  {
    if ds != [] {
      var init := ds[..|ds| - 1];
      var d := ds[|ds| - 1];
      CategoryIndexNames(init, c);
      AddCategoriesGet(CategoryIndex(init), d.categories, d.name, c);
      if exists i :: 0 <= i < |init| && c in init[i].categories {
        var i :| 0 <= i < |init| && c in init[i].categories;
        assert ds[i] == init[i];
      }
      if exists i :: 0 <= i < |ds| && c in ds[i].categories {
        var i :| 0 <= i < |ds| && c in ds[i].categories;
        if i < |ds| - 1 {
          assert init[i] == ds[i];
        }
      }
    }
  }

  /** Each service type is counted once per dataset of that type; the counts
      have exactly the types that occur. */
  lemma {:induction false} TypeCountsCount(ds: seq<Dataset>, t: string)
    ensures TypeCounts(ds).Get(t, 0) == CountType(ds, t)
    ensures t in TypeCounts(ds).entries <==> exists i :: 0 <= i < |ds| && ds[i].serviceType == t
    ensures TypeCounts(ds).Valid()
    decreases |ds|
  {
    if ds != [] {
      var init := ds[..|ds| - 1];
      TypeCountsCount(init, t);
      if exists i :: 0 <= i < |init| && init[i].serviceType == t {
        var i :| 0 <= i < |init| && init[i].serviceType == t;
        assert ds[i] == init[i];
      }
      if exists i :: 0 <= i < |ds| && ds[i].serviceType == t {
        var i :| 0 <= i < |ds| && ds[i].serviceType == t;
        if i < |ds| - 1 {
          assert init[i] == ds[i];
        }
      }
    }
  }

  lemma {:induction false} SumOverUpdate(keys: seq<string>, e: map<string, int>, t: string, v: int)
    requires forall i, j :: 0 <= i < j < |keys| ==> keys[i] != keys[j]
    ensures SumOver(keys, e[t := v]) ==
            SumOver(keys, e) + (if t in keys then v - (if t in e then e[t] else 0) else 0)
    decreases |keys|
  {
    if keys != [] {
      var init := keys[..|keys| - 1];
      SumOverUpdate(init, e, t, v);
      assert keys == init + [keys[|keys| - 1]];
    }
  }

  lemma IncrementSum(counts: OrderedMap<string, int>, t: string)
    requires counts.Valid()
    ensures SumValues(Increment(counts, t)) == SumValues(counts) + 1
  {
    var v := counts.Get(t, 0) + 1;
    var r := Increment(counts, t);
    if t in counts.entries {
      SumOverUpdate(counts.keys, counts.entries, t, v);
    } else {
      SumOverUpdate(counts.keys, counts.entries, t, v);
      assert r.keys[..|r.keys| - 1] == counts.keys;
    }
  }

  /** The service-type counts add up to the number of datasets. */
  lemma {:induction false} TypeCountsSum(ds: seq<Dataset>)
    ensures SumValues(TypeCounts(ds)) == |ds|
    decreases |ds|
  {
    if ds != [] {
      var init := ds[..|ds| - 1];
      TypeCountsSum(init);
      TypeCountsCount(init, "");
      IncrementSum(TypeCounts(init), ds[|ds| - 1].serviceType);
    }
  }

  /** What the two folds mean: the category index lists names as `NamesIn`
      does, the type counts count as `CountType` does, and the counts add
      up to the number of datasets. */
  lemma SummaryMeaning(ds: seq<Dataset>)
    ensures SumValues(TypeCounts(ds)) == |ds|
    ensures forall c :: CategoryIndex(ds).Get(c, []) == NamesIn(ds, c)
    ensures forall t :: TypeCounts(ds).Get(t, 0) == CountType(ds, t)
  {
    TypeCountsSum(ds);
    forall c ensures CategoryIndex(ds).Get(c, []) == NamesIn(ds, c) {
      CategoryIndexNames(ds, c);
    }
    forall t ensures TypeCounts(ds).Get(t, 0) == CountType(ds, t) {
      TypeCountsCount(ds, t);
    }
  }

  /** One dataset's pass over its categories: a category seen for the first
      time gets an empty list, then the dataset's name is appended. */
  method IndexCategories(index: OrderedMap<string, seq<string>>, d: Dataset) returns (r: OrderedMap<string, seq<string>>)
    ensures r == AddCategories(index, d.categories, d.name)
  {
    r := index;
    var j := 0;
    while j < |d.categories|
      invariant 0 <= j <= |d.categories|
      invariant r == AddCategories(index, d.categories[..j], d.name)
    {
      var c := d.categories[j];
      assert d.categories[..j + 1][..j] == d.categories[..j];
      if c !in r.entries {
        r := r.Put(c, []);
      }
      r := r.Put(c, r.entries[c] + [d.name]);
      j := j + 1;
    }
    assert d.categories[..j] == d.categories;
  }

  /** One dataset's service type: a type seen for the first time starts at
      zero, then its count goes up by one. */
  method CountServiceType(counts: OrderedMap<string, int>, t: string) returns (r: OrderedMap<string, int>)
    ensures r == Increment(counts, t)
  {
    r := counts;
    if t !in r.entries {
      r := r.Put(t, 0);
    }
    r := r.Put(t, r.entries[t] + 1);
  }

  /** `_list_municipal_services` over the current cache; `servicesCount` is
      the number of cached services. */
  method Summarize(cache: OrderedMap<string, Dataset>, servicesCount: int) returns (s: Summary)
    requires cache.Valid()
    ensures s.categories == CategoryIndex(cache.Values())
    ensures s.serviceTypes == TypeCounts(cache.Values())
    ensures s.totalDatasets == |cache.keys| && s.totalServices == servicesCount
    ensures SumValues(s.serviceTypes) == s.totalDatasets
    ensures forall c :: s.categories.Get(c, []) == NamesIn(cache.Values(), c)
    ensures forall t :: s.serviceTypes.Get(t, 0) == CountType(cache.Values(), t)
  {
    var values := cache.Values();
    var categories: OrderedMap<string, seq<string>> := Empty();
    var serviceTypes: OrderedMap<string, int> := Empty();
    var i := 0;
    while i < |values|
      invariant 0 <= i <= |values|
      invariant categories == CategoryIndex(values[..i])
      invariant serviceTypes == TypeCounts(values[..i])
    {
      var d := values[i];
      assert values[..i + 1][..i] == values[..i] && values[..i + 1][i] == d;
      categories := IndexCategories(categories, d);
      serviceTypes := CountServiceType(serviceTypes, d.serviceType);
      i := i + 1;
    }
    assert values[..i] == values;
    s := Summary(categories, serviceTypes, |values|, servicesCount);
    SummaryMeaning(values);
  }
}
