// MeiliSearchResults: how a compiled search becomes multi-search queries,
// how facet distributions are merged, and how the ranked ids come back as
// a window of database rows. Querysets are sequences of primary keys; the
// server's replies are inputs.

module Results {
  import opened Common
  import opened Remote
  import Index

  // ---------------------------------------------------------------------
  // query_string

  /** The query node a search was compiled from; `OtherQuery` carries its `query_string` attribute, if it has one. */
  datatype QueryNode =
    | PlainText(text: string)
    | Phrase(text: string)
    | Fuzzy(text: string)
    | OtherQuery(attr: Option<string>)

  predicate IsTextQuery(q: QueryNode) { q.PlainText? || q.Phrase? || q.Fuzzy? }

  /** The `query_string` property: the text of a plain, phrase or fuzzy query, "" for anything else. */
  function QueryString(q: QueryNode): string
  {
    if IsTextQuery(q) then q.text else ""
  }

  /** `qc.query.query_string` read directly, as `facet` does: None where the attribute is missing. */
  function QueryAttr(q: QueryNode): Option<string>
  {
    if IsTextQuery(q) then Some(q.text) else q.attr
  }

  /** Where the facet search has terms, the property and the attribute agree on every text query. */
  lemma QueryStringAgrees(q: QueryNode)
    ensures IsTextQuery(q) ==> QueryAttr(q) == Some(QueryString(q))
    ensures !IsTextQuery(q) ==> QueryString(q) == "" && QueryAttr(q) == q.attr
  {
  }

  // ---------------------------------------------------------------------
  // filter

  /** One element of the `filters` argument: a tuple of its components, or something that is not a tuple. */
  datatype FilterArg = Tuple(elems: seq<string>) | NotTuple

  datatype FilterError = NoFilters | InvalidItem(index: nat)

  predicate IsPair(a: FilterArg) { a.Tuple? && |a.elems| == 2 }

  function AsPairs(filters: seq<FilterArg>): seq<(string, string)>
    requires forall i :: 0 <= i < |filters| ==> IsPair(filters[i])
  {
    if filters == [] then []
    else
      assert IsPair(filters[0]);
      [(filters[0].elems[0], filters[0].elems[1])] + AsPairs(filters[1..])
  }

  function FirstInvalid(filters: seq<FilterArg>, from: nat): (r: Option<nat>)
    requires from <= |filters|
    decreases |filters| - from
  {
    if from == |filters| then None
    else if !IsPair(filters[from]) then Some(from)
    else FirstInvalid(filters, from + 1)
  }

  /** `filter`'s checks, made before any search: a non-empty list of 2-tuples. */
  function CheckFilters(filters: seq<FilterArg>): (r: Result<seq<(string, string)>, FilterError>)
  {
    if filters == [] then Err(NoFilters)
    else match FirstInvalid(filters, 0)
      case Some(i) => Err(InvalidItem(i))
      case None =>
        FirstInvalidNone(filters, 0);
        Ok(AsPairs(filters))
  }

  lemma {:induction false} FirstInvalidNone(filters: seq<FilterArg>, from: nat)
    requires from <= |filters|
    decreases |filters| - from
    ensures FirstInvalid(filters, from).None? <==> forall i :: from <= i < |filters| ==> IsPair(filters[i])
    ensures FirstInvalid(filters, from).Some? ==>
      var k := FirstInvalid(filters, from).value;
      from <= k < |filters| && !IsPair(filters[k]) && forall i :: from <= i < k ==> IsPair(filters[i])
  {
    if from < |filters| {
      FirstInvalidNone(filters, from + 1);
    }
  }

  lemma {:induction false} AsPairsAt(filters: seq<FilterArg>)
    requires forall i :: 0 <= i < |filters| ==> IsPair(filters[i])
    ensures |AsPairs(filters)| == |filters|
    ensures forall i :: 0 <= i < |filters| ==> AsPairs(filters)[i] == (filters[i].elems[0], filters[i].elems[1])
  {
    if filters != [] {
      AsPairsAt(filters[1..]);
      assert forall i :: 1 <= i < |filters| ==> filters[1..][i - 1] == filters[i];
    }
  }

  /**
   * The empty list is refused; otherwise the first element that is not a
   * 2-tuple is reported; otherwise every element is passed on as a pair, in order.
   */
  lemma CheckFiltersSpec(filters: seq<FilterArg>)
    ensures CheckFilters(filters) == Err(NoFilters) <==> filters == []
    ensures CheckFilters(filters).Ok? <==> filters != [] && forall i :: 0 <= i < |filters| ==> IsPair(filters[i])
    ensures forall k: nat :: CheckFilters(filters) == Err(InvalidItem(k)) ==>
      k < |filters| && !IsPair(filters[k]) && forall i :: 0 <= i < k ==> IsPair(filters[i])
    ensures CheckFilters(filters).Ok? ==>
      |CheckFilters(filters).value| == |filters| &&
      forall i :: 0 <= i < |filters| ==> CheckFilters(filters).value[i] == (filters[i].elems[0], filters[i].elems[1])
  {
    FirstInvalidNone(filters, 0);
    if CheckFilters(filters).Ok? {
      AsPairsAt(filters);
    }
  }

  // ---------------------------------------------------------------------
  // _build_queries

  /** An index the server reports, with the filterable attributes it reports. */
  datatype ActiveIndex = ActiveIndex(uid: string, filterable: seq<string>)

  function FilterName(field: string): string { field + "_filter" }

  /** `f"{filter_field} = '{filter_value}'"` */
  function Clause(p: (string, string)): string
  {
    FilterName(p.0) + " = '" + p.1 + "'"
  }

  predicate Supported(filterable: seq<string>, p: (string, string))
  {
    FilterName(p.0) in filterable
  }

  function FilterClauses(filters: seq<(string, string)>, filterable: seq<string>): seq<string>
  {
    Map(Clause, Filter((p: (string, string)) => Supported(filterable, p), filters))
  }

  function FilterExpression(filters: seq<(string, string)>, filterable: seq<string>, operator: string): string
  {
    Join(" " + operator + " ", FilterClauses(filters, filterable))
  }

  /** `{"indexUid": uid, "q": terms, **search_params}`, then the `filter` key when filters were given. */
  function Query(index: ActiveIndex, terms: string, filters: seq<(string, string)>, operator: string, searchParams: Params): Params
  {
    var q := map["indexUid" := PStr(index.uid), "q" := PStr(terms)] + searchParams;
    if |filters| > 0 then q["filter" := PStr(FilterExpression(filters, index.filterable, operator))] else q
  }

  /**
   * Each query carries every search parameter (later keys of the literal
   * win, so a parameter named `indexUid` or `q` overrides those), the uid
   * and the terms otherwise, and a `filter` key exactly when filters were
   * given, in which case it holds the joined clauses.
   */
  lemma QueryContents(index: ActiveIndex, terms: string, filters: seq<(string, string)>, operator: string, sp: Params)
    ensures var q := Query(index, terms, filters, operator, sp);
      && (forall k :: k in sp && (k != "filter" || filters == []) ==> k in q && q[k] == sp[k])
      && ("indexUid" !in sp ==> q["indexUid"] == PStr(index.uid))
      && ("q" !in sp ==> q["q"] == PStr(terms))
      && (filters != [] ==> q["filter"] == PStr(FilterExpression(filters, index.filterable, operator)))
      && (filters == [] ==> ("filter" in q <==> "filter" in sp))
      && q.Keys == {"indexUid", "q"} + sp.Keys + (if filters != [] then {"filter"} else {})
  {
  }

  /** A clause is produced for a pair exactly when the index lists the pair's `_filter` name. */
  lemma FilterClausesExact(filters: seq<(string, string)>, filterable: seq<string>)
    ensures forall c :: c in FilterClauses(filters, filterable) <==>
      exists p :: p in filters && Supported(filterable, p) && c == Clause(p)
  {
    var sel := (p: (string, string)) => Supported(filterable, p);
    var kept := Filter(sel, filters);
    FilterMembers(sel, filters);
    var clauses := Map(Clause, kept);
    forall c ensures c in clauses <==> exists p :: p in filters && Supported(filterable, p) && c == Clause(p)
    {
      if c in clauses {
        var i :| 0 <= i < |kept| && clauses[i] == c;
        assert kept[i] in kept;
      }
      if exists p :: p in filters && Supported(filterable, p) && c == Clause(p) {
        var p :| p in filters && Supported(filterable, p) && c == Clause(p);
        assert p in kept;
        var i :| 0 <= i < |kept| && kept[i] == p;
        assert clauses[i] == c;
      }
    }
  }

  /** Filters none of which the index supports give the empty expression. */
  lemma NoSupportedFilters(filters: seq<(string, string)>, filterable: seq<string>, operator: string)
    requires forall p :: p in filters ==> !Supported(filterable, p)
    ensures FilterExpression(filters, filterable, operator) == ""
  {
    var sel := (p: (string, string)) => Supported(filterable, p);
    var kept := Filter(sel, filters);
    FilterMembers(sel, filters);
    assert forall i :: 0 <= i < |kept| ==> kept[i] in kept;
  }

  lemma FilterClausesSnoc(filters: seq<(string, string)>, p: (string, string), filterable: seq<string>)
    ensures FilterClauses(filters + [p], filterable) ==
      FilterClauses(filters, filterable) + (if FilterName(p.0) in filterable then [Clause(p)] else [])
  {
    var sel := (p: (string, string)) => Supported(filterable, p);
    FilterConcat(sel, filters, [p]);
    assert Filter(sel, [p]) == (if sel(p) then [p] else []) + Filter(sel, []);
    MapConcat(Clause, Filter(sel, filters), Filter(sel, [p]));
  }

  /** The inner loop of `_build_queries`: one clause per filter whose field the index can filter on, in order. */
  method FilterList(filters: seq<(string, string)>, filterable: seq<string>) returns (filterList: seq<string>)
    ensures filterList == FilterClauses(filters, filterable)
  {
    filterList := [];
    var j := 0;
    ghost var done: seq<(string, string)> := [];
    while j < |filters|
      invariant 0 <= j <= |filters| && done == filters[..j]
      invariant filterList == FilterClauses(done, filterable)
    {
      FilterClausesSnoc(done, filters[j], filterable);
      var filterField := FilterName(filters[j].0);
      if filterField in filterable {
        filterList := filterList + [filterField + " = '" + filters[j].1 + "'"];
      }
      assert filters[..j + 1] == done + [filters[j]];
      done := done + [filters[j]];
      j := j + 1;
    }
    assert done == filters;
  }

  /** The body of the `_build_queries` loop: the query for one index. */
  method BuildQuery(index: ActiveIndex, terms: string, filters: seq<(string, string)>, operator: string,
                    searchParams: Params) returns (q: Params)
    ensures q == Query(index, terms, filters, operator, searchParams)
  {
    q := map["indexUid" := PStr(index.uid), "q" := PStr(terms)] + searchParams;
    if |filters| > 0 {
      var filterList := FilterList(filters, index.filterable);
      q := q["filter" := PStr(Join(" " + operator + " ", filterList))];
    }
  }

  /** `_build_queries`: one query per active index, in the order the server lists them. */
  method BuildQueries(active: seq<ActiveIndex>, terms: string, filters: seq<(string, string)>, operator: string,
                      searchParams: Params) returns (queries: seq<Params>)
    ensures |queries| == |active|
    ensures forall i :: 0 <= i < |active| ==> queries[i] == Query(active[i], terms, filters, operator, searchParams)
  {
    queries := [];
    var i := 0;
    while i < |active|
      invariant 0 <= i <= |active|
      invariant |queries| == i
      invariant forall m :: 0 <= m < i ==> queries[m] == Query(active[m], terms, filters, operator, searchParams)
    {
      var q := BuildQuery(active[i], terms, filters, operator, searchParams);
      queries := queries + [q];
      i := i + 1;
    }
  }

  // ---------------------------------------------------------------------
  // facet

  /** An OrderedDict of value counts, as its items in order. */
  type Dist = seq<(string, int)>

  predicate UniqueKeys(d: Dist)
  {
    forall i, j :: 0 <= i < j < |d| ==> d[i].0 != d[j].0
  }

  function DistLookup(d: Dist, k: string): Option<int>
  {
    if d == [] then None
    else if d[|d| - 1].0 == k then Some(d[|d| - 1].1)
    else DistLookup(d[..|d| - 1], k)
  }

  /** `d[k] = v`: an existing key keeps its place and takes the new count; a new key goes last. */
  function SetCount(d: Dist, k: string, v: int): (r: Dist)
    ensures |r| == |d| || |r| == |d| + 1
  {
    if d == [] then [(k, v)]
    else if d[0].0 == k then [(k, v)] + d[1..]
    else [d[0]] + SetCount(d[1..], k, v)
  }

  /** `d.update(kvs)`, one item after the other. */
  function UpdateWith(d: Dist, kvs: Dist): Dist
    decreases |kvs|
  {
    if kvs == [] then d else UpdateWith(SetCount(d, kvs[0].0, kvs[0].1), kvs[1..])
  }

  function Keys(d: Dist): set<string>
  {
    set i | 0 <= i < |d| :: d[i].0
  }

  /** The keys of a dict with one item in front. */
  lemma KeysCons(e: (string, int), t: Dist)
    ensures Keys([e] + t) == {e.0} + Keys(t)
  {
    var r := [e] + t;
    forall x | x in Keys(r) ensures x in {e.0} + Keys(t) {
      var i :| 0 <= i < |r| && r[i].0 == x;
      if i > 0 { assert t[i - 1].0 == x; }
    }
    forall x | x in {e.0} + Keys(t) ensures x in Keys(r) {
      if x != e.0 {
        var i :| 0 <= i < |t| && t[i].0 == x;
        assert r[i + 1].0 == x;
      } else {
        assert r[0].0 == x;
      }
    }
  }

  /** A dict with one item in front has distinct keys exactly when its rest does and lacks that key. */
  lemma UniqueKeysCons(e: (string, int), t: Dist)
    ensures UniqueKeys([e] + t) <==> e.0 !in Keys(t) && UniqueKeys(t)
  {
    var r := [e] + t;
    if UniqueKeys(r) {
      forall i, j | 0 <= i < j < |t| ensures t[i].0 != t[j].0 {
        assert r[i + 1] == t[i] && r[j + 1] == t[j];
      }
      forall i | 0 <= i < |t| ensures t[i].0 != e.0 {
        assert r[0] == e && r[i + 1] == t[i];
        assert r[0].0 != r[i + 1].0;
      }
    }
    if e.0 !in Keys(t) && UniqueKeys(t) {
      forall i, j | 0 <= i < j < |r| ensures r[i].0 != r[j].0 {
        if i == 0 {
          assert r[j] == t[j - 1];
          assert t[j - 1].0 in Keys(t);
        } else {
          assert r[i] == t[i - 1] && r[j] == t[j - 1];
        }
      }
    }
  }

  lemma {:induction false} SetCountFacts(d: Dist, k: string, v: int)
    requires UniqueKeys(d)
    ensures UniqueKeys(SetCount(d, k, v))
    ensures Keys(SetCount(d, k, v)) == Keys(d) + {k}
    ensures forall x :: LookupFirst(SetCount(d, k, v), x) == if x == k then Some(v) else LookupFirst(d, x)
  {
    if d == [] {
      KeysCons((k, v), []);
      UniqueKeysCons((k, v), []);
      assert [(k, v)] + [] == [(k, v)];
    } else {
      var t := d[1..];
      assert d == [d[0]] + t;
      KeysCons(d[0], t);
      UniqueKeysCons(d[0], t);
      if d[0].0 == k {
        KeysCons((k, v), t);
        UniqueKeysCons((k, v), t);
      } else {
        SetCountFacts(t, k, v);
        var st := SetCount(t, k, v);
        KeysCons(d[0], st);
        UniqueKeysCons(d[0], st);
        assert SetCount(d, k, v) == [d[0]] + st;
      }
    }
  }

  /** The count for `k` in an ordered dict (its items have distinct keys, so the first is the only one). */
  function LookupFirst(d: Dist, k: string): Option<int>
  {
    if d == [] then None
    else if d[0].0 == k then Some(d[0].1)
    else LookupFirst(d[1..], k)
  }

  /** The count the last item for `k` carries, if any. */
  function LastCount(kvs: Dist, k: string): Option<int>
  {
    DistLookup(kvs, k)
  }

  lemma {:induction false} LastCountCons(kv: (string, int), rest: Dist, k: string)
    ensures LastCount([kv] + rest, k) ==
      if LastCount(rest, k).Some? then LastCount(rest, k) else if kv.0 == k then Some(kv.1) else None
  {
    var s := [kv] + rest;
    if rest != [] {
      assert s[..|s| - 1] == [kv] + rest[..|rest| - 1];
      assert s[|s| - 1] == rest[|rest| - 1];
      LastCountCons(kv, rest[..|rest| - 1], k);
    } else {
      assert s[..|s| - 1] == [];
    }
  }

  /** After `update`, each key keeps the last count given for it, or its old count when none was given. */
  lemma {:induction false} UpdateWithFacts(d: Dist, kvs: Dist)
    requires UniqueKeys(d)
    decreases |kvs|
    ensures UniqueKeys(UpdateWith(d, kvs))
    ensures forall x ::
      LookupFirst(UpdateWith(d, kvs), x) == (if LastCount(kvs, x).Some? then LastCount(kvs, x) else LookupFirst(d, x))
  {
    if kvs != [] {
      SetCountFacts(d, kvs[0].0, kvs[0].1);
      UpdateWithFacts(SetCount(d, kvs[0].0, kvs[0].1), kvs[1..]);
      assert kvs == [kvs[0]] + kvs[1..];
      forall x ensures LastCount(kvs, x) ==
        if LastCount(kvs[1..], x).Some? then LastCount(kvs[1..], x) else if kvs[0].0 == x then Some(kvs[0].1) else None
      {
        LastCountCons(kvs[0], kvs[1..], x);
      }
    }
  }

  /**
   * One descendant model's part in a facet: whether its index lists the
   * filter attribute, and the value counts its reply carries for it
   * (None when the reply has no such distribution).
   */
  datatype FacetSource = FacetSource(filterable: seq<string>, distribution: Option<Dist>)

  predicate Contributes(s: FacetSource, filterField: string)
  {
    filterField in s.filterable && s.distribution.Some?
  }

  /** The merged distribution after the first `n` models. */
  function Merged(sources: seq<FacetSource>, filterField: string): Dist
  {
    if sources == [] then []
    else
      var acc := Merged(sources[..|sources| - 1], filterField);
      var s := sources[|sources| - 1];
      if Contributes(s, filterField) then UpdateWith(acc, s.distribution.value) else acc
  }

  /** The count of `k` from the last model whose distribution mentions it. */
  function LastSourceCount(sources: seq<FacetSource>, filterField: string, k: string): Option<int>
  {
    if sources == [] then None
    else
      var s := sources[|sources| - 1];
      if Contributes(s, filterField) && LastCount(s.distribution.value, k).Some? then LastCount(s.distribution.value, k)
      else LastSourceCount(sources[..|sources| - 1], filterField, k)
  }

  /**
   * Counts are not summed across models: the merged count of a value is the
   * one the last contributing model reported, and each value appears once.
   */
  lemma {:induction false} MergedLastWins(sources: seq<FacetSource>, filterField: string)
    ensures UniqueKeys(Merged(sources, filterField))
    ensures forall k :: LookupFirst(Merged(sources, filterField), k) == LastSourceCount(sources, filterField, k)
  {
    if sources != [] {
      var init := sources[..|sources| - 1];
      MergedLastWins(init, filterField);
      var s := sources[|sources| - 1];
      if Contributes(s, filterField) {
        UpdateWithFacts(Merged(init, filterField), s.distribution.value);
      }
    }
  }

  function Count(p: (string, int)): int { p.1 }

  /** `facet`: None without a query string, else the merged counts sorted by count, highest first. */
  function Facet(query: QueryNode, fieldName: string, sources: seq<FacetSource>): Option<Dist>
  {
    if QueryAttr(query).None? then None
    else Some(SortDesc(Merged(sources, FilterName(fieldName)), Count))
  }

  /**
   * The facet is absent exactly when the query has no query string;
   * otherwise it is the merged distribution reordered by descending count,
   * equal counts keeping their merged order.
   */
  lemma FacetSpec(query: QueryNode, fieldName: string, sources: seq<FacetSource>)
    ensures Facet(query, fieldName, sources).None? <==> QueryAttr(query).None?
    ensures Facet(query, fieldName, sources).Some? ==>
      var r := Facet(query, fieldName, sources).value;
      var m := Merged(sources, FilterName(fieldName));
      && Descending(r, Count)
      && multiset(r) == multiset(m)
      && forall c :: WithKey(r, Count, c) == WithKey(m, Count, c)
  {
    SortDescFacts(Merged(sources, FilterName(fieldName)), Count);
  }

  /** Some descendant model's index lists the filter attribute, so `facet` searched it. */
  predicate AnySearched(sources: seq<FacetSource>, filterField: string)
  {
    exists i :: 0 <= i < |sources| && filterField in sources[i].filterable
  }

  /** The extra parameters each of `facet`'s searches passes: `{"facets": [filter_field]}`. */
  function FacetExtras(filterField: string): Params
  {
    map["facets" := PStrs([filterField])]
  }

  /**
   * `facet` with its loop over the descendant models. Each search it makes
   * merges its extras into the backend's shared search parameters, so after
   * a facet in which some index was searched, those parameters carry
   * `"facets"`, and every later query of the backend sends it along.
   */
  method FacetOf(query: QueryNode, fieldName: string, sources: seq<FacetSource>, backendParams: Index.SearchParams)
    returns (r: Option<Dist>)
    modifies backendParams
    ensures r == Facet(query, fieldName, sources)
    ensures backendParams.params ==
      if QueryAttr(query).Some? && AnySearched(sources, FilterName(fieldName))
      then old(backendParams.params) + FacetExtras(FilterName(fieldName))
      else old(backendParams.params)
  {
    var terms := QueryAttr(query);
    if terms.None? {
      return None;
    }
    var filterField := FilterName(fieldName);
    ghost var before := backendParams.params;
    var results: Dist := [];
    var i := 0;
    while i < |sources|
      invariant 0 <= i <= |sources|
      invariant results == Merged(sources[..i], filterField)
      invariant backendParams.params ==
        if AnySearched(sources[..i], filterField) then before + FacetExtras(filterField) else before
    {
      assert sources[..i + 1][..i] == sources[..i];
      assert AnySearched(sources[..i + 1], filterField) <==>
        AnySearched(sources[..i], filterField) || filterField in sources[i].filterable
      by {
        if AnySearched(sources[..i + 1], filterField) {
          var j :| 0 <= j < i + 1 && filterField in sources[..i + 1][j].filterable;
          if j < i {
            assert filterField in sources[..i][j].filterable;
          }
        }
        if filterField in sources[i].filterable {
          assert filterField in sources[..i + 1][i].filterable;
        }
        if AnySearched(sources[..i], filterField) {
          var j :| 0 <= j < i && filterField in sources[..i][j].filterable;
          assert filterField in sources[..i + 1][j].filterable;
        }
      }
      var s := sources[i];
      if filterField in s.filterable {
        backendParams.params := backendParams.params + FacetExtras(filterField);
        assert before + FacetExtras(filterField) + FacetExtras(filterField) == before + FacetExtras(filterField);
        if s.distribution.Some? {
          results := UpdateWith(results, s.distribution.value);
        }
      }
      i := i + 1;
    }
    assert sources[..i] == sources;
    r := Some(SortDesc(results, Count));
  }

  /** After such a facet, the next query of the backend asks for the facet attribute too. */
  lemma FacetsReachLaterQueries(index: ActiveIndex, terms: string, operator: string, sp: Params, filterField: string)
    ensures var q := Query(index, terms, [], operator, sp + FacetExtras(filterField));
      "facets" in q && q["facets"] == PStrs([filterField])
  {
    QueryContents(index, terms, [], operator, sp + FacetExtras(filterField));
  }

  // ---------------------------------------------------------------------
  // _do_search

  /** One ranked hit: a primary key and its ranking score. */
  type Ranked = (int, int)

  function RankedId(p: Ranked): int { p.0 }

  /** `id_to_score`: a dict comprehension, so the last pair for an id wins; 0 for an id not ranked. */
  function ScoreOf(ranked: seq<Ranked>, pk: int): int
  {
    if ranked == [] then 0
    else if ranked[|ranked| - 1].0 == pk then ranked[|ranked| - 1].1
    else ScoreOf(ranked[..|ranked| - 1], pk)
  }

  /** `distinct()` keeps the first of equal rows and never reorders, so a descending order survives it. */
  lemma {:induction false} DedupDescending(s: seq<int>, key: int -> int)
    requires Descending(s, key)
    ensures Descending(Dedup(s), key)
  {
    if s != [] {
      var init := s[..|s| - 1];
      var last := s[|s| - 1];
      assert Descending(init, key) by {
        forall i, j | 0 <= i < j < |init| ensures key(init[i]) >= key(init[j]) {
          assert init[i] == s[i] && init[j] == s[j];
        }
      }
      DedupDescending(init, key);
      DedupFacts(init);
      var d := Dedup(init);
      if last !in d {
        var r := d + [last];
        forall i, j | 0 <= i < j < |r| ensures key(r[i]) >= key(r[j]) {
          if j == |d| {
            assert r[i] == d[i] && d[i] in d;
            var q :| 0 <= q < |init| && init[q] == r[i];
            assert s[q] == r[i];
          } else {
            assert r[i] == d[i] && r[j] == d[j];
          }
        }
      }
    }
  }

  /** Rows ordered by descending score when relevance ordering applies. */
  function RankOrder(ranked: seq<Ranked>, rows: seq<int>, orderByRelevance: bool): seq<int>
  {
    if orderByRelevance && ranked != [] then SortDesc(rows, (pk: int) => ScoreOf(ranked, pk)) else rows
  }

  /**
   * `_do_search` after the multi-search: the window `[start:stop]` of the
   * ranked ids selects the rows, relevance ordering sorts them by score,
   * and `distinct()` drops repeated rows.
   */
  function DoSearch(ranked: seq<Ranked>, rows: seq<int>, start: Option<int>, stop: Option<int>,
                    orderByRelevance: bool): seq<int>
  {
    var window := Slice(Map(RankedId, ranked), start, stop);
    var kept := Filter((pk: int) => pk in window, rows);
    Dedup(RankOrder(ranked, kept, orderByRelevance))
  }

  lemma RankOrderFacts(ranked: seq<Ranked>, rows: seq<int>, orderByRelevance: bool)
    ensures forall x :: x in RankOrder(ranked, rows, orderByRelevance) <==> x in rows
    ensures orderByRelevance && ranked != [] ==>
      Descending(RankOrder(ranked, rows, orderByRelevance), (pk: int) => ScoreOf(ranked, pk))
  {
    if orderByRelevance && ranked != [] {
      var ordered := RankOrder(ranked, rows, orderByRelevance);
      SortDescFacts(rows, (pk: int) => ScoreOf(ranked, pk));
      assert forall x :: x in ordered <==> x in multiset(ordered);
      assert forall x :: x in rows <==> x in multiset(rows);
    }
  }

  /**
   * The result holds each row of the queryset that falls in the window of
   * ranked ids, once, and nothing else; under relevance ordering the scores
   * never increase along it, and otherwise it keeps the queryset's order.
   */
  lemma DoSearchSpec(ranked: seq<Ranked>, rows: seq<int>, start: Option<int>, stop: Option<int>, orderByRelevance: bool)
    ensures var r := DoSearch(ranked, rows, start, stop, orderByRelevance);
      var window := Slice(Map(RankedId, ranked), start, stop);
      && (forall x :: x in r <==> x in rows && x in window)
      && (forall i, j :: 0 <= i < j < |r| ==> r[i] != r[j])
      && (orderByRelevance && ranked != [] ==> Descending(r, (pk: int) => ScoreOf(ranked, pk)))
      && (!orderByRelevance || ranked == [] ==> KeepsOrder(r, rows))
  {
    var window := Slice(Map(RankedId, ranked), start, stop);
    var kept := Filter((pk: int) => pk in window, rows);
    FilterMembers((pk: int) => pk in window, rows);
    RankOrderFacts(ranked, kept, orderByRelevance);
    var ordered := RankOrder(ranked, kept, orderByRelevance);
    DedupFacts(ordered);
    if orderByRelevance && ranked != [] {
      DedupDescending(ordered, (pk: int) => ScoreOf(ranked, pk));
    } else {
      DedupFilterKeepsOrder((pk: int) => pk in window, rows);
    }
  }

  // ---------------------------------------------------------------------
  // _do_count

  class SearchResults {
    /** `_count_cache`; None and 0 are both falsy, so 0 stands for both. */
    var countCache: int
    /** `_results_cache`, as primary keys. */
    var resultsCache: seq<int>
    /** How many times `_do_search` has run through this object. */
    var searches: nat

    constructor ()
      ensures countCache == 0 && resultsCache == [] && searches == 0
    {
      countCache := 0;
      resultsCache := [];
      searches := 0;
    }

    /**
     * `_do_count`: a truthy count cache answers; else a non-empty results
     * cache answers with its length; else one search fills both caches.
     * `found` is what that search would return.
     */
    method DoCount(found: seq<int>) returns (n: int)
      modifies this
      ensures old(countCache) != 0 ==>
        n == old(countCache) && countCache == old(countCache) && resultsCache == old(resultsCache) && searches == old(searches)
      ensures old(countCache) == 0 && old(resultsCache) != [] ==>
        n == |old(resultsCache)| && countCache == old(countCache) && resultsCache == old(resultsCache) && searches == old(searches)
      ensures old(countCache) == 0 && old(resultsCache) == [] ==>
        n == |found| && countCache == |found| && resultsCache == found && searches == old(searches) + 1
    {
      if countCache != 0 {
        return countCache;
      }
      if resultsCache != [] {
        return |resultsCache|;
      }
      searches := searches + 1;
      countCache := |found|;
      resultsCache := found;
      n := countCache;
    }
  }

  /** A second count after a search that found something is answered from the cache, with the same number. */
  method CountIsCached(r: SearchResults, found: seq<int>, later: seq<int>) returns (first: int, second: int)
    requires r.countCache == 0 && r.resultsCache == [] && found != []
    modifies r
    ensures first == second == |found| && r.searches == old(r.searches) + 1
  {
    first := r.DoCount(found);
    second := r.DoCount(later);
  }

  /**
   * A search that found nothing leaves both caches falsy, so the next
   * count runs the search again and may give another number.
   */
  method EmptyCountIsNotCached(r: SearchResults, later: seq<int>) returns (first: int, second: int)
    requires r.countCache == 0 && r.resultsCache == []
    modifies r
    ensures first == 0 && second == |later| && r.searches == old(r.searches) + 2
  {
    first := r.DoCount([]);
    second := r.DoCount(later);
  }
}
