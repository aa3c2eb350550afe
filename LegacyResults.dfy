// The earlier revision's MeiliSearchResults: no facets, one sub-query per
// descendant model's index, hits scored here by their match lengths
// weighted by field boosts, the window cut from the globally sorted ids
// before the rows are fetched, rows ordered by their position in that
// window, and a count summed over count-only sub-queries.

module LegacyResults {
  import opened Common
  import opened Fields
  import opened Labels
  import opened Remote
  import Results

  /** `supports_facet`: the earlier revision has no facet search. */
  const SUPPORTS_FACET := false

  // ---------------------------------------------------------------------
  // _get_field_boosts

  /** `hasattr(field, 'boost')`: only search and autocomplete fields carry one. */
  predicate HasBoost(f: Field)
  {
    (f.SearchField? || f.AutocompleteField?) && f.boost != NoBoost
  }

  /** `boosts[field.field_name] = field.boost` over the declared fields; a later field wins. */
  function FieldBoosts(fields: seq<Field>): map<string, Boost>
  {
    if fields == [] then map[]
    else
      var last := fields[|fields| - 1];
      FieldBoosts(fields[..|fields| - 1]) + (if HasBoost(last) then map[last.name := last.boost] else map[])
  }

  /**
   * A name has a boost exactly when some field carrying a boost has that
   * (unsuffixed) name, and the boost is the one of the last such field.
   */
  lemma {:induction false} FieldBoostsSpec(fields: seq<Field>, k: string)
    ensures k in FieldBoosts(fields) <==> exists i :: 0 <= i < |fields| && HasBoost(fields[i]) && fields[i].name == k
    ensures k in FieldBoosts(fields) ==>
      exists i :: 0 <= i < |fields| && HasBoost(fields[i]) && fields[i].name == k
        && FieldBoosts(fields)[k] == fields[i].boost
        && forall j :: i < j < |fields| ==> !(HasBoost(fields[j]) && fields[j].name == k)
  {
    if fields != [] {
      var init := fields[..|fields| - 1];
      var last := fields[|fields| - 1];
      FieldBoostsSpec(init, k);
      if HasBoost(last) && last.name == k {
        assert FieldBoosts(fields)[k] == last.boost;
      } else {
        assert k in FieldBoosts(fields) <==> k in FieldBoosts(init);
        if k in FieldBoosts(init) {
          var i :| 0 <= i < |init| && HasBoost(init[i]) && init[i].name == k
            && FieldBoosts(init)[k] == init[i].boost
            && forall j :: i < j < |init| ==> !(HasBoost(init[j]) && init[j].name == k);
          assert fields[i] == init[i];
          assert forall j :: i < j < |fields| ==> !(HasBoost(fields[j]) && fields[j].name == k) by {
            forall j | i < j < |fields| ensures !(HasBoost(fields[j]) && fields[j].name == k) {
              if j < |init| { assert fields[j] == init[j]; }
            }
          }
        }
        if exists i :: 0 <= i < |fields| && HasBoost(fields[i]) && fields[i].name == k {
          var i :| 0 <= i < |fields| && HasBoost(fields[i]) && fields[i].name == k;
          assert i < |init| && init[i] == fields[i];
        }
      }
    }
  }

  // ---------------------------------------------------------------------
  // Scoring

  /** `item['boosts'].get(key, 1) or 1`: a missing, None or zero boost weighs 1. */
  function Weight(boosts: map<string, Boost>, key: string): (r: int)
    ensures r != 0
  {
    if key !in boosts then 1
    else match boosts[key]
      case BoostOf(v) => if v == 0 then 1 else v
      case _ => 1
  }

  /** A weight is the boost itself when that is a non-zero number, and 1 in every other case. */
  lemma WeightSpec(boosts: map<string, Boost>, key: string)
    ensures (key in boosts && boosts[key].BoostOf? && boosts[key].v != 0) ==> Weight(boosts, key) == boosts[key].v
    ensures !(key in boosts && boosts[key].BoostOf? && boosts[key].v != 0) ==> Weight(boosts, key) == 1
  {
  }

  /**
   * One hit of a sub-query: its primary key and, per key of
   * `_matchesPosition`, the length of the printed match list. The lengths
   * are inputs: they depend on Python's rendering of the match structure.
   */
  datatype Hit = Hit(id: int, matches: seq<(string, nat)>)

  /** A hit together with the boosts of the index it came from. */
  datatype Tagged = Tagged(hit: Hit, boosts: map<string, Boost>)

  /** The weighted sum over the match keys, accumulated in key order. */
  function MatchScore(matches: seq<(string, nat)>, boosts: map<string, Boost>): int
  {
    if matches == [] then 0
    else
      var last := matches[|matches| - 1];
      MatchScore(matches[..|matches| - 1], boosts) + last.1 * Weight(boosts, last.0)
  }

  function TotalLength(matches: seq<(string, nat)>): nat
  {
    if matches == [] then 0 else TotalLength(matches[..|matches| - 1]) + matches[|matches| - 1].1
  }

  /** Where no matched key is boosted, the score is the total length of the matches, so never negative. */
  lemma {:induction false} UnboostedScore(matches: seq<(string, nat)>, boosts: map<string, Boost>)
    requires forall i :: 0 <= i < |matches| ==> matches[i].0 !in boosts
    ensures MatchScore(matches, boosts) == TotalLength(matches) >= 0
  {
    if matches != [] {
      var init := matches[..|matches| - 1];
      assert forall i :: 0 <= i < |init| ==> init[i] == matches[i];
      UnboostedScore(init, boosts);
    }
  }

  /** A scored hit: its primary key and its score. */
  type Scored = (int, int)

  function ScoredId(s: Scored): int { s.0 }

  function ScoreKey(s: Scored): int { s.1 }

  /** The scoring loop: each hit's score is the weighted sum over its matches. */
  method ScoreHits(hits: seq<Tagged>) returns (scored: seq<Scored>)
    ensures |scored| == |hits|
    ensures forall i :: 0 <= i < |hits| ==> scored[i] == (hits[i].hit.id, MatchScore(hits[i].hit.matches, hits[i].boosts))
  {
    scored := [];
    var i := 0;
    while i < |hits|
      invariant 0 <= i <= |hits| && |scored| == i
      invariant forall k :: 0 <= k < i ==> scored[k] == (hits[k].hit.id, MatchScore(hits[k].hit.matches, hits[k].boosts))
    {
      var matches := hits[i].hit.matches;
      var boosts := hits[i].boosts;
      var score := 0;
      var j := 0;
      while j < |matches|
        invariant 0 <= j <= |matches|
        invariant score == MatchScore(matches[..j], boosts)
      {
        assert matches[..j + 1][..j] == matches[..j];
        score := score + matches[j].1 * Weight(boosts, matches[j].0);
        j := j + 1;
      }
      assert matches[..j] == matches;
      scored := scored + [(hits[i].hit.id, score)];
      i := i + 1;
    }
  }

  /** `sorted(results, key=itemgetter('score'), reverse=True)`, then the ids. */
  function SortedIds(scored: seq<Scored>): seq<int>
  {
    Map(ScoredId, SortDesc(scored, ScoreKey))
  }

  /**
   * The ids come out in non-increasing score order, as a permutation of the
   * scored hits, and hits with equal scores keep the order they were
   * collected in.
   */
  lemma SortedIdsSpec(scored: seq<Scored>)
    ensures var s := SortDesc(scored, ScoreKey);
      && SortedIds(scored) == Map(ScoredId, s)
      && Descending(s, ScoreKey)
      && multiset(s) == multiset(scored)
      && multiset(SortedIds(scored)) == multiset(Map(ScoredId, scored))
      && forall k :: WithKey(s, ScoreKey, k) == WithKey(scored, ScoreKey, k)
  {
    SortDescFacts(scored, ScoreKey);
    MapMultiset(ScoredId, SortDesc(scored, ScoreKey), scored);
  }

  // ---------------------------------------------------------------------
  // Sub-queries and hit collection

  /** A descendant model: its Django label and its `search_fields`. */
  datatype Descendant = Descendant(metaLabel: string, searchFields: seq<Field>)

  function DescLabel(m: Descendant): string { IndexLabel(m.metaLabel) }

  /** The keys of `models_boosts`: each index label once, in first-seen order. */
  function Uids(models: seq<Descendant>): seq<string>
  {
    Dedup(Map(DescLabel, models))
  }

  /** `models_boosts[uid]`: the boosts of the last model with that label. */
  function BoostsOf(models: seq<Descendant>, uid: string): map<string, Boost>
  {
    if models == [] then map[]
    else if DescLabel(models[|models| - 1]) == uid then FieldBoosts(models[|models| - 1].searchFields)
    else BoostsOf(models[..|models| - 1], uid)
  }

  /** `{'indexUid': uid, 'q': terms, **search_params}`. */
  function SubQuery(uid: string, terms: string, searchParams: Params): Params
  {
    map["indexUid" := PStr(uid), "q" := PStr(terms)] + searchParams
  }

  function SubQueries(uids: seq<string>, terms: string, searchParams: Params): seq<Params>
  {
    if uids == [] then [] else [SubQuery(uids[0], terms, searchParams)] + SubQueries(uids[1..], terms, searchParams)
  }

  /**
   * One sub-query per distinct index label of the descendant models, with
   * no check that the index exists; each carries all search parameters and
   * otherwise its uid and the terms.
   */
  lemma {:induction false} SubQueriesSpec(models: seq<Descendant>, terms: string, sp: Params)
    ensures var uids := Uids(models);
      var qs := SubQueries(uids, terms, sp);
      && |qs| == |uids|
      && NoDuplicates(uids)
      && (forall u :: u in uids <==> exists i :: 0 <= i < |models| && IndexLabel(models[i].metaLabel) == u)
      && (forall i :: 0 <= i < |qs| ==>
            (forall k :: k in sp ==> k in qs[i] && qs[i][k] == sp[k])
            && ("indexUid" !in sp ==> "indexUid" in qs[i] && qs[i]["indexUid"] == PStr(uids[i]))
            && ("q" !in sp ==> "q" in qs[i] && qs[i]["q"] == PStr(terms)))
  {
    var labels := Map(DescLabel, models);
    DedupFacts(labels);
    SubQueriesAt(Uids(models), terms, sp);
  }

  lemma {:induction false} SubQueriesAt(uids: seq<string>, terms: string, sp: Params)
    ensures |SubQueries(uids, terms, sp)| == |uids|
    ensures forall i :: 0 <= i < |uids| ==> SubQueries(uids, terms, sp)[i] == SubQuery(uids[i], terms, sp)
  {
    if uids != [] {
      SubQueriesAt(uids[1..], terms, sp);
      var qs := SubQueries(uids, terms, sp);
      forall i | 0 <= i < |uids| ensures qs[i] == SubQuery(uids[i], terms, sp) {
        if i > 0 {
          assert qs[i] == SubQueries(uids[1..], terms, sp)[i - 1];
          assert uids[i] == uids[1..][i - 1];
        }
      }
    }
  }

  function TagWith(hits: seq<Hit>, boosts: map<string, Boost>): seq<Tagged>
  {
    if hits == [] then [] else TagWith(hits[..|hits| - 1], boosts) + [Tagged(hits[|hits| - 1], boosts)]
  }

  /**
   * The flattened hits: reply `i` answers the sub-query for `uids[i]`, and
   * each of its hits is tagged with that index's boosts.
   */
  function Collected(uids: seq<string>, replies: seq<seq<Hit>>, models: seq<Descendant>): seq<Tagged>
    requires |replies| == |uids|
  {
    if uids == [] then []
    else
      Collected(uids[..|uids| - 1], replies[..|replies| - 1], models)
      + TagWith(replies[|replies| - 1], BoostsOf(models, uids[|uids| - 1]))
  }

  lemma {:induction false} TagWithMembers(hits: seq<Hit>, boosts: map<string, Boost>)
    ensures forall t :: t in TagWith(hits, boosts) <==> t.hit in hits && t.boosts == boosts
  {
    if hits != [] {
      var init := hits[..|hits| - 1];
      TagWithMembers(init, boosts);
      assert hits == init + [hits[|hits| - 1]];
    }
  }

  /**
   * A collected hit is exactly a hit of some reply, tagged with the boosts
   * of the index that reply came from.
   */
  lemma CollectedSpec(uids: seq<string>, replies: seq<seq<Hit>>, models: seq<Descendant>)
    requires |replies| == |uids|
    ensures forall t :: t in Collected(uids, replies, models) <==>
      exists i :: 0 <= i < |uids| && t.hit in replies[i] && t.boosts == BoostsOf(models, uids[i])
  {
    forall t ensures t in Collected(uids, replies, models) <==>
      exists i :: 0 <= i < |uids| && t.hit in replies[i] && t.boosts == BoostsOf(models, uids[i])
    {
      CollectedHas(uids, replies, models, t);
    }
  }

  lemma {:induction false} CollectedHas(uids: seq<string>, replies: seq<seq<Hit>>, models: seq<Descendant>, t: Tagged)
    requires |replies| == |uids|
    ensures t in Collected(uids, replies, models) <==>
      exists i :: 0 <= i < |uids| && t.hit in replies[i] && t.boosts == BoostsOf(models, uids[i])
  {
    if uids != [] {
      var n := |uids| - 1;
      var ui, ri := uids[..n], replies[..n];
      CollectedHas(ui, ri, models, t);
      TagWithMembers(replies[n], BoostsOf(models, uids[n]));
      assert Collected(uids, replies, models) == Collected(ui, ri, models) + TagWith(replies[n], BoostsOf(models, uids[n]));
      if exists i :: 0 <= i < |uids| && t.hit in replies[i] && t.boosts == BoostsOf(models, uids[i]) {
        var i :| 0 <= i < |uids| && t.hit in replies[i] && t.boosts == BoostsOf(models, uids[i]);
        if i < n {
          assert ui[i] == uids[i] && ri[i] == replies[i];
        }
      }
      if t in Collected(ui, ri, models) {
        var i :| 0 <= i < |ui| && t.hit in ri[i] && t.boosts == BoostsOf(models, ui[i]);
        assert uids[i] == ui[i] && replies[i] == ri[i];
      }
    }
  }

  // ---------------------------------------------------------------------
  // The window and the row order

  /** The sort key that puts position 0 first. */
  function NegPos(window: seq<int>, pk: int): int
  {
    0 - FirstPos(window, pk)
  }

  /**
   * `_do_search` after scoring: the window `sorted_ids[start:stop]`
   * selects the rows; relevance ordering sorts them by their first
   * position in the window; `distinct()` drops repeated rows.
   */
  function WindowRows(sortedIds: seq<int>, rows: seq<int>, start: Option<int>, stop: Option<int>,
                      orderByRelevance: bool): seq<int>
  {
    InWindow(Slice(sortedIds, start, stop), rows, orderByRelevance)
  }

  function InWindow(window: seq<int>, rows: seq<int>, orderByRelevance: bool): seq<int>
  {
    var kept := Filter((pk: int) => pk in window, rows);
    Dedup(if orderByRelevance then SortDesc(kept, (pk: int) => NegPos(window, pk)) else kept)
  }

  /**
   * The rows returned are exactly the queryset's rows whose id is in the
   * window, each once; under relevance ordering their positions in the
   * window strictly increase, position 0 first, and otherwise they keep the
   * queryset's order.
   */
  lemma WindowRowsSpec(sortedIds: seq<int>, rows: seq<int>, start: Option<int>, stop: Option<int>, orderByRelevance: bool)
    ensures var r := WindowRows(sortedIds, rows, start, stop, orderByRelevance);
      var window := Slice(sortedIds, start, stop);
      && (forall x :: x in r <==> x in rows && x in window)
      && NoDuplicates(r)
      && (orderByRelevance ==> forall i, j :: 0 <= i < j < |r| ==> FirstPos(window, r[i]) < FirstPos(window, r[j]))
      && (!orderByRelevance ==> KeepsOrder(r, rows))
  {
    InWindowSpec(Slice(sortedIds, start, stop), rows, orderByRelevance);
  }

  lemma InWindowSpec(window: seq<int>, rows: seq<int>, orderByRelevance: bool)
    ensures var r := InWindow(window, rows, orderByRelevance);
      && (forall x :: x in r <==> x in rows && x in window)
      && NoDuplicates(r)
      && (orderByRelevance ==> forall i, j :: 0 <= i < j < |r| ==> FirstPos(window, r[i]) < FirstPos(window, r[j]))
      && (!orderByRelevance ==> KeepsOrder(r, rows))
  {
    var sel := (pk: int) => pk in window;
    var kept := Filter(sel, rows);
    FilterMembers(sel, rows);
    var key := (pk: int) => NegPos(window, pk);
    var ordered := if orderByRelevance then SortDesc(kept, key) else kept;
    PositionOrder(window, kept, orderByRelevance);
    DedupFacts(ordered);
    if orderByRelevance {
      Results.DedupDescending(ordered, key);
      assert forall x :: x in Dedup(ordered) ==> x in ordered && x in kept;
      PositionsIncrease(window, Dedup(ordered));
    } else {
      DedupFilterKeepsOrder(sel, rows);
    }
  }

  lemma PositionOrder(window: seq<int>, kept: seq<int>, orderByRelevance: bool)
    ensures var ordered := if orderByRelevance then SortDesc(kept, (pk: int) => NegPos(window, pk)) else kept;
      && (forall x :: x in ordered <==> x in kept)
      && (orderByRelevance ==> Descending(ordered, (pk: int) => NegPos(window, pk)))
  {
    if orderByRelevance {
      var key := (pk: int) => NegPos(window, pk);
      var ordered := SortDesc(kept, key);
      SortDescFacts(kept, key);
      assert forall x :: x in ordered <==> x in multiset(ordered);
      assert forall x :: x in kept <==> x in multiset(kept);
    }
  }

  /** Distinct ids of the window in non-increasing `NegPos` order sit at strictly increasing positions. */
  lemma PositionsIncrease(window: seq<int>, r: seq<int>)
    requires NoDuplicates(r)
    requires forall x :: x in r ==> x in window
    requires Descending(r, (pk: int) => NegPos(window, pk))
    ensures forall i, j :: 0 <= i < j < |r| ==> FirstPos(window, r[i]) < FirstPos(window, r[j])
  {
    forall i, j | 0 <= i < j < |r| ensures FirstPos(window, r[i]) < FirstPos(window, r[j]) {
      assert NegPos(window, r[i]) >= NegPos(window, r[j]);
      FirstPosFacts(window, r[i]);
      FirstPosFacts(window, r[j]);
    }
  }

  function TaggedScore(t: Tagged): Scored
  {
    (t.hit.id, MatchScore(t.hit.matches, t.boosts))
  }

  /** The whole earlier `_do_search`, given the reply to each sub-query and the queryset's rows. */
  function LegacyDoSearch(models: seq<Descendant>, replies: seq<seq<Hit>>, rows: seq<int>, start: Option<int>,
                          stop: Option<int>, orderByRelevance: bool): seq<int>
    requires |replies| == |Uids(models)|
  {
    var hits := Collected(Uids(models), replies, models);
    WindowRows(SortedIds(Map(TaggedScore, hits)), rows, start, stop, orderByRelevance)
  }

  /**
   * Every row returned is a row of the queryset and the id of some hit
   * from some reply, and no row is returned twice. Under relevance
   * ordering the rows follow the ids' score order within the window;
   * otherwise they keep the queryset's order.
   */
  lemma LegacyDoSearchSpec(models: seq<Descendant>, replies: seq<seq<Hit>>, rows: seq<int>, start: Option<int>,
                           stop: Option<int>, orderByRelevance: bool)
    requires |replies| == |Uids(models)|
    ensures var r := LegacyDoSearch(models, replies, rows, start, stop, orderByRelevance);
      var window := Slice(SortedIds(Map(TaggedScore, Collected(Uids(models), replies, models))), start, stop);
      && NoDuplicates(r)
      && (forall x :: x in r ==> x in rows && exists i, h :: 0 <= i < |replies| && h in replies[i] && h.id == x)
      && (orderByRelevance ==> forall i, j :: 0 <= i < j < |r| ==> FirstPos(window, r[i]) < FirstPos(window, r[j]))
      && (!orderByRelevance ==> KeepsOrder(r, rows))
  {
    var ids := SortedIds(Map(TaggedScore, Collected(Uids(models), replies, models)));
    var window := Slice(ids, start, stop);
    WindowRowsSpec(ids, rows, start, stop, orderByRelevance);
    SortedIdsFromReplies(models, replies);
    var r := LegacyDoSearch(models, replies, rows, start, stop, orderByRelevance);
    forall x | x in r ensures exists i, h :: 0 <= i < |replies| && h in replies[i] && h.id == x {
      assert x in window;
      assert x in ids;
    }
  }

  /** Every id in the relevance order is the id of a hit from one of the replies. */
  lemma SortedIdsFromReplies(models: seq<Descendant>, replies: seq<seq<Hit>>)
    requires |replies| == |Uids(models)|
    ensures forall x :: x in SortedIds(Map(TaggedScore, Collected(Uids(models), replies, models))) ==>
      exists i, h :: 0 <= i < |replies| && h in replies[i] && h.id == x
  {
    var uids := Uids(models);
    var hits := Collected(uids, replies, models);
    var scored := Map(TaggedScore, hits);
    var ids := SortedIds(scored);
    SortedIdsSpec(scored);
    CollectedSpec(uids, replies, models);
    forall x | x in ids ensures exists i, h :: 0 <= i < |replies| && h in replies[i] && h.id == x {
      assert x in multiset(Map(ScoredId, scored));
      var k :| 0 <= k < |scored| && scored[k].0 == x;
      var t := hits[k];
      assert t in hits;
      var i :| 0 <= i < |uids| && t.hit in replies[i] && t.boosts == BoostsOf(models, uids[i]);
      assert t.hit.id == x;
    }
  }

  // ---------------------------------------------------------------------
  // _do_count

  /** A count-only sub-query: no attributes and no hits, only `totalHits`. */
  function CountQuery(uid: string, terms: string): Params
  {
    map["indexUid" := PStr(uid), "q" := PStr(terms), "attributesToRetrieve" := PStrs([]), "hitsPerPage" := PInt(0)]
  }

  /** One count query per descendant model, labels not merged. */
  function CountQueries(models: seq<Descendant>, terms: string): (r: seq<Params>)
    ensures |r| == |models|
    ensures forall i :: 0 <= i < |models| ==>
      && r[i].Keys == {"indexUid", "q", "attributesToRetrieve", "hitsPerPage"}
      && r[i]["indexUid"] == PStr(IndexLabel(models[i].metaLabel))
      && r[i]["q"] == PStr(terms)
      && r[i]["attributesToRetrieve"] == PStrs([])
      && r[i]["hitsPerPage"] == PInt(0)
  {
    if models == [] then []
    else [CountQuery(DescLabel(models[0]), terms)] + CountQueries(models[1..], terms)
  }

  /** The sum of the `totalHits` of the replies. */
  function Sum(totals: seq<nat>): nat
  {
    if totals == [] then 0 else Sum(totals[..|totals| - 1]) + totals[|totals| - 1]
  }

  /**
   * The count is additive over the replies, bounds each reply's total, and
   * is zero exactly when every reply reports no hits.
   */
  lemma {:induction false} SumSpec(a: seq<nat>, b: seq<nat>)
    ensures Sum(a + b) == Sum(a) + Sum(b)
    ensures forall i :: 0 <= i < |a| ==> a[i] <= Sum(a)
    ensures Sum(a) == 0 <==> forall i :: 0 <= i < |a| ==> a[i] == 0
  {
    if b == [] {
      assert a + b == a;
    } else {
      assert (a + b)[..|a + b| - 1] == a + b[..|b| - 1];
      SumSpec(a, b[..|b| - 1]);
    }
    if a != [] {
      var init := a[..|a| - 1];
      SumSpec(init, []);
      assert forall i :: 0 <= i < |init| ==> init[i] == a[i];
    }
  }
}
