// MeiliSettings: the configuration defaults and the settings pushed to each
// index (pagination, searchable and filterable attributes, ranking rules,
// stop words).

module Settings {
  import opened Common
  import opened Fields
  import opened Remote
  import opened Index

  const DEFAULT_STRATEGY: string := "soft"
  const DEFAULT_QUERY_LIMIT: int := 999999
  const DEFAULT_DELTA: map<string, int> := map["weeks" := -1]
  const CONTENT_TYPE_FILTER: string := "content_type_id_filter"

  /**
   * The backend's configuration dict, key by key; None for a key that is
   * absent. `UPDATE_DELTA` may also be present with the value None, so its
   * entry is `Some(None)` then.
   */
  datatype BackendConfig = BackendConfig(
    stopWords: Option<seq<string>>,
    skipModels: Option<seq<string>>,
    updateStrategy: Option<string>,
    queryLimit: Option<int>,
    rankingRules: Option<seq<string>>,
    updateDelta: Option<Option<map<string, int>>>)

  /**
   * `update_delta`: only the "delta" strategy reads UPDATE_DELTA, one week
   * back when the key is absent. A value given as None is passed through,
   * so "delta" can come without a delta.
   */
  function UpdateDeltaFor(strategy: string, given: Option<Option<map<string, int>>>): (r: Option<map<string, int>>)
    ensures r.Some? ==> strategy == "delta"
    ensures strategy == "delta" ==> (r.Some? <==> given.None? || given.value.Some?)
    ensures strategy == "delta" && given.None? ==> r == Some(DEFAULT_DELTA)
    ensures strategy == "delta" && given.Some? && given.value.Some? ==> r == given.value
  {
    if strategy == "delta" then given.GetOr(Some(DEFAULT_DELTA)) else None
  }

  /**
   * The delta filter of the index is active exactly under the "delta"
   * strategy with a non-empty delta, which the default always is.
   */
  lemma DeltaFilterActive(strategy: string, given: Option<Option<map<string, int>>>)
    ensures DeltaEnabled(UpdateDeltaFor(strategy, given)) <==>
      strategy == "delta" && (given.None? || (given.value.Some? && given.value.value != map[]))
  {
    assert "weeks" in DEFAULT_DELTA;
  }

  // ---------------------------------------------------------------------
  // _ordered_fields

  /** Search and autocomplete fields take part in the ranking; filter and related fields do not. */
  predicate IsRanked(f: Field)
  {
    f.SearchField? || f.AutocompleteField?
  }

  /** A missing or None boost counts as 1. */
  function BoostValue(b: Boost): int
  {
    match b
    case BoostOf(v) => v
    case _ => 1
  }

  function Weighted(f: Field): (string, int)
  {
    (f.name, if IsRanked(f) then BoostValue(f.boost) else 1)
  }

  function PairName(p: (string, int)): string { p.0 }

  function PairBoost(p: (string, int)): int { p.1 }

  /** The (name, boost) pairs in declaration order. */
  function BoostPairs(model: Option<ModelInfo>): seq<(string, int)>
  {
    if model.None? || model.value.declaredFields.None? then []
    else Map(Weighted, Filter(IsRanked, model.value.declaredFields.value))
  }

  function SortedPairs(model: Option<ModelInfo>): seq<(string, int)>
  {
    SortDesc(BoostPairs(model), PairBoost)
  }

  function OrderedFields(model: Option<ModelInfo>): seq<string>
  {
    Map(PairName, SortedPairs(model))
  }

  /**
   * No model, or a model without `search_fields`, ranks nothing. Otherwise
   * the names are those of the search and autocomplete fields, each
   * occurrence once (filter fields excluded, duplicates kept).
   */
  lemma OrderedFieldsNames(model: Option<ModelInfo>)
    ensures model.None? || model.value.declaredFields.None? ==> OrderedFields(model) == []
    ensures model.Some? && model.value.declaredFields.Some? ==>
      multiset(OrderedFields(model)) ==
      multiset(Map((f: Field) => f.name, Filter(IsRanked, model.value.declaredFields.value)))
  {
    var pairs := BoostPairs(model);
    SortDescFacts(pairs, PairBoost);
    MapMultiset(PairName, SortedPairs(model), pairs);
    if model.Some? && model.value.declaredFields.Some? {
      var ranked := Filter(IsRanked, model.value.declaredFields.value);
      var names := Map((f: Field) => f.name, ranked);
      assert Map(PairName, pairs) == names;
    }
  }

  /**
   * The names come out with non-increasing boosts, and fields of equal
   * boost keep their declaration order (`sorted` is stable).
   */
  lemma OrderedFieldsByBoost(model: Option<ModelInfo>)
    ensures OrderedFields(model) == Map(PairName, SortedPairs(model))
    ensures Descending(SortedPairs(model), PairBoost)
    ensures multiset(SortedPairs(model)) == multiset(BoostPairs(model))
    ensures forall k :: WithKey(SortedPairs(model), PairBoost, k) == WithKey(BoostPairs(model), PairBoost, k)
  {
    SortDescFacts(BoostPairs(model), PairBoost);
  }

  /** A pair's boost is the field's declared boost, or 1 when it has none. */
  lemma BoostPairsAt(model: Option<ModelInfo>, i: nat)
    requires model.Some? && model.value.declaredFields.Some?
    requires i < |BoostPairs(model)|
    ensures var ranked := Filter(IsRanked, model.value.declaredFields.value);
      && IsRanked(ranked[i])
      && BoostPairs(model)[i].0 == ranked[i].name
      && BoostPairs(model)[i].1 == (if ranked[i].boost.BoostOf? then ranked[i].boost.v else 1)
  {
    var ranked := Filter(IsRanked, model.value.declaredFields.value);
    FilterMembers(IsRanked, model.value.declaredFields.value);
    assert ranked[i] in ranked;
  }

  // ---------------------------------------------------------------------
  // _apply_filterable_attributes

  predicate IsFilter(f: Field) { f.FilterField? }

  /** "content_type_id_filter" followed by each filter field's mapped name, in declaration order. */
  function FilterableAttributes(fields: seq<Field>): (r: seq<string>)
    ensures |r| >= 1 && r[0] == CONTENT_TYPE_FILTER
  {
    [CONTENT_TYPE_FILTER] + Map(FieldMapping, Filter(IsFilter, fields))
  }

  /**
   * After the first entry, every name is a filter field's name with the
   * filter suffix, and every filter field contributes its name.
   */
  lemma FilterableMembers(fields: seq<Field>)
    ensures |FilterableAttributes(fields)| == 1 + |Filter(IsFilter, fields)|
    ensures forall x :: x in FilterableAttributes(fields)[1..] <==>
      exists f :: f in fields && f.FilterField? && x == f.name + FILTER_SUFFIX
  {
    var fs := Filter(IsFilter, fields);
    FilterMembers(IsFilter, fields);
    var r := FilterableAttributes(fields);
    assert r[1..] == Map(FieldMapping, fs);
    forall x ensures x in r[1..] <==> exists f :: f in fields && f.FilterField? && x == f.name + FILTER_SUFFIX {
      if x in r[1..] {
        var i :| 0 <= i < |fs| && Map(FieldMapping, fs)[i] == x;
        assert fs[i] in fs;
      }
      if exists f :: f in fields && f.FilterField? && x == f.name + FILTER_SUFFIX {
        var f :| f in fields && f.FilterField? && x == f.name + FILTER_SUFFIX;
        assert f in fs;
        var i :| 0 <= i < |fs| && fs[i] == f;
        assert Map(FieldMapping, fs)[i] == x;
      }
    }
  }

  // ---------------------------------------------------------------------
  // apply_settings

  datatype Step = Paginator | Searchable | Filterable | Ranking | StopWordsStep

  function StepRank(s: Step): nat
  {
    match s
    case Paginator => 0
    case Searchable => 1
    case Filterable => 2
    case Ranking => 3
    case StopWordsStep => 4
  }

  /** Which step of `apply_settings` a settings call belongs to. */
  function StepOf(e: Effect): Step
  {
    if e.UpdateFilterableAttributes? then Filterable
    else if e.UpdateSettings? then
      match e.setting
      case Pagination(_) => Paginator
      case SearchableAttributes(_) => Searchable
      case RankingRules(_) => Ranking
      case StopWords(_) => StopWordsStep
    else Searchable
  }

  function Target(e: Effect): string
  {
    match e
    case UpdateSettings(uid, _) => uid
    case UpdateFilterableAttributes(uid, _) => uid
    case UpdateSearchableAttributes(uid, _) => uid
    case _ => ""
  }

  /** The calls `apply_settings` sends for a model that has an index. */
  function SettingsCalls(uid: string, m: ModelInfo, queryLimit: int, rankingRules: seq<string>,
                         stopWords: seq<string>): seq<Effect>
  {
    var ordered := OrderedFields(Some(m));
    [UpdateSettings(uid, Pagination(queryLimit))]
    + (if ordered == [] then [] else [UpdateSettings(uid, SearchableAttributes(ordered))])
    + [UpdateFilterableAttributes(uid, FilterableAttributes(m.searchFields)),
       UpdateSettings(uid, RankingRules(rankingRules)),
       UpdateSettings(uid, StopWords(stopWords))]
  }

  predicate Runs(calls: seq<Effect>, s: Step)
  {
    exists i :: 0 <= i < |calls| && StepOf(calls[i]) == s
  }

  /**
   * The steps run in the fixed order paginator, searchable, filterable,
   * ranking rules, stop words, all on the one index; every step but the
   * searchable one always runs, and that one runs iff there is a field to rank.
   */
  lemma SettingsOrder(uid: string, m: ModelInfo, queryLimit: int, rankingRules: seq<string>, stopWords: seq<string>)
    ensures var calls := SettingsCalls(uid, m, queryLimit, rankingRules, stopWords);
      && (forall i, j :: 0 <= i < j < |calls| ==> StepRank(StepOf(calls[i])) < StepRank(StepOf(calls[j])))
      && (forall i :: 0 <= i < |calls| ==> Target(calls[i]) == uid)
      && Runs(calls, Paginator) && Runs(calls, Filterable) && Runs(calls, Ranking) && Runs(calls, StopWordsStep)
      && (Runs(calls, Searchable) <==> OrderedFields(Some(m)) != [])
  {
    var calls := SettingsCalls(uid, m, queryLimit, rankingRules, stopWords);
    var ordered := OrderedFields(Some(m));
    var skip := if ordered == [] then 1 else 0;
    SettingsRanks(uid, m, queryLimit, rankingRules, stopWords);
    assert StepOf(calls[0]) == Paginator;
    assert StepOf(calls[|calls| - 3]) == Filterable;
    assert StepOf(calls[|calls| - 2]) == Ranking;
    assert StepOf(calls[|calls| - 1]) == StopWordsStep;
    if ordered != [] {
      assert StepOf(calls[1]) == Searchable;
    }
  }

  /** Position by position, the rank of each settings call's step and its target. */
  lemma SettingsRanks(uid: string, m: ModelInfo, queryLimit: int, rankingRules: seq<string>, stopWords: seq<string>)
    ensures var calls := SettingsCalls(uid, m, queryLimit, rankingRules, stopWords);
      var skip := if OrderedFields(Some(m)) == [] then 1 else 0;
      && |calls| == 5 - skip
      && forall i :: 0 <= i < |calls| ==>
           StepRank(StepOf(calls[i])) == (if i == 0 then 0 else i + skip) && Target(calls[i]) == uid
  {
    var calls := SettingsCalls(uid, m, queryLimit, rankingRules, stopWords);
    var skip := if OrderedFields(Some(m)) == [] then 1 else 0;
    forall i | 0 <= i < |calls|
      ensures StepRank(StepOf(calls[i])) == (if i == 0 then 0 else i + skip) && Target(calls[i]) == uid
    {
      if i == 0 {
      } else if skip == 0 && i == 1 {
      } else if i == |calls| - 3 {
      } else if i == |calls| - 2 {
      } else {
        assert i == |calls| - 1;
      }
    }
  }

  /** The steps whose call raised, in order: each one writes a warning and the next step still runs. */
  function Warnings(calls: seq<Effect>, failing: set<Step>): (r: seq<Step>)
    ensures |r| <= |calls|
  {
    Map(StepOf, Filter((e: Effect) => StepOf(e) in failing, calls))
  }

  /** A step warns exactly when it ran and its call raised. */
  lemma WarningsExact(calls: seq<Effect>, failing: set<Step>)
    ensures forall s :: s in Warnings(calls, failing) <==>
      s in failing && Runs(calls, s)
  {
    var p := (e: Effect) => StepOf(e) in failing;
    var kept := Filter(p, calls);
    FilterMembers(p, calls);
    forall s ensures s in Warnings(calls, failing) <==> s in failing && Runs(calls, s) {
      if s in Warnings(calls, failing) {
        var i :| 0 <= i < |kept| && StepOf(kept[i]) == s;
        assert kept[i] in calls;
      }
      if s in failing && Runs(calls, s) {
        var i :| 0 <= i < |calls| && StepOf(calls[i]) == s;
        assert calls[i] in kept;
        var k :| 0 <= k < |kept| && kept[k] == calls[i];
        assert Warnings(calls, failing)[k] == s;
      }
    }
  }

  class MeiliSettings {
    var stopWords: seq<string>
    var skipModels: seq<string>
    var updateStrategy: string
    var queryLimit: int
    var rankingRules: seq<string>
    var updateDelta: Option<map<string, int>>
    /** The index settings were last applied to. */
    var index: Option<ModelIndex>

    /**
     * `__init__`: each setting from the configuration dict or its default.
     * The default stop words and ranking rules are read from the package's
     * defaults module, so they come in as parameters.
     */
    constructor (params: BackendConfig, defaultStopWords: seq<string>, defaultRankingRules: seq<string>)
      ensures stopWords == params.stopWords.GetOr(defaultStopWords)
      ensures skipModels == params.skipModels.GetOr([])
      ensures updateStrategy == params.updateStrategy.GetOr(DEFAULT_STRATEGY)
      ensures queryLimit == params.queryLimit.GetOr(DEFAULT_QUERY_LIMIT)
      ensures rankingRules == params.rankingRules.GetOr(defaultRankingRules)
      ensures updateDelta == UpdateDeltaFor(updateStrategy, params.updateDelta)
      ensures index.None?
    {
      stopWords := params.stopWords.GetOr(defaultStopWords);
      skipModels := params.skipModels.GetOr([]);
      updateStrategy := params.updateStrategy.GetOr(DEFAULT_STRATEGY);
      queryLimit := params.queryLimit.GetOr(DEFAULT_QUERY_LIMIT);
      rankingRules := params.rankingRules.GetOr(defaultRankingRules);
      index := None;
      updateDelta := None;
      if params.updateStrategy.GetOr(DEFAULT_STRATEGY) == "delta" {
        updateDelta := params.updateDelta.GetOr(Some(DEFAULT_DELTA));
      }
    }

    /**
     * `apply_settings`: the five steps in order, each call's failure caught
     * and reported (`failing` names the steps whose call raises). Without a
     * model there is no remote index: the paginator call fails on the
     * missing handle, the searchable step returns early, and the filterable
     * step raises on the missing model, which escapes.
     */
    method ApplySettings(idx: ModelIndex, failing: set<Step>) returns (warnings: seq<Step>, escaped: bool)
      requires idx.Valid()
      modifies this`index, idx`effects
      ensures index == Some(idx)
      ensures idx.model.None? ==> escaped && warnings == [Paginator] && idx.effects == old(idx.effects)
      ensures idx.model.Some? ==>
        var calls := SettingsCalls(idx.index.value, idx.model.value, queryLimit, rankingRules, stopWords);
        && !escaped
        && idx.effects == old(idx.effects) + calls
        && warnings == Warnings(calls, failing)
    {
      index := Some(idx);
      var model := idx.model;
      if model.None? {
        // `None.update_settings` raises inside the paginator's try; the
        // filterable step's `None.get_search_fields()` is outside any try.
        return [Paginator], true;
      }
      var uid := idx.index.value;
      var calls: seq<Effect> := [];
      calls := calls + [UpdateSettings(uid, Pagination(queryLimit))];
      var ordered := OrderedFields(model);
      if ordered != [] {
        calls := calls + [UpdateSettings(uid, SearchableAttributes(ordered))];
      }
      calls := calls + [UpdateFilterableAttributes(uid, FilterableAttributes(model.value.searchFields))];
      calls := calls + [UpdateSettings(uid, RankingRules(rankingRules))];
      calls := calls + [UpdateSettings(uid, StopWords(stopWords))];
      assert calls == SettingsCalls(uid, model.value, queryLimit, rankingRules, stopWords);
      idx.effects := idx.effects + calls;
      warnings := Warnings(calls, failing);
      escaped := false;
    }
  }
}
