// MeiliSearchBackend: its configuration defaults, the cached per-model
// index lookup, `refresh_index`, and the guards in front of every search.

module Backend {
  import opened Common
  import opened Labels
  import opened Remote
  import opened Index
  import opened Settings

  /** `_init_search_params`: the parameters every search of this backend starts from. */
  function InitSearchParams(queryLimit: int): (r: Params)
    ensures r.Keys == {"limit", "attributesToRetrieve", "showMatchesPosition", "showRankingScore"}
    ensures r["limit"] == PInt(queryLimit) && r["attributesToRetrieve"] == PStrs(["id"])
    ensures r["showMatchesPosition"] == PBool(true) && r["showRankingScore"] == PBool(true)
  {
    map["limit" := PInt(queryLimit),
        "attributesToRetrieve" := PStrs(["id"]),
        "showMatchesPosition" := PBool(true),
        "showRankingScore" := PBool(true)]
  }

  function LabelOf(m: ModelInfo): string { m.metaLabel }

  /** Each index is filed under its own model's label, so different labels hold different indexes. */
  predicate FiledByLabel(cache: map<string, ModelIndex>)
  {
    forall l :: l in cache ==> cache[l].model.Some? && cache[l].model.value.metaLabel == l
  }

  /** `refreshed` lists the cached indexes of the labels in `order`, position by position. */
  predicate Images(refreshed: seq<ModelIndex>, order: seq<string>, cache: map<string, ModelIndex>)
  {
    |refreshed| == |order| && forall k :: 0 <= k < |order| ==> order[k] in cache && refreshed[k] == cache[order[k]]
  }

  lemma ImagesExtend(refreshed: seq<ModelIndex>, order: seq<string>, cache: map<string, ModelIndex>,
                     bigger: map<string, ModelIndex>)
    requires Images(refreshed, order, cache)
    requires forall l :: l in cache ==> l in bigger && bigger[l] == cache[l]
    ensures Images(refreshed, order, bigger)
  {
  }

  /** The labels of one more model: its label joins the order unless already there. */
  lemma LabelsStep(models: seq<ModelInfo>, i: nat)
    requires i < |models|
    ensures var d := Dedup(Map(LabelOf, models[..i]));
      Dedup(Map(LabelOf, models[..i + 1])) == if models[i].metaLabel in d then d else d + [models[i].metaLabel]
  {
    MapConcat(LabelOf, models[..i], [models[i]]);
    assert models[..i + 1] == models[..i] + [models[i]];
    var s := Map(LabelOf, models[..i + 1]);
    assert s[..|s| - 1] == Map(LabelOf, models[..i]);
  }

  /** The labels the models carry. */
  function LabelSet(models: seq<ModelInfo>): set<string>
  {
    set m | m in models :: m.metaLabel
  }

  /** The labels of the first `i + 1` models are those of the first `i` and the next one's. */
  lemma LabelSetStep(models: seq<ModelInfo>, i: nat)
    requires i < |models|
    ensures LabelSet(models[..i + 1]) == LabelSet(models[..i]) + {models[i].metaLabel}
  {
    assert models[..i + 1] == models[..i] + [models[i]];
  }

  /** The keys after the pass for model `i` are the starting keys and the labels of the first `i + 1` models. */
  lemma KeysStep(keys: set<string>, pre: set<string>, post: set<string>, models: seq<ModelInfo>, i: nat)
    requires i < |models| && pre == keys + LabelSet(models[..i]) && post == pre + {models[i].metaLabel}
    ensures post == keys + LabelSet(models[..i + 1])
  {
    LabelSetStep(models, i);
  }

  /** One step of `refresh_index`: the index is already listed exactly when its label already was. */
  lemma RefreshStep(refreshed: seq<ModelIndex>, prev: seq<string>, cache: map<string, ModelIndex>, name: string)
    requires FiledByLabel(cache) && Images(refreshed, prev, cache) && NoDuplicates(refreshed)
    requires name in cache
    ensures cache[name] in refreshed <==> name in prev
    ensures var next := if name in prev then prev else prev + [name];
      var after := if cache[name] in refreshed then refreshed else refreshed + [cache[name]];
      Images(after, next, cache) && NoDuplicates(after)
  {
    var index := cache[name];
    if name in prev {
      var k :| 0 <= k < |prev| && prev[k] == name;
      assert refreshed[k] == index;
    }
    if index in refreshed {
      var k :| 0 <= k < |refreshed| && refreshed[k] == index;
      assert cache[prev[k]].model.value.metaLabel == prev[k];
    }
  }

  /** The loop step of `refresh_index` on values: the cache grew and the next label's index is filed. */
  lemma RefreshAdvance(refreshed: seq<ModelIndex>, prev: seq<string>, next: seq<string>, name: string,
                       before: map<string, ModelIndex>, after: map<string, ModelIndex>)
    requires next == if name in prev then prev else prev + [name]
    requires FiledByLabel(after) && name in after
    requires forall l :: l in before ==> l in after && after[l] == before[l]
    requires NoDuplicates(refreshed) && Images(refreshed, prev, before)
    ensures var grown := if after[name] in refreshed then refreshed else refreshed + [after[name]];
      NoDuplicates(grown) && Images(grown, next, after)
  {
    ImagesExtend(refreshed, prev, before, after);
    RefreshStep(refreshed, prev, after, name);
  }

  /** Every model's label is in the order, so `Images` files every model. */
  lemma ImagesCoverLabels(refreshed: seq<ModelIndex>, models: seq<ModelInfo>, cache: map<string, ModelIndex>)
    requires Images(refreshed, Dedup(Map(LabelOf, models)), cache)
    ensures forall m :: m in models ==> m.metaLabel in cache
  {
    var order := Dedup(Map(LabelOf, models));
    DedupFacts(Map(LabelOf, models));
    forall m | m in models
      ensures m.metaLabel in cache
    {
      var k :| 0 <= k < |models| && models[k] == m;
      assert Map(LabelOf, models)[k] == m.metaLabel;
      assert m.metaLabel in Map(LabelOf, models);
      var p :| 0 <= p < |order| && order[p] == m.metaLabel;
    }
  }

  class MeiliSearchBackend {
    const settings: MeiliSettings
    const skipModels: seq<string>
    const updateStrategy: string
    const queryLimit: int
    /** The backend's `search_params` dict; every index of the backend shares it. */
    const searchParams: SearchParams
    const updateDelta: Option<map<string, int>>
    /**
     * The `weak_lru` cache of `get_index_for_model`, keyed by the model's
     * label (a model class is identified by its label).
     */
    var indexCache: map<string, ModelIndex>

    /** Every cached index belongs to the model it is filed under and shares the backend's parameters. */
    ghost predicate Valid()
      reads this, indexCache.Values
    {
      forall l :: l in indexCache ==>
        && indexCache[l].model.Some?
        && indexCache[l].model.value.metaLabel == l
        && indexCache[l].index == Some(IndexLabel(l))
        && indexCache[l].backendParams == searchParams
    }

    /** `__init__`; the remote client is not modelled. */
    constructor (params: BackendConfig, defaultStopWords: seq<string>, defaultRankingRules: seq<string>)
      ensures Valid() && indexCache == map[]
      ensures skipModels == params.skipModels.GetOr([])
      ensures updateStrategy == params.updateStrategy.GetOr(DEFAULT_STRATEGY)
      ensures queryLimit == params.queryLimit.GetOr(DEFAULT_QUERY_LIMIT)
      ensures updateDelta == UpdateDeltaFor(updateStrategy, params.updateDelta)
      ensures fresh(searchParams) && searchParams.params == InitSearchParams(queryLimit)
      ensures fresh(settings) && settings.updateStrategy == updateStrategy && settings.queryLimit == queryLimit
      ensures settings.updateDelta == updateDelta
    {
      settings := new MeiliSettings(params, defaultStopWords, defaultRankingRules);
      skipModels := params.skipModels.GetOr([]);
      updateStrategy := params.updateStrategy.GetOr(DEFAULT_STRATEGY);
      queryLimit := params.queryLimit.GetOr(DEFAULT_QUERY_LIMIT);
      searchParams := new SearchParams(InitSearchParams(params.queryLimit.GetOr(DEFAULT_QUERY_LIMIT)));
      updateDelta := UpdateDeltaFor(params.updateStrategy.GetOr(DEFAULT_STRATEGY), params.updateDelta);
      indexCache := map[];
    }

    /**
     * The cached `get_index_for_model` (the later definition, which replaces
     * the registry-delegating one): a model seen before gets the same index
     * object back; a new model gets a new index built from the backend's
     * settings, which is then cached. `lookupRaises` is whether the remote
     * index is missing when the new index looks it up, and `createRaises`
     * whether creating it then raises. That exception leaves
     * `get_index_for_model` and nothing is cached; the new object, with its
     * `initError`, is returned only so that its call stays visible.
     */
    method GetIndexForModel(model: ModelInfo, lookupRaises: bool, createRaises: bool) returns (idx: ModelIndex)
      requires Valid()
      modifies this`indexCache
      ensures Valid()
      ensures model.metaLabel in old(indexCache) ==> idx == old(indexCache)[model.metaLabel] && indexCache == old(indexCache)
      ensures model.metaLabel !in old(indexCache) ==>
        && fresh(idx)
        && idx.initError == CreateFailure(Some(model), lookupRaises, createRaises)
        && indexCache == (if idx.initError.Some? then old(indexCache) else old(indexCache)[model.metaLabel := idx])
        && idx.model == Some(model) && idx.backendParams == searchParams
        && idx.updateStrategy == settings.updateStrategy && idx.updateDelta == settings.updateDelta
        && idx.effects == (if lookupRaises then [CreateIndex(IndexLabel(model.metaLabel), "id")] else [])
    {
      if model.metaLabel in indexCache {
        return indexCache[model.metaLabel];
      }
      idx := new ModelIndex(searchParams, Some(model), settings.queryLimit, settings.updateStrategy,
                            settings.updateDelta, lookupRaises, createRaises);
      if idx.initError.Some? {
        return;
      }
      indexCache := indexCache[model.metaLabel := idx];
    }

    /** One pass of the `refresh_index` loop: the model's index is listed unless it already is. */
    method RefreshOne(model: ModelInfo, lookupRaises: bool, refreshed: seq<ModelIndex>, prev: seq<string>)
      returns (grown: seq<ModelIndex>)
      requires Valid() && NoDuplicates(refreshed) && Images(refreshed, prev, indexCache)
      modifies this`indexCache
      ensures Valid() && NoDuplicates(grown)
      ensures forall l :: l in old(indexCache) ==> l in indexCache && indexCache[l] == old(indexCache)[l]
      ensures indexCache.Keys == old(indexCache.Keys) + {model.metaLabel}
      ensures Images(grown, if model.metaLabel in prev then prev else prev + [model.metaLabel], indexCache)
    {
      ghost var before := indexCache;
      var index := GetIndexForModel(model, lookupRaises, false);
      RefreshAdvance(refreshed, prev, if model.metaLabel in prev then prev else prev + [model.metaLabel],
                     model.metaLabel, before, indexCache);
      grown := if index in refreshed then refreshed else refreshed + [index];
    }

    /** The pass of the `refresh_index` loop for the model at position `i`. */
    method RefreshAt(models: seq<ModelInfo>, i: nat, missing: set<string>, refreshed: seq<ModelIndex>)
      returns (grown: seq<ModelIndex>)
      requires i < |models|
      requires Valid() && NoDuplicates(refreshed) && Images(refreshed, Dedup(Map(LabelOf, models[..i])), indexCache)
      modifies this`indexCache
      ensures Valid() && NoDuplicates(grown)
      ensures forall l :: l in old(indexCache) ==> l in indexCache && indexCache[l] == old(indexCache)[l]
      ensures indexCache.Keys == old(indexCache.Keys) + {models[i].metaLabel}
      ensures Images(grown, Dedup(Map(LabelOf, models[..i + 1])), indexCache)
    {
      LabelsStep(models, i);
      grown := RefreshOne(models[i], models[i].metaLabel in missing, refreshed, Dedup(Map(LabelOf, models[..i])));
    }

    /**
     * `refresh_index`: each distinct index of the indexed models is
     * refreshed once, in the order the models first name it (`refresh`
     * itself does nothing). `missing` names the models whose remote index
     * lookup raises.
     */
    method RefreshIndex(models: seq<ModelInfo>, missing: set<string>) returns (refreshed: seq<ModelIndex>)
      requires Valid()
      modifies this`indexCache
      ensures Valid()
      ensures forall l :: l in old(indexCache) ==> l in indexCache && indexCache[l] == old(indexCache)[l]
      ensures forall m :: m in models ==> m.metaLabel in indexCache
      ensures indexCache.Keys == old(indexCache.Keys) + LabelSet(models)
      ensures NoDuplicates(refreshed)
      ensures Images(refreshed, Dedup(Map(LabelOf, models)), indexCache)
    {
      refreshed := [];
      ghost var keys := indexCache.Keys;
      for i := 0 to |models|
        invariant Valid()
        invariant forall l :: l in old(indexCache) ==> l in indexCache && indexCache[l] == old(indexCache)[l]
        invariant indexCache.Keys == keys + LabelSet(models[..i])
        invariant NoDuplicates(refreshed)
        invariant Images(refreshed, Dedup(Map(LabelOf, models[..i])), indexCache)
      {
        ghost var pre := indexCache.Keys;
        refreshed := RefreshAt(models, i, missing, refreshed);
        KeysStep(keys, pre, indexCache.Keys, models, i);
      }
      assert models[..|models|] == models;
      ImagesCoverLabels(refreshed, models, indexCache);
    }
  }

  // ---------------------------------------------------------------------
  // _search

  /** What a search is over: a queryset (its model and rows) or a bare model class. */
  datatype SearchTarget = QuerySetOf(model: string, rows: seq<int>) | ModelClass(model: string)

  datatype Compiler = SearchCompiler | AutocompleteCompiler

  datatype SearchOutcome =
    | EmptySearchResults
    | Compiled(compiler: Compiler, model: string, queryset: seq<int>, query: string)

  /**
   * `_search`: `indexed` is the set of indexed models, `allRows` is
   * `model.objects.all()` for a bare model class.
   */
  function Search(compiler: Compiler, query: string, target: SearchTarget, indexed: set<string>,
                  allRows: seq<int>): SearchOutcome
  {
    var queryset := if target.QuerySetOf? then target.rows else allRows;
    if target.model !in indexed then EmptySearchResults
    else if query == "" then EmptySearchResults
    else Compiled(compiler, target.model, queryset, query)
  }

  /**
   * A compiler is built exactly for an indexed model and a non-empty
   * query; it then searches the queryset given, or all of the model's rows.
   */
  lemma SearchGuards(compiler: Compiler, query: string, target: SearchTarget, indexed: set<string>, allRows: seq<int>)
    ensures var r := Search(compiler, query, target, indexed, allRows);
      && (r.Compiled? <==> target.model in indexed && query != "")
      && (r.Compiled? ==> r.compiler == compiler && r.model == target.model && r.query == query)
      && (r.Compiled? && target.QuerySetOf? ==> r.queryset == target.rows)
      && (r.Compiled? && target.ModelClass? ==> r.queryset == allRows)
  {
  }
}
