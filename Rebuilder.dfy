// MeiliSearchRebuilder: what `update_index` gets back when it starts a
// rebuild of one model's index, under the skip list and the update strategy.

module Rebuilder {
  import opened Labels
  import opened Remote
  import opened Index
  import opened Backend

  /** Stands in for a skipped model's index; adding models or items to it does nothing. */
  class DummyModelIndex {
    constructor ()
    {
    }
  }

  /** What `start` does for a model: skip it, keep its documents, or delete them first. */
  datatype Plan = Skip | Keep | Wipe

  function PlanFor(modelLabel: string, skipModels: seq<string>, strategy: string): (p: Plan)
    ensures p == Skip <==> modelLabel in skipModels
    ensures p == Wipe <==> modelLabel !in skipModels && strategy != "soft" && strategy != "delta"
  {
    if modelLabel in skipModels then Skip
    else if strategy == "soft" || strategy == "delta" then Keep
    else Wipe
  }

  /** The index `start` returns: the dummy for a skipped model, else the model's real index. */
  datatype Started = SkippedTo(dummy: DummyModelIndex) | IndexTo(idx: ModelIndex)

  class MeiliSearchRebuilder {
    const index: ModelIndex
    /** The backend the index belongs to (`index.backend`). */
    const backend: MeiliSearchBackend
    const uid: string
    const dummyIndex: DummyModelIndex
    /** What the rebuilder has written to standard output. */
    var output: seq<string>

    /**
     * `__init__`: the uid is the index label of the index's model. The
     * backend is the index's own, so the index was built from its settings
     * and shares its search parameters.
     */
    constructor (modelIndex: ModelIndex, backend: MeiliSearchBackend)
      requires modelIndex.model.Some?
      requires modelIndex.backendParams == backend.searchParams
      requires modelIndex.updateStrategy == backend.updateStrategy
      requires modelIndex.updateDelta == backend.updateDelta
      ensures index == modelIndex && this.backend == backend
      ensures uid == IndexLabel(modelIndex.model.value.metaLabel)
      ensures fresh(dummyIndex) && output == []
    {
      index := modelIndex;
      this.backend := backend;
      uid := IndexLabel(modelIndex.model.value.metaLabel);
      dummyIndex := new DummyModelIndex();
      output := [];
    }

    /**
     * `start`: a skip-listed model is reported and gets the dummy index, with
     * no lookup; any other model gets the backend's index for it, whose
     * documents are all deleted first unless the strategy is soft or delta.
     * Other cached indexes are left alone. `lookupRaises` is whether the
     * remote index is missing if a new index object has to be built.
     */
    method Start(lookupRaises: bool) returns (r: Started)
      requires index.model.Some? && backend.Valid()
      modifies this`output, backend`indexCache, backend.indexCache.Values
      ensures backend.Valid()
      ensures var name := index.model.value.metaLabel;
        var plan := PlanFor(name, backend.skipModels, backend.updateStrategy);
        var before := if name in old(backend.indexCache) then old(backend.indexCache[name].effects)
                      else if lookupRaises then [CreateIndex(IndexLabel(name), "id")] else [];
        && (plan == Skip ==>
              r == SkippedTo(dummyIndex) && output == old(output) + ["SKIPPING: " + name + "\n"]
              && backend.indexCache == old(backend.indexCache))
        && (plan != Skip ==>
              r.IndexTo? && output == old(output)
              && backend.indexCache == old(backend.indexCache)[name := r.idx]
              && (name in old(backend.indexCache) ==> r.idx == old(backend.indexCache)[name])
              && (name !in old(backend.indexCache) ==> fresh(r.idx) && r.idx.model == index.model))
        && (plan == Keep ==> r.idx.effects == before)
        && (plan == Wipe ==> r.idx.effects == before + [Remote.DeleteAllDocuments(IndexLabel(name))])
        && forall l :: l in old(backend.indexCache) && (plan == Skip || l != name) ==>
             backend.indexCache[l].effects == old(backend.indexCache[l].effects)
    {
      var model := index.model.value;
      if model.metaLabel in backend.skipModels {
        output := output + ["SKIPPING: " + model.metaLabel + "\n"];
        return SkippedTo(dummyIndex);
      }
      var strategy := backend.updateStrategy;
      var idx := OpenIndex(model, strategy != "soft" && strategy != "delta", lookupRaises);
      r := IndexTo(idx);
    }

    /**
     * The non-skipped part of `start`: the backend's index for the model,
     * looked up once to delete its documents when `wipe` holds, then again
     * to be returned; the second lookup finds the cached one.
     */
    method OpenIndex(model: ModelInfo, wipe: bool, lookupRaises: bool) returns (idx: ModelIndex)
      requires backend.Valid()
      modifies backend`indexCache, backend.indexCache.Values
      ensures backend.Valid()
      ensures var name := model.metaLabel;
        var before := if name in old(backend.indexCache) then old(backend.indexCache[name].effects)
                      else if lookupRaises then [CreateIndex(IndexLabel(name), "id")] else [];
        && backend.indexCache == old(backend.indexCache)[name := idx]
        && (name in old(backend.indexCache) ==> idx == old(backend.indexCache)[name])
        && (name !in old(backend.indexCache) ==> fresh(idx) && idx.model.Some? && idx.model.value == model)
        && idx.effects == before + (if wipe then [Remote.DeleteAllDocuments(IndexLabel(name))] else [])
        && forall l :: l in old(backend.indexCache) && l != name ==>
             backend.indexCache[l].effects == old(backend.indexCache[l].effects)
    {
      ghost var cache := backend.indexCache;
      var oldIndex := backend.GetIndexForModel(model, lookupRaises, false);
      assert backend.indexCache == cache[model.metaLabel := oldIndex];
      if wipe {
        WipeEntry(model.metaLabel, oldIndex);
      }
      idx := backend.GetIndexForModel(model, lookupRaises, false);
      assert idx == oldIndex;
    }

    /** `delete_all_documents` on one cached index; the other cached indexes are distinct objects and keep their calls. */
    method WipeEntry(name: string, entry: ModelIndex)
      requires backend.Valid() && name in backend.indexCache && backend.indexCache[name] == entry
      modifies entry`effects
      ensures backend.Valid()
      ensures backend.indexCache[name].effects == old(backend.indexCache[name].effects) + [Remote.DeleteAllDocuments(IndexLabel(name))]
      ensures forall l :: l in backend.indexCache && l != name ==>
        backend.indexCache[l].effects == old(backend.indexCache[l].effects)
    {
      entry.DeleteAllDocuments();
    }

    /** `finish` does nothing; its frame is empty. */
    method Finish()
    {
    }
  }
}
