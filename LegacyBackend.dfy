// The self-contained implementation in the earliest backend module: its
// model index (set-up, chunked writes, search), its rebuilder (hard or soft,
// no skip list) and its results (hits collected without repeats, scored by
// the printed length of their match information, the window cut after the
// rows are fetched, ordered and made distinct).

module LegacyBackend {
  import opened Common
  import opened Fields
  import opened Labels
  import opened Remote
  import Index
  import LegacyIndex
  import LegacyResults

  /** The earliest revision knows only "soft"; every other strategy, "delta" included, behaves as a hard one. */
  function EarliestStrategy(strategy: string): (r: string)
    ensures r == "soft" <==> strategy == "soft"
    ensures r != "delta"
  {
    if strategy == "soft" then "soft" else "hard"
  }

  /** `_set_index`: a lookup that raises creates the index and sets its stop words; otherwise no call. */
  function SetupCalls(uid: string, lookupRaises: bool, stopWords: seq<string>): seq<Effect>
  {
    if lookupRaises then [CreateIndex(uid, "id"), UpdateSettings(uid, StopWords(stopWords))] else []
  }

  /**
   * The exception that leaves `_set_index`, given the calls that raise
   * when made (`raising`): neither the create nor the stop-words update is
   * guarded, and both are made only when the lookup raises.
   */
  function SetupFailure(lookupRaises: bool, raising: set<LegacyIndex.SetupError>): Option<LegacyIndex.SetupError>
  {
    if !lookupRaises then None
    else if LegacyIndex.CreateRaised in raising then Some(LegacyIndex.CreateRaised)
    else if LegacyIndex.StopWordsRaised in raising then Some(LegacyIndex.StopWordsRaised)
    else None
  }

  /**
   * The calls `_set_index` makes before it returns or raises. A set-up that
   * raises stops at the call that raised, and only a lookup that raises
   * leads to a call that can raise: a raising create is the only call, a
   * raising stop-words update the last of both.
   */
  function SetupRun(uid: string, lookupRaises: bool, stopWords: seq<string>, raising: set<LegacyIndex.SetupError>): (run: seq<Effect>)
    ensures var full := SetupCalls(uid, lookupRaises, stopWords);
      && |run| <= |full| && run == full[..|run|]
      && (SetupFailure(lookupRaises, raising).Some? ==> lookupRaises && run != [] && run[0] == CreateIndex(uid, "id"))
      && (SetupFailure(lookupRaises, raising) == Some(LegacyIndex.CreateRaised) <==> |run| == 1)
      && (SetupFailure(lookupRaises, raising) == Some(LegacyIndex.StopWordsRaised) ==>
            run == full && run[|run| - 1] == UpdateSettings(uid, StopWords(stopWords)))
      && (SetupFailure(lookupRaises, raising).None? ==> run == full)
      && (SetupFailure(lookupRaises, raising).Some? <==>
            lookupRaises && (LegacyIndex.CreateRaised in raising || LegacyIndex.StopWordsRaised in raising))
  {
    if SetupFailure(lookupRaises, raising) == Some(LegacyIndex.CreateRaised) then [CreateIndex(uid, "id")]
    else SetupCalls(uid, lookupRaises, stopWords)
  }

  /** The search parameters fixed at construction. */
  const SEARCH_PARAMS: Params := map["limit" := PInt(999999), "matches" := PStr("true")]

  class ModelIndex {
    const model: Index.ModelInfo
    const updateStrategy: string
    const uid: string
    const searchParams: Params
    /** The exception that left `__init__`, if any. */
    const initError: Option<LegacyIndex.SetupError>
    /** The calls made through this index object, in order. */
    var effects: seq<Effect>

    /** The set-up did not raise, the uid is the model's index label and the parameters are the fixed ones. */
    predicate Valid()
    {
      initError.None? && uid == IndexLabel(model.metaLabel) && searchParams == SEARCH_PARAMS
    }

    /**
     * `__init__`: the label is computed and the index set up at once. When
     * a set-up call raises, the exception leaves `__init__` (`initError`)
     * and the caller gets no index object; the object is kept here only so
     * that the calls made before the raise stay visible. `search_params`,
     * assigned after `_set_index`, is then never set.
     */
    constructor (model: Index.ModelInfo, updateStrategy: string, stopWords: seq<string>, lookupRaises: bool,
                 raising: set<LegacyIndex.SetupError>)
      ensures this.model == model && this.updateStrategy == updateStrategy && uid == IndexLabel(model.metaLabel)
      ensures initError == SetupFailure(lookupRaises, raising)
      ensures Valid() <==> initError.None?
      ensures searchParams == if initError.Some? then map[] else SEARCH_PARAMS
      ensures effects == SetupRun(IndexLabel(model.metaLabel), lookupRaises, stopWords, raising)
    {
      this.model := model;
      this.updateStrategy := updateStrategy;
      uid := IndexLabel(model.metaLabel);
      initError := SetupFailure(lookupRaises, raising);
      searchParams := if SetupFailure(lookupRaises, raising).Some? then map[] else SEARCH_PARAMS;
      effects := SetupRun(IndexLabel(model.metaLabel), lookupRaises, stopWords, raising);
    }

    /**
     * `add_item`: one document, updated under "soft" and added otherwise;
     * a failing build escapes, and so does a write that raises
     * (`writeRaises`), after the call.
     */
    method AddItem(item: Index.Item, writeRaises: bool) returns (res: Result<(), Index.ItemError>)
      modifies this`effects
      ensures CreateDocument(model.searchFields, item.rec).Err? ==>
        res == Err(Index.ItemBuildFailed(CreateDocument(model.searchFields, item.rec).error)) && effects == old(effects)
      ensures CreateDocument(model.searchFields, item.rec).Ok? ==>
        var d := CreateDocument(model.searchFields, item.rec).value;
        && res == (if writeRaises then Err(Index.ItemWriteRaised) else Ok(()))
        && effects == old(effects) + [if updateStrategy == "soft" then UpdateDocuments(uid, [d]) else AddDocuments(uid, [d])]
    {
      var doc := CreateDocument(model.searchFields, item.rec);
      if doc.Err? {
        return Err(Index.ItemBuildFailed(doc.error));
      }
      if updateStrategy == "soft" {
        effects := effects + [UpdateDocuments(uid, [doc.value])];
      } else {
        effects := effects + [AddDocuments(uid, [doc.value])];
      }
      res := if writeRaises then Err(Index.ItemWriteRaised) else Ok(());
    }

    /**
     * `add_items`: chunks of 100, each built and then written, with no
     * delta filter and nothing suppressed. The run is the later revision's
     * chunk run under the strategy this revision actually applies.
     * `USING_CACHEOPS` is bound only when the cacheops import succeeds, so
     * without cacheops (`cacheopsInstalled` false) the first read of it
     * raises NameError before any chunk is cut, whatever the items.
     */
    method AddItems(items: seq<Index.Item>, failingWrites: set<nat>, cacheopsInstalled: bool)
      returns (res: Result<bool, LegacyIndex.AddError>)
      modifies this`effects
      ensures !cacheopsInstalled ==> res == Err(LegacyIndex.CacheopsUnbound) && effects == old(effects)
      ensures cacheopsInstalled ==>
        var run := LegacyIndex.RunChunks(model, EarliestStrategy(updateStrategy), uid,
                                         Index.Chunks(items, Index.CHUNK_SIZE), 0, failingWrites);
        && effects == old(effects) + run.effects
        && res == if run.failure.None? then Ok(true) else Err(run.failure.value)
    {
      if !cacheopsInstalled {
        return Err(LegacyIndex.CacheopsUnbound);
      }
      res := WriteChunks(Index.Chunks(items, Index.CHUNK_SIZE), failingWrites);
    }

    /** The loop of `add_items` over already-cut chunks. */
    method WriteChunks(chunks: seq<seq<Index.Item>>, failingWrites: set<nat>) returns (res: Result<bool, LegacyIndex.AddError>)
      modifies this`effects
      ensures var run := LegacyIndex.RunChunks(model, EarliestStrategy(updateStrategy), uid, chunks, 0, failingWrites);
        && effects == old(effects) + run.effects
        && res == if run.failure.None? then Ok(true) else Err(run.failure.value)
    {
      var strategy := EarliestStrategy(updateStrategy);
      var k := 0;
      ghost var done: seq<seq<Index.Item>> := [];
      while k < |chunks|
        invariant 0 <= k <= |chunks| && done == chunks[..k] && |done| == k
        invariant LegacyIndex.RunChunks(model, strategy, uid, done, 0, failingWrites).failure.None?
        invariant effects == old(effects) + LegacyIndex.RunChunks(model, strategy, uid, done, 0, failingWrites).effects
      {
        ghost var pre := LegacyIndex.RunChunks(model, strategy, uid, done, 0, failingWrites);
        ghost var step := LegacyIndex.ChunkStep(model, strategy, uid, chunks[k], 0, k, failingWrites);
        ghost var next := done + [chunks[k]];
        LegacyIndex.RunChunksStep(model, strategy, uid, done, chunks[k], 0, failingWrites);
        assert LegacyIndex.RunChunks(model, strategy, uid, next, 0, failingWrites) ==
          LegacyIndex.Run(pre.effects + step.effects, step.failure);
        ConcatAssoc(old(effects), pre.effects, step.effects);
        var failure := WriteChunk(chunks[k], k, failingWrites);
        assert effects == old(effects) + (pre.effects + step.effects) && failure == step.failure;
        assert chunks[..k + 1] == next;
        if failure.Some? {
          LegacyIndex.RunChunksStopsAt(model, strategy, uid, chunks, 0, failingWrites, next);
          return Err(failure.value);
        }
        done := next;
        k := k + 1;
      }
      assert done == chunks;
      return Ok(true);
    }

    /** The body of `add_items`' loop for chunk number `k`. */
    method WriteChunk(chunk: seq<Index.Item>, k: nat, failingWrites: set<nat>) returns (failure: Option<LegacyIndex.AddError>)
      modifies this`effects
      ensures var step := LegacyIndex.ChunkStep(model, EarliestStrategy(updateStrategy), uid, chunk, 0, k, failingWrites);
        effects == old(effects) + step.effects && failure == step.failure
    {
      var prepared := Index.PrepareDocs(model.searchFields, chunk);
      if prepared.Err? {
        return Some(LegacyIndex.BuildFailed(prepared.error));
      }
      failure := None;
      if |prepared.value| > 0 {
        if updateStrategy == "soft" {
          effects := effects + [UpdateDocuments(uid, prepared.value)];
        } else {
          effects := effects + [AddDocuments(uid, prepared.value)];
        }
        if k in failingWrites {
          failure := Some(LegacyIndex.WriteRaised(k));
        }
      }
    }

    method DeleteItem(id: int)
      modifies this`effects
      ensures effects == old(effects) + [DeleteDocument(uid, id)]
    {
      effects := effects + [DeleteDocument(uid, id)];
    }

    /**
     * `_rebuild`: deletes the remote index and runs `_set_index` again,
     * which has no early return in this revision, so a lookup that raises
     * creates the index anew with its stop words. A set-up call that raises
     * escapes `_rebuild` (`err`) after the calls made up to it.
     */
    method Rebuild(stopWords: seq<string>, lookupRaises: bool, raising: set<LegacyIndex.SetupError>)
      returns (err: Option<LegacyIndex.SetupError>)
      modifies this`effects
      ensures err == SetupFailure(lookupRaises, raising)
      ensures effects == old(effects) + [DeleteIndex(uid)] + SetupRun(uid, lookupRaises, stopWords, raising)
    {
      effects := effects + [DeleteIndex(uid)] + SetupRun(uid, lookupRaises, stopWords, raising);
      err := SetupFailure(lookupRaises, raising);
    }

    /** `search`: the fixed parameters, never changed. */
    method Search(query: string) returns (call: Effect)
      requires Valid()
      modifies this`effects
      ensures call == SearchCall(uid, query, SEARCH_PARAMS)
      ensures effects == old(effects) + [call]
    {
      call := SearchCall(uid, query, searchParams);
      effects := effects + [call];
    }
  }

  /**
   * Where no write raises, the earliest `add_items` makes exactly the calls
   * of the current revision's bulk write under the strategy it applies, so
   * every item is sent once, in order, when every document builds.
   */
  lemma AddItemsAsCurrent(m: Index.ModelInfo, strategy: string, uid: string, items: seq<Index.Item>)
    requires Index.PrepareDocs(m.searchFields, items).Ok?
    ensures var run := LegacyIndex.RunChunks(m, EarliestStrategy(strategy), uid, Index.Chunks(items, Index.CHUNK_SIZE), 0, {});
      && run.failure.None?
      && SentDocs(run.effects) == Index.PrepareDocs(m.searchFields, items).value
  {
    var cfg := Index.Config(EarliestStrategy(strategy), None, Some(m));
    var chunks := Index.Chunks(items, Index.CHUNK_SIZE);
    LegacyIndex.RunChunksMatchesCurrent(m, EarliestStrategy(strategy), None, uid, chunks, 0);
    assert Index.SelectedAll(cfg, items, 0) == items;
    Index.BulkSendsEveryItem(cfg, uid, items, 0);
  }

  // ---------------------------------------------------------------------
  // Rebuilder

  class Rebuilder {
    const index: ModelIndex
    const uid: string

    predicate Valid()
    {
      index.Valid() && uid == index.uid
    }

    constructor (index: ModelIndex)
      requires index.Valid()
      ensures Valid() && this.index == index && uid == IndexLabel(index.model.metaLabel)
    {
      this.index := index;
      uid := IndexLabel(index.model.metaLabel);
    }

    /**
     * `start`: "soft" deletes nothing; any other strategy deletes every
     * document of the index first. There is no skip list, and the index
     * returned is a new object, set up as any new index is. When its
     * set-up raises, `start` raises after the delete (`r.initError`).
     */
    method Start(stopWords: seq<string>, lookupRaises: bool, raising: set<LegacyIndex.SetupError>) returns (r: ModelIndex)
      requires Valid()
      modifies index`effects
      ensures index.updateStrategy == "soft" ==> index.effects == old(index.effects)
      ensures index.updateStrategy != "soft" ==> index.effects == old(index.effects) + [DeleteAllDocuments(uid)]
      ensures fresh(r) && r.model == index.model && r.updateStrategy == index.updateStrategy && r.uid == uid
      ensures r.initError == SetupFailure(lookupRaises, raising) && (r.Valid() <==> r.initError.None?)
      ensures r.effects == SetupRun(uid, lookupRaises, stopWords, raising)
    {
      if index.updateStrategy != "soft" {
        index.effects := index.effects + [DeleteAllDocuments(uid)];
      }
      r := new ModelIndex(index.model, index.updateStrategy, stopWords, lookupRaises, raising);
    }

    /** `finish`: nothing to do. */
    method Finish()
    {
    }
  }

  // ---------------------------------------------------------------------
  // Results

  /** A hit: its primary key and `len(str(item['_matchesInfo']))`, given as an input. */
  datatype Hit = Hit(id: int, infoLength: nat)

  function HitId(h: Hit): int { h.id }

  function InfoLength(h: Hit): int { h.infoLength }

  /** The hits of every descendant model's search, a hit equal to one already collected skipped. */
  method CollectHits(replies: seq<seq<Hit>>) returns (results: seq<Hit>)
    ensures results == Dedup(Index.Flatten(replies))
  {
    results := [];
    var i := 0;
    while i < |replies|
      invariant 0 <= i <= |replies|
      invariant results == Dedup(Index.Flatten(replies[..i]))
    {
      var hits := replies[i];
      var j := 0;
      assert Index.Flatten(replies[..i]) + hits[..0] == Index.Flatten(replies[..i]);
      while j < |hits|
        invariant 0 <= j <= |hits|
        invariant results == Dedup(Index.Flatten(replies[..i]) + hits[..j])
      {
        var pre := Index.Flatten(replies[..i]) + hits[..j];
        assert Index.Flatten(replies[..i]) + hits[..j + 1] == pre + [hits[j]];
        assert (pre + [hits[j]])[..|pre|] == pre;
        if hits[j] !in results {
          results := results + [hits[j]];
        }
        j := j + 1;
      }
      assert hits[..j] == hits;
      assert replies[..i + 1] == replies[..i] + [hits];
      Index.FlattenSnoc(replies[..i], hits);
      i := i + 1;
    }
    assert replies[..i] == replies;
  }

  /** The collected hits are each hit of some reply, once. */
  lemma CollectedSpec(replies: seq<seq<Hit>>)
    ensures var r := Dedup(Index.Flatten(replies));
      && NoDuplicates(r)
      && forall h :: h in r <==> exists i :: 0 <= i < |replies| && h in replies[i]
  {
    DedupFacts(Index.Flatten(replies));
    FlattenMembers(replies);
  }

  lemma {:induction false} FlattenMembers<T>(ss: seq<seq<T>>)
    ensures forall x :: x in Index.Flatten(ss) <==> exists i :: 0 <= i < |ss| && x in ss[i]
  {
    if ss != [] {
      FlattenMembers(ss[1..]);
      forall x ensures x in Index.Flatten(ss) <==> exists i :: 0 <= i < |ss| && x in ss[i] {
        if exists i :: 0 <= i < |ss| && x in ss[i] {
          var i :| 0 <= i < |ss| && x in ss[i];
          if i > 0 { assert ss[1..][i - 1] == ss[i]; }
        }
        if x in Index.Flatten(ss[1..]) {
          var i :| 0 <= i < |ss[1..]| && x in ss[1..][i];
          assert ss[i + 1] == ss[1..][i];
        }
      }
    }
  }

  /** `sorted(results, key=itemgetter('score'), reverse=True)`, then the ids. */
  function SortedIds(hits: seq<Hit>): seq<int>
  {
    Map(HitId, SortDesc(hits, InfoLength))
  }

  /** The ids come out in non-increasing score order, a permutation of the hits' ids. */
  lemma SortedIdsSpec(hits: seq<Hit>)
    ensures var s := SortDesc(hits, InfoLength);
      && SortedIds(hits) == Map(HitId, s)
      && Descending(s, InfoLength)
      && multiset(SortedIds(hits)) == multiset(Map(HitId, hits))
      && forall k :: WithKey(s, InfoLength, k) == WithKey(hits, InfoLength, k)
  {
    SortDescFacts(hits, InfoLength);
    MapMultiset(HitId, SortDesc(hits, InfoLength), hits);
  }

  /** How slicing a Django queryset can fail: a negative bound. */
  datatype SliceError = NegativeIndexing

  /** Either bound is given and negative. */
  predicate NegativeBound(start: Option<int>, stop: Option<int>)
  {
    (start.Some? && start.value < 0) || (stop.Some? && stop.value < 0)
  }

  /**
   * `queryset[start:stop]`: Django refuses a negative bound ("Negative
   * indexing is not supported."). Other bounds are clamped to the rows, and
   * a start past the stop gives no rows.
   */
  function QuerySetSlice(s: seq<int>, start: Option<int>, stop: Option<int>): (r: Result<seq<int>, SliceError>)
    ensures r.Err? <==> NegativeBound(start, stop)
    ensures r.Ok? ==>
      var lo := if start.None? then 0 else if start.value <= |s| then start.value else |s|;
      var hi := if stop.None? then |s| else if stop.value <= |s| then stop.value else |s|;
      r.value == if lo <= hi then s[lo..hi] else []
  {
    if NegativeBound(start, stop) then Err(NegativeIndexing) else Ok(Slice(s, start, stop))
  }

  /**
   * `_do_search` after scoring: the rows named by some hit, ordered by
   * their position among the sorted ids under relevance ordering, made
   * distinct, and only then cut to `[start:stop]` as a queryset is cut.
   */
  function DoSearch(sortedIds: seq<int>, rows: seq<int>, start: Option<int>, stop: Option<int>,
                    orderByRelevance: bool): Result<seq<int>, SliceError>
  {
    QuerySetSlice(LegacyResults.InWindow(sortedIds, rows, orderByRelevance), start, stop)
  }

  /**
   * A negative bound raises. Otherwise the result is a contiguous run of
   * the distinct rows named by some hit, so each is a row of the queryset,
   * named by a hit, present once; in position order under relevance
   * ordering, and in queryset order without it.
   */
  lemma DoSearchSpec(sortedIds: seq<int>, rows: seq<int>, start: Option<int>, stop: Option<int>, orderByRelevance: bool)
    ensures var r := DoSearch(sortedIds, rows, start, stop, orderByRelevance);
      && (r.Err? <==> NegativeBound(start, stop))
      && (r.Ok? ==> forall x :: x in r.value ==> x in rows && x in sortedIds)
      && (r.Ok? ==> NoDuplicates(r.value))
      && (r.Ok? ==> |r.value| <= |LegacyResults.InWindow(sortedIds, rows, orderByRelevance)|)
      && (r.Ok? && orderByRelevance ==>
            forall i, j :: 0 <= i < j < |r.value| ==> FirstPos(sortedIds, r.value[i]) < FirstPos(sortedIds, r.value[j]))
      && (r.Ok? && !orderByRelevance ==> KeepsOrder(r.value, rows))
      && (start.None? && stop.None? ==> r == Ok(LegacyResults.InWindow(sortedIds, rows, orderByRelevance)))
  {
    var full := LegacyResults.InWindow(sortedIds, rows, orderByRelevance);
    LegacyResults.InWindowSpec(sortedIds, rows, orderByRelevance);
    var r := DoSearch(sortedIds, rows, start, stop, orderByRelevance);
    if r.Ok? {
      var lo, hi := SliceBound(start, 0, |full|), SliceBound(stop, |full|, |full|);
      if lo <= hi {
        assert r.value == full[lo..hi];
        assert forall i :: 0 <= i < |r.value| ==> r.value[i] == full[lo + i];
      }
    }
    if start.None? && stop.None? {
      assert full[0..|full|] == full;
    }
  }

  /** `_do_count`: the length of the search's result, window included; it raises when the search does. */
  function DoCount(sortedIds: seq<int>, rows: seq<int>, start: Option<int>, stop: Option<int>, orderByRelevance: bool)
    : Result<nat, SliceError>
  {
    var r := DoSearch(sortedIds, rows, start, stop, orderByRelevance);
    if r.Err? then Err(r.error) else Ok(|r.value|)
  }

  /**
   * A negative bound raises. Otherwise the count never exceeds the number
   * of distinct rows named by a hit, equals it without a window, and never
   * exceeds `stop - start` for ordered bounds.
   */
  lemma DoCountSpec(sortedIds: seq<int>, rows: seq<int>, start: Option<int>, stop: Option<int>, orderByRelevance: bool)
    ensures var full := LegacyResults.InWindow(sortedIds, rows, orderByRelevance);
      var n := DoCount(sortedIds, rows, start, stop, orderByRelevance);
      && (n.Err? <==> NegativeBound(start, stop))
      && (n.Ok? ==> n.value <= |full|)
      && (start.None? && stop.None? ==> n == Ok(|full|))
      && (start.Some? && stop.Some? && 0 <= start.value <= stop.value ==>
            n.Ok? && n.value <= stop.value - start.value)
  {
    DoSearchSpec(sortedIds, rows, start, stop, orderByRelevance);
  }

  /**
   * Where the revisions part: a top-ranked id with no row takes a place in
   * the later revision's window but not in this one's.
   */
  lemma WindowPlacementDiffers()
    ensures DoSearch([1, 2], [2], None, Some(1), true) == Ok([2])
    ensures LegacyResults.WindowRows([1, 2], [2], None, Some(1), true) == []
  {
    var key := (pk: int) => LegacyResults.NegPos([1, 2], pk);
    assert Filter((pk: int) => pk in [1, 2], [2]) == [2] by {
      assert [2][1..] == [];
    }
    assert SortDesc([2], key) == [2] by {
      assert [2][1..] == [];
    }
    assert Dedup([2]) == [2] by {
      assert [2][..0] == [];
    }
    assert LegacyResults.InWindow([1, 2], [2], true) == [2];
    assert [1, 2][0..1] == [1];
    assert Filter((pk: int) => pk in [1], [2]) == [] by {
      assert [2][1..] == [];
    }
  }
}
