// The per-model index of the current revision (`MeiliSearchModelIndex` and
// `MeiliIndexRegistry`): bulk writes in chunks of 100, the update strategy,
// the recency filter of the delta strategy, the memoised label and remote
// index handle, and the search call that merges extra parameters into the
// backend's shared parameter dict.

module Index {
  import opened Common
  import opened Fields
  import opened Labels
  import opened Remote

  const CHUNK_SIZE: nat := 100

  // ---------------------------------------------------------------------
  // Items

  /**
   * A timestamp attribute: None, an instant (seconds), or a value whose
   * comparison with `since` raises TypeError (a naive datetime, a date).
   */
  datatype Stamp = Unset | At(t: int) | Incomparable

  /** An instance handed to the index: its searchable attributes and the timestamp attributes it has. */
  datatype Item = Item(rec: Record, stamps: map<string, Stamp>)

  /**
   * The indexed model: its Django label, the list `get_search_fields()`
   * returns, the names of its model fields, and its raw `search_fields`
   * class attribute (None when the model has no such attribute).
   */
  datatype ModelInfo = ModelInfo(metaLabel: string, searchFields: seq<Field>, fieldNames: seq<string>,
                                 declaredFields: Option<seq<Field>>)

  // ---------------------------------------------------------------------
  // [items[x : x + 100] for x in range(0, len(items), 100)]

  function Min(a: int, b: int): int { if a <= b then a else b }

  /** The slices `items[x : x + n]` for x = start, start + n, ... below `len(items)`. */
  function ChunksFrom<T>(items: seq<T>, start: nat, n: nat): seq<seq<T>>
    requires n > 0
    decreases |items| - start
  {
    if start >= |items| then []
    else [items[start..Min(start + n, |items|)]] + ChunksFrom(items, start + n, n)
  }

  function Chunks<T>(items: seq<T>, n: nat): seq<seq<T>>
    requires n > 0
  {
    ChunksFrom(items, 0, n)
  }

  function Flatten<T>(ss: seq<seq<T>>): seq<T>
  {
    if ss == [] then [] else ss[0] + Flatten(ss[1..])
  }

  lemma {:induction false} ChunksFromFlatten<T>(items: seq<T>, start: nat, n: nat)
    requires n > 0 && start <= |items|
    ensures Flatten(ChunksFrom(items, start, n)) == items[start..]
    decreases |items| - start
  {
    if start < |items| {
      var c := ChunksFrom(items, start, n);
      var hi := Min(start + n, |items|);
      ChunksFromFlatten(items, hi, n);
      if start + n < |items| {
        assert c[1..] == ChunksFrom(items, start + n, n);
      } else {
        assert ChunksFrom(items, start + n, n) == [];
        assert c[1..] == [];
      }
      assert items[start..] == items[start..hi] + items[hi..];
    }
  }

  /** Concatenating the slices gives back the input list. */
  lemma ChunksFlatten<T>(items: seq<T>, n: nat)
    requires n > 0
    ensures Flatten(Chunks(items, n)) == items
  {
    ChunksFromFlatten(items, 0, n);
  }

  lemma {:induction false} ChunksFromShape<T>(items: seq<T>, start: nat, n: nat)
    requires n > 0 && start <= |items|
    ensures var c := ChunksFrom(items, start, n);
      && |items| - start <= |c| * n
      && (|c| > 0 ==> (|c| - 1) * n < |items| - start)
      && (forall k :: 0 <= k < |c| ==> 0 < |c[k]| <= n)
      && (forall k :: 0 <= k < |c| - 1 ==> |c[k]| == n)
    decreases |items| - start
  {
    var c := ChunksFrom(items, start, n);
    if start < |items| {
      var hi := Min(start + n, |items|);
      ChunksFromShape(items, hi, n);
      var rest := ChunksFrom(items, hi, n);
      if start + n < |items| {
        assert rest == ChunksFrom(items, start + n, n);
      } else {
        assert ChunksFrom(items, start + n, n) == [] && rest == [];
      }
      assert c == [items[start..hi]] + rest;
      assert |c| * n == |rest| * n + n;
      assert |rest| > 0 ==> (|c| - 1) * n == (|rest| - 1) * n + n;
    }
  }

  /**
   * There are ceil(len/n) slices, every slice holds between 1 and n items,
   * and every slice but the last holds exactly n.
   */
  lemma ChunksShape<T>(items: seq<T>, n: nat)
    requires n > 0
    ensures var c := Chunks(items, n);
      && |items| <= |c| * n
      && (|c| > 0 ==> (|c| - 1) * n < |items|)
      && (forall k :: 0 <= k < |c| ==> 0 < |c[k]| <= n)
      && (forall k :: 0 <= k < |c| - 1 ==> |c[k]| == n)
  {
    ChunksFromShape(items, 0, n);
  }

  // ---------------------------------------------------------------------
  // _check_deltas

  /** `val and val > since`: None is falsy and an incomparable value raises TypeError, which is swallowed. */
  predicate StampIsRecent(item: Item, field: string, since: int)
  {
    field in item.stamps && item.stamps[field].At? && item.stamps[field].t > since
  }

  predicate Recent(item: Item, since: int)
  {
    exists i :: 0 <= i < |DELTA_FIELDS| && StampIsRecent(item, DELTA_FIELDS[i], since)
  }

  /** `not self.update_delta`: None and the empty dict both switch the filter off. */
  predicate DeltaEnabled(delta: Option<map<string, int>>)
  {
    delta.Some? && delta.value != map[]
  }

  /** The objects kept, in input order, each occurrence at most once. */
  function KeepRecent(objects: seq<Item>, since: int, hasDates: bool): seq<Item>
  {
    if objects == [] then []
    else
      var last := objects[|objects| - 1];
      KeepRecent(objects[..|objects| - 1], since, hasDates) + (if hasDates && Recent(last, since) then [last] else [])
  }

  function DeltaFilter(objects: seq<Item>, delta: Option<map<string, int>>, since: int, hasDates: bool): seq<Item>
  {
    if DeltaEnabled(delta) then KeepRecent(objects, since, hasDates) else []
  }

  /** The model-level date-field check: some model field is a delta timestamp. */
  function ModelHasDateFields(model: Option<ModelInfo>): bool
  {
    model.Some? && HasDateFields(model.value.fieldNames)
  }

  /**
   * An object is kept exactly when the model has date fields and one of its
   * delta timestamps is later than `since`; no occurrence is repeated.
   */
  lemma {:induction false} KeepRecentMembers(objects: seq<Item>, since: int, hasDates: bool)
    ensures forall x :: x in KeepRecent(objects, since, hasDates) <==> x in objects && hasDates && Recent(x, since)
    ensures multiset(KeepRecent(objects, since, hasDates)) <= multiset(objects)
  {
    if objects != [] {
      var init := objects[..|objects| - 1];
      KeepRecentMembers(init, since, hasDates);
      assert objects == init + [objects[|objects| - 1]];
    }
  }

  /** Filtering a concatenation filters each part. */
  lemma {:induction false} KeepRecentConcat(a: seq<Item>, b: seq<Item>, since: int, hasDates: bool)
    ensures KeepRecent(a + b, since, hasDates) == KeepRecent(a, since, hasDates) + KeepRecent(b, since, hasDates)
  {
    if b == [] {
      assert a + b == a;
    } else {
      assert (a + b)[..|a + b| - 1] == a + b[..|b| - 1];
      KeepRecentConcat(a, b[..|b| - 1], since, hasDates);
    }
  }

  /**
   * `_check_deltas` as written. Its `_has_date_fields` reads
   * `self.model_fields`, which no method of the index sets. So once the
   * filter is on, the first object raises AttributeError. None stands for
   * that exception.
   */
  function CheckDeltasAsWritten(objects: seq<Item>, delta: Option<map<string, int>>): (r: Option<seq<Item>>)
    ensures r.None? <==> DeltaEnabled(delta) && |objects| > 0
    ensures r.Some? ==> r.value == []
  {
    if !DeltaEnabled(delta) || objects == [] then Some([]) else None
  }

  /**
   * Counterexample: under the default delta `{"weeks": -1}`, one object
   * created after `since` raises as written. The intended filter keeps it
   * for a model with a `created_at` field.
   */
  lemma CheckDeltasAsWrittenRaises()
    ensures var item := Item(Record(1, map[]), map["created_at" := At(5)]);
      var model := ModelInfo("app.Page", [], ["created_at"], None);
      && CheckDeltasAsWritten([item], Some(map["weeks" := -1])) == None
      && DeltaFilter([item], Some(map["weeks" := -1]), 0, ModelHasDateFields(Some(model))) == [item]
  {
    var item := Item(Record(1, map[]), map["created_at" := At(5)]);
    assert StampIsRecent(item, DELTA_FIELDS[0], 0);
    assert DELTA_FIELDS[0] == "created_at";
    assert HasDateFields(["created_at"]);
    assert [item][..0] == [];
    assert "weeks" in map["weeks" := -1];
  }

  // ---------------------------------------------------------------------
  // Bulk writes

  datatype Config = Config(strategy: string, delta: Option<map<string, int>>, model: Option<ModelInfo>)

  /** `[self._create_document(self.model, item) for item in chunk]`: the first failure escapes. */
  function PrepareDocs(fields: seq<Field>, items: seq<Item>): Result<seq<Document>, DocError>
  {
    if items == [] then Ok([])
    else
      match PrepareDocs(fields, items[..|items| - 1])
      case Err(e) => Err(e)
      case Ok(docs) =>
        match CreateDocument(fields, items[|items| - 1].rec)
        case Err(e) => Err(e)
        case Ok(d) => Ok(docs + [d])
  }

  lemma {:induction false} PrepareDocsConcat(fields: seq<Field>, a: seq<Item>, b: seq<Item>)
    requires PrepareDocs(fields, a + b).Ok?
    ensures PrepareDocs(fields, a).Ok? && PrepareDocs(fields, b).Ok?
    ensures PrepareDocs(fields, a + b).value == PrepareDocs(fields, a).value + PrepareDocs(fields, b).value
  {
    if b == [] {
      assert a + b == a;
    } else {
      assert (a + b)[..|a + b| - 1] == a + b[..|b| - 1];
      assert (a + b)[|a + b| - 1] == b[|b| - 1];
      PrepareDocsConcat(fields, a, b[..|b| - 1]);
    }
  }

  /** The strategy decides the call: soft and delta update documents, any other strategy adds them; nothing is sent for no documents. */
  function BulkWrite(strategy: string, uid: string, docs: seq<Document>): seq<Effect>
  {
    if docs == [] then []
    else if strategy == "soft" || strategy == "delta" then [UpdateDocuments(uid, docs)]
    else [AddDocuments(uid, docs)]
  }

  /** The items of a chunk that reach the write. */
  function Selected(cfg: Config, chunk: seq<Item>, since: int): seq<Item>
  {
    if cfg.strategy == "delta" then DeltaFilter(chunk, cfg.delta, since, ModelHasDateFields(cfg.model)) else chunk
  }

  function ChunkRun(cfg: Config, uid: string, chunk: seq<Item>, since: int): Result<seq<Effect>, DocError>
  {
    if cfg.model.None? then Ok([])
    else
      match PrepareDocs(cfg.model.value.searchFields, Selected(cfg, chunk, since))
      case Err(e) => Err(e)
      case Ok(docs) => Ok(BulkWrite(cfg.strategy, uid, docs))
  }

  /** The calls a run of chunks makes, and the document failure that stopped it, if any. */
  datatype Run = Run(effects: seq<Effect>, failure: Option<DocError>)

  function BulkRun(cfg: Config, uid: string, chunks: seq<seq<Item>>, since: int): Run
  {
    if chunks == [] then Run([], None)
    else
      var pre := BulkRun(cfg, uid, chunks[..|chunks| - 1], since);
      if pre.failure.Some? then pre
      else
        match ChunkRun(cfg, uid, chunks[|chunks| - 1], since)
        case Err(e) => Run(pre.effects, Some(e))
        case Ok(es) => Run(pre.effects + es, None)
  }

  /** A run that has not failed yet extends by the next chunk's outcome. */
  lemma BulkRunStep(cfg: Config, uid: string, done: seq<seq<Item>>, chunk: seq<Item>, since: int)
    requires BulkRun(cfg, uid, done, since).failure.None?
    ensures ChunkRun(cfg, uid, chunk, since).Err? ==>
      BulkRun(cfg, uid, done + [chunk], since) ==
      Run(BulkRun(cfg, uid, done, since).effects, Some(ChunkRun(cfg, uid, chunk, since).error))
    ensures ChunkRun(cfg, uid, chunk, since).Ok? ==>
      BulkRun(cfg, uid, done + [chunk], since) ==
      Run(BulkRun(cfg, uid, done, since).effects + ChunkRun(cfg, uid, chunk, since).value, None)
  {
    assert (done + [chunk])[..|done|] == done;
  }

  lemma {:induction false} BulkRunStops(cfg: Config, uid: string, chunks: seq<seq<Item>>, since: int, k: nat)
    requires k <= |chunks| && BulkRun(cfg, uid, chunks[..k], since).failure.Some?
    ensures BulkRun(cfg, uid, chunks, since) == BulkRun(cfg, uid, chunks[..k], since)
  {
    if k < |chunks| {
      assert chunks[..|chunks| - 1][..k] == chunks[..k];
      BulkRunStops(cfg, uid, chunks[..|chunks| - 1], since, k);
    } else {
      assert chunks[..k] == chunks;
    }
  }

  /**
   * Every call of a bulk run is a write of a non-empty document list to the
   * index, and its kind is the strategy's: update for soft and delta, add
   * otherwise; there is at most one call per chunk.
   */
  lemma {:induction false} BulkRunCalls(cfg: Config, uid: string, chunks: seq<seq<Item>>, since: int)
    ensures var es := BulkRun(cfg, uid, chunks, since).effects;
      |es| <= |chunks| &&
      forall i :: 0 <= i < |es| ==>
        es[i].uid == uid && es[i].IsWrite() && es[i].docs != [] &&
        (es[i].UpdateDocuments? <==> cfg.strategy == "soft" || cfg.strategy == "delta")
  {
    if chunks != [] {
      BulkRunCalls(cfg, uid, chunks[..|chunks| - 1], since);
    }
  }

  /** With no model, no chunk is written and the run always succeeds. */
  lemma {:induction false} BulkRunNoModel(cfg: Config, uid: string, chunks: seq<seq<Item>>, since: int)
    requires cfg.model.None?
    ensures BulkRun(cfg, uid, chunks, since) == Run([], None)
  {
    if chunks != [] {
      BulkRunNoModel(cfg, uid, chunks[..|chunks| - 1], since);
    }
  }

  function SelectedAll(cfg: Config, items: seq<Item>, since: int): seq<Item>
  {
    if cfg.strategy == "delta" then DeltaFilter(items, cfg.delta, since, ModelHasDateFields(cfg.model)) else items
  }

  lemma {:induction false} FlattenSnoc<T>(ss: seq<seq<T>>, s: seq<T>)
    ensures Flatten(ss + [s]) == Flatten(ss) + s
  {
    if ss != [] {
      assert (ss + [s])[1..] == ss[1..] + [s];
      FlattenSnoc(ss[1..], s);
    }
  }

  /** Selecting over the flattened chunks selects chunk by chunk. */
  lemma SelectedSnoc(cfg: Config, init: seq<seq<Item>>, last: seq<Item>, since: int)
    ensures SelectedAll(cfg, Flatten(init + [last]), since) ==
      SelectedAll(cfg, Flatten(init), since) + Selected(cfg, last, since)
  {
    FlattenSnoc(init, last);
    if cfg.strategy == "delta" && DeltaEnabled(cfg.delta) {
      KeepRecentConcat(Flatten(init), last, since, ModelHasDateFields(cfg.model));
    }
  }

  /** The inductive step of `BulkRunSends`: one more chunk sends its own documents after the earlier ones. */
  lemma BulkRunSendsSnoc(cfg: Config, uid: string, init: seq<seq<Item>>, last: seq<Item>, since: int)
    requires cfg.model.Some?
    requires PrepareDocs(cfg.model.value.searchFields, SelectedAll(cfg, Flatten(init + [last]), since)).Ok?
    requires PrepareDocs(cfg.model.value.searchFields, SelectedAll(cfg, Flatten(init), since)).Ok? ==>
      && BulkRun(cfg, uid, init, since).failure.None?
      && SentDocs(BulkRun(cfg, uid, init, since).effects) ==
           PrepareDocs(cfg.model.value.searchFields, SelectedAll(cfg, Flatten(init), since)).value
    ensures BulkRun(cfg, uid, init + [last], since).failure.None?
    ensures SentDocs(BulkRun(cfg, uid, init + [last], since).effects) ==
      PrepareDocs(cfg.model.value.searchFields, SelectedAll(cfg, Flatten(init + [last]), since)).value
  {
    var fields := cfg.model.value.searchFields;
    SelectedSnoc(cfg, init, last, since);
    PrepareDocsConcat(fields, SelectedAll(cfg, Flatten(init), since), Selected(cfg, last, since));
    var pre := BulkRun(cfg, uid, init, since);
    var docs := PrepareDocs(fields, Selected(cfg, last, since)).value;
    var write := BulkWrite(cfg.strategy, uid, docs);
    assert ChunkRun(cfg, uid, last, since) == Ok(write);
    BulkRunStep(cfg, uid, init, last, since);
    assert BulkRun(cfg, uid, init + [last], since) == Run(pre.effects + write, None);
    assert SentDocs(write) == docs by {
      if write != [] {
        assert write[..0] == [];
      }
    }
    SentDocsConcat(pre.effects, write);
  }

  lemma {:induction false} BulkRunSends(cfg: Config, uid: string, chunks: seq<seq<Item>>, since: int)
    requires cfg.model.Some?
    requires PrepareDocs(cfg.model.value.searchFields, SelectedAll(cfg, Flatten(chunks), since)).Ok?
    ensures BulkRun(cfg, uid, chunks, since).failure.None?
    ensures SentDocs(BulkRun(cfg, uid, chunks, since).effects) ==
      PrepareDocs(cfg.model.value.searchFields, SelectedAll(cfg, Flatten(chunks), since)).value
  {
    if chunks != [] {
      var init, last := chunks[..|chunks| - 1], chunks[|chunks| - 1];
      assert chunks == init + [last];
      if PrepareDocs(cfg.model.value.searchFields, SelectedAll(cfg, Flatten(init), since)).Ok? {
        BulkRunSends(cfg, uid, init, since);
      }
      BulkRunSendsSnoc(cfg, uid, init, last, since);
    }
  }

  /**
   * When no document fails to build, `add_items` sends every item exactly
   * once and in order (under delta: exactly the recent ones), however the
   * list is split into chunks.
   */
  lemma BulkSendsEveryItem(cfg: Config, uid: string, items: seq<Item>, since: int)
    requires cfg.model.Some?
    requires PrepareDocs(cfg.model.value.searchFields, SelectedAll(cfg, items, since)).Ok?
    ensures BulkRun(cfg, uid, Chunks(items, CHUNK_SIZE), since).failure.None?
    ensures SentDocs(BulkRun(cfg, uid, Chunks(items, CHUNK_SIZE), since).effects) ==
      PrepareDocs(cfg.model.value.searchFields, SelectedAll(cfg, items, since)).value
  {
    ChunksFlatten(items, CHUNK_SIZE);
    BulkRunSends(cfg, uid, Chunks(items, CHUNK_SIZE), since);
  }

  /**
   * How `add_item` can fail: the document does not build, or the single
   * write raises. Neither is suppressed, so both escape to the caller. In
   * the earlier revision, a delta strategy whose delta is None also makes
   * the recency filter raise TypeError (`ItemDeltaUnset`).
   */
  datatype ItemError = ItemBuildFailed(error: DocError) | ItemWriteRaised | ItemDeltaUnset

  /** `add_item`'s one call: soft updates, every other strategy (delta included) adds. */
  function SingleWrite(strategy: string, uid: string, doc: Document): Effect
  {
    if strategy == "soft" then UpdateDocuments(uid, [doc]) else AddDocuments(uid, [doc])
  }

  // ---------------------------------------------------------------------
  // The index object

  /** The backend's `search_params` dict, shared by every index of the backend. */
  class SearchParams {
    var params: Params

    constructor (params: Params)
      ensures this.params == params
    {
      this.params := params;
    }
  }

  /** `Index.create` in the `except HTTPError` branch of `_set_index` raised; nothing guards it. */
  datatype SetupError = CreateRaised

  /**
   * The exception that leaves `_set_index` for a new index: only a model
   * whose lookup raises reaches the create, and the create raises when
   * `createRaises` holds.
   */
  function CreateFailure(model: Option<ModelInfo>, lookupRaises: bool, createRaises: bool): (r: Option<SetupError>)
    ensures r.Some? <==> model.Some? && lookupRaises && createRaises
  {
    if model.Some? && lookupRaises && createRaises then Some(CreateRaised) else None
  }

  class ModelIndex {
    const backendParams: SearchParams
    const model: Option<ModelInfo>
    const updateStrategy: string
    const updateDelta: Option<map<string, int>>
    /** The index's own `search_params`, which the current revision builds but never uses. */
    const searchParams: Params
    /** The exception that left `__init__`, if any. */
    const initError: Option<SetupError>
    /** The memoised uid; "" until `_get_label` has run. */
    var memo: string
    /** The remote index handle, given by its uid; None until `_set_index` has run. */
    var index: Option<string>
    /** The calls this index has made to the server, in order. */
    var effects: seq<Effect>

    ghost predicate Valid()
      reads this
    {
      model.Some? ==> index.Some?
    }

    function Cfg(): Config
    {
      Config(updateStrategy, updateDelta, model)
    }

    function Uid(): string
      reads this
    {
      if index.Some? then index.value else ""
    }

    /**
     * `__init__`: the settings come from the backend's settings object; the
     * index handle is set up by `_set_index`, which creates the remote index
     * when looking it up raises. When that create raises (`createRaises`),
     * the exception leaves `__init__` (`initError`) and the caller gets no
     * index object; the object is kept here only so that the call made
     * before the raise stays visible. It has no handle then, and
     * `search_params`, assigned after `_set_index`, is never set.
     */
    constructor (backendParams: SearchParams, model: Option<ModelInfo>, queryLimit: int,
                 updateStrategy: string, updateDelta: Option<map<string, int>>, lookupRaises: bool, createRaises: bool)
      ensures this.backendParams == backendParams && this.model == model
      ensures this.updateStrategy == updateStrategy && this.updateDelta == updateDelta
      ensures initError == CreateFailure(model, lookupRaises, createRaises)
      ensures Valid() <==> initError.None?
      ensures searchParams == if initError.Some? then map[] else
                              map["limit" := PInt(queryLimit),
                                  "attributesToRetrieve" := PStrs(["id", "first_published_at"]),
                                  "showMatchesPosition" := PBool(true)]
      ensures model.Some? ==> memo == IndexLabel(model.value.metaLabel)
      ensures model.Some? && initError.None? ==> index == Some(IndexLabel(model.value.metaLabel))
      ensures model.None? || initError.Some? ==> index.None?
      ensures model.None? ==> memo == ""
      ensures effects == if model.Some? && lookupRaises then [CreateIndex(IndexLabel(model.value.metaLabel), "id")] else []
    {
      this.backendParams := backendParams;
      this.model := model;
      this.updateStrategy := updateStrategy;
      this.updateDelta := updateDelta;
      initError := CreateFailure(model, lookupRaises, createRaises);
      this.searchParams := if CreateFailure(model, lookupRaises, createRaises).Some? then map[] else
                           map["limit" := PInt(queryLimit),
                               "attributesToRetrieve" := PStrs(["id", "first_published_at"]),
                               "showMatchesPosition" := PBool(true)];
      memo := "";
      index := None;
      effects := [];
      new;
      var h := SetIndex(model, lookupRaises, createRaises);
    }

    /** `_get_label`: computed once, then returned from the memo whatever model is passed. */
    method GetLabel(m: ModelInfo) returns (l: string)
      modifies this`memo
      ensures old(memo) != "" ==> l == old(memo) && memo == old(memo)
      ensures old(memo) == "" ==> l == IndexLabel(m.metaLabel) && memo == l
    {
      if memo != "" {
        return memo;
      }
      memo := IndexLabel(m.metaLabel);
      l := memo;
    }

    /**
     * `_set_index`: an index already set is returned untouched; no model
     * gives no index; otherwise the handle for the label, created first when
     * looking it up raises. The create is not guarded: when it raises
     * (`createRaises`), the exception escapes after the call and the handle
     * stays unset.
     */
    method SetIndex(m: Option<ModelInfo>, lookupRaises: bool, createRaises: bool)
      returns (h: Result<Option<string>, SetupError>)
      modifies this`memo, this`index, this`effects
      ensures old(index).Some? ==> h == Ok(old(index)) && index == old(index) && memo == old(memo) && effects == old(effects)
      ensures old(index).None? && m.None? ==> h == Ok(None) && index == old(index) && memo == old(memo) && effects == old(effects)
      ensures old(index).None? && m.Some? ==>
        var uid := if old(memo) != "" then old(memo) else IndexLabel(m.value.metaLabel);
        && memo == uid
        && effects == old(effects) + (if lookupRaises then [CreateIndex(uid, "id")] else [])
        && (lookupRaises && createRaises ==> h == Err(CreateRaised) && index.None?)
        && (!(lookupRaises && createRaises) ==> h == Ok(Some(uid)) && index == Some(uid))
    {
      if index.Some? {
        return Ok(index);
      }
      if m.None? {
        return Ok(None);
      }
      var uid := GetLabel(m.value);
      if lookupRaises {
        effects := effects + [CreateIndex(uid, "id")];
        if createRaises {
          return Err(CreateRaised);
        }
      }
      index := Some(uid);
      h := Ok(index);
    }

    /**
     * `_rebuild`: deletes the remote index, then calls `_set_index`, which
     * finds the handle still set and returns it; nothing is created again.
     */
    method Rebuild()
      requires index.Some?
      modifies this`memo, this`index, this`effects
      ensures index == old(index) && memo == old(memo)
      ensures effects == old(effects) + [DeleteIndex(old(index).value)]
    {
      effects := effects + [DeleteIndex(index.value)];
      var _ := SetIndex(model, false, false);
    }

    /**
     * `_check_deltas`: nothing when no delta is configured; otherwise the
     * objects with a delta timestamp later than `since` (the instant
     * `now().shift(**update_delta)` denotes), each once.
     */
    method CheckDeltas(objects: seq<Item>, since: int) returns (filtered: seq<Item>)
      ensures filtered == DeltaFilter(objects, updateDelta, since, ModelHasDateFields(model))
    {
      filtered := [];
      if updateDelta.None? || updateDelta.value == map[] {
        return;
      }
      var hasDates := ModelHasDateFields(model);
      var i := 0;
      while i < |objects|
        invariant 0 <= i <= |objects|
        invariant filtered == KeepRecent(objects[..i], since, hasDates)
      {
        var obj := objects[i];
        assert objects[..i + 1][..i] == objects[..i];
        if hasDates {
          var j := 0;
          var found := false;
          while j < |DELTA_FIELDS| && !found
            invariant 0 <= j <= |DELTA_FIELDS|
            invariant filtered == KeepRecent(objects[..i], since, hasDates) + (if found then [obj] else [])
            invariant found ==> Recent(obj, since)
            invariant !found ==> forall m :: 0 <= m < j ==> !StampIsRecent(obj, DELTA_FIELDS[m], since)
          {
            var field := DELTA_FIELDS[j];
            if field in obj.stamps {
              var val := obj.stamps[field];
              if val.At? && val.t > since {
                filtered := filtered + [obj];
                found := true;
              }
            }
            j := j + 1;
          }
          assert !found ==> !Recent(obj, since);
        }
        i := i + 1;
      }
      assert objects[..i] == objects;
    }

    /**
     * `add_item`: under delta the filtered list can only hold the item
     * itself, so the same item is written either way; no model writes
     * nothing; a document that fails to build escapes. `writeRaises` is
     * whether the remote write raises; the call is made and its exception
     * escapes.
     */
    method AddItem(item: Item, since: int, writeRaises: bool) returns (res: Result<(), ItemError>)
      requires Valid()
      modifies this`effects
      ensures model.None? ==> res == Ok(()) && effects == old(effects)
      ensures model.Some? && CreateDocument(model.value.searchFields, item.rec).Err? ==>
        res == Err(ItemBuildFailed(CreateDocument(model.value.searchFields, item.rec).error)) && effects == old(effects)
      ensures model.Some? && CreateDocument(model.value.searchFields, item.rec).Ok? ==>
        && res == (if writeRaises then Err(ItemWriteRaised) else Ok(()))
        && effects == old(effects) + [SingleWrite(updateStrategy, index.value, CreateDocument(model.value.searchFields, item.rec).value)]
    {
      var it := item;
      if updateStrategy == "delta" {
        var checked := CheckDeltas([item], since);
        if |checked| > 0 {
          KeepRecentMembers([item], since, ModelHasDateFields(model));
          assert checked[0] in checked;
          it := checked[0];
        }
      }
      if model.None? {
        return Ok(());
      }
      var doc := CreateDocument(model.value.searchFields, it.rec);
      if doc.Err? {
        return Err(ItemBuildFailed(doc.error));
      }
      if updateStrategy == "soft" {
        effects := effects + [UpdateDocuments(index.value, [doc.value])];
      } else {
        effects := effects + [AddDocuments(index.value, [doc.value])];
      }
      res := if writeRaises then Err(ItemWriteRaised) else Ok(());
    }

    /**
     * One pass of the `add_items` loop: the chunk is delta-filtered when
     * the strategy says so, prepared, and written when non-empty.
     */
    method WriteChunk(chunk: seq<Item>, since: int) returns (res: Result<(), DocError>)
      requires Valid()
      modifies this`effects
      ensures ChunkRun(Cfg(), Uid(), chunk, since).Err? ==>
        res == Err(ChunkRun(Cfg(), Uid(), chunk, since).error) && effects == old(effects)
      ensures ChunkRun(Cfg(), Uid(), chunk, since).Ok? ==>
        res == Ok(()) && effects == old(effects) + ChunkRun(Cfg(), Uid(), chunk, since).value
    {
      var selected := chunk;
      if updateStrategy == "delta" {
        selected := CheckDeltas(chunk, since);
      }
      assert selected == Selected(Cfg(), chunk, since);
      if model.None? {
        return Ok(());
      }
      var prepared := PrepareDocs(model.value.searchFields, selected);
      if prepared.Err? {
        return Err(prepared.error);
      }
      if |prepared.value| > 0 {
        if updateStrategy == "soft" || updateStrategy == "delta" {
          effects := effects + [UpdateDocuments(index.value, prepared.value)];
        } else {
          effects := effects + [AddDocuments(index.value, prepared.value)];
        }
      }
      res := Ok(());
    }

    /** The loop of `add_items` over already-cut chunks. */
    method WriteChunks(chunks: seq<seq<Item>>, since: int) returns (res: Result<bool, DocError>)
      requires Valid()
      modifies this`effects
      ensures var run := BulkRun(Cfg(), Uid(), chunks, since);
        && effects == old(effects) + run.effects
        && res == if run.failure.None? then Ok(true) else Err(run.failure.value)
    {
      var cfg, uid := Cfg(), Uid();
      var k := 0;
      ghost var done: seq<seq<Item>> := [];
      while k < |chunks|
        invariant 0 <= k <= |chunks| && done == chunks[..k]
        invariant BulkRun(cfg, uid, done, since).failure.None?
        invariant effects == old(effects) + BulkRun(cfg, uid, done, since).effects
      {
        ghost var pre := BulkRun(cfg, uid, done, since);
        ghost var next := done + [chunks[k]];
        BulkRunStep(cfg, uid, done, chunks[k], since);
        var written := WriteChunk(chunks[k], since);
        assert chunks[..k + 1] == next;
        if written.Err? {
          assert BulkRun(cfg, uid, next, since) == Run(pre.effects, Some(written.error));
          BulkRunStops(cfg, uid, chunks, since, k + 1);
          return Err(written.error);
        }
        ghost var es := ChunkRun(cfg, uid, chunks[k], since).value;
        assert BulkRun(cfg, uid, next, since) == Run(pre.effects + es, None);
        ConcatAssoc(old(effects), pre.effects, es);
        done := next;
        k := k + 1;
      }
      assert done == chunks;
      return Ok(true);
    }

    /**
     * `add_items`: one write per chunk of 100 whose prepared list is
     * non-empty. A failing remote write is swallowed, so later chunks still
     * run; a document that fails to build escapes and stops the run. The
     * result is True whenever the run completes.
     */
    method AddItems(items: seq<Item>, since: int) returns (res: Result<bool, DocError>)
      requires Valid()
      modifies this`effects
      ensures var run := BulkRun(Cfg(), Uid(), Chunks(items, CHUNK_SIZE), since);
        && effects == old(effects) + run.effects
        && res == if run.failure.None? then Ok(true) else Err(run.failure.value)
    {
      res := WriteChunks(Chunks(items, CHUNK_SIZE), since);
    }

    method DeleteItem(id: int)
      requires index.Some?
      modifies this`effects
      ensures effects == old(effects) + [DeleteDocument(index.value, id)]
    {
      effects := effects + [DeleteDocument(index.value, id)];
    }

    method DeleteAllDocuments()
      requires index.Some?
      modifies this`effects
      ensures effects == old(effects) + [Remote.DeleteAllDocuments(index.value)]
    {
      effects := effects + [Remote.DeleteAllDocuments(index.value)];
    }

    /**
     * `search`: non-empty extras are merged into the backend's shared
     * parameter dict, in place, before the call; the call uses that dict.
     */
    method Search(query: string, extras: Params) returns (call: Effect)
      requires index.Some?
      modifies backendParams, this`effects
      ensures backendParams.params == old(backendParams.params) + extras
      ensures call == SearchCall(index.value, query, backendParams.params)
      ensures effects == old(effects) + [call]
    {
      if |extras| > 0 {
        backendParams.params := backendParams.params + extras;
      }
      call := SearchCall(index.value, query, backendParams.params);
      effects := effects + [call];
    }
  }

  /**
   * Extras passed to one index's search stay in the backend's dict and are
   * sent by a later plain search on another index of the same backend.
   */
  method SearchExtrasPersist(a: ModelIndex, b: ModelIndex, q1: string, q2: string, extras: Params)
    returns (second: Effect)
    requires a != b && a.backendParams == b.backendParams && a.index.Some? && b.index.Some?
    modifies a.backendParams, a, b
    ensures second.SearchCall? && forall k :: k in extras ==> k in second.params && second.params[k] == extras[k]
  {
    var _ := a.Search(q1, extras);
    second := b.Search(q2, map[]);
  }

  // ---------------------------------------------------------------------
  // MeiliIndexRegistry

  /** An index object the registry hands out; `serial` tells separately built objects apart. */
  datatype IndexHandle = IndexHandle(uid: string, serial: nat)

  datatype RegistryError = UnexpectedKeyword(name: string)

  function CacheKey(uid: string): string
  {
    "meili_index_" + uid
  }

  class Registry {
    /**
     * The class-level `indexes` dict. It belongs to the class, not to the
     * instance, so a new registry sees every label an earlier one registered.
     */
    var indexes: map<string, IndexHandle>
    /** The process-wide Django cache, as far as the registry's keys go. */
    var cache: map<string, IndexHandle>
    /** How many index objects have been built so far; the next one gets this serial. */
    var built: nat
    var effects: seq<Effect>

    /**
     * `__init__` stores the backend, its client and the settings and creates
     * no state of its own: the map and the cache it works on are the ones
     * already shared in the process, passed here as `shared` and `store`.
     */
    constructor (shared: map<string, IndexHandle>, store: map<string, IndexHandle>, serials: nat)
      ensures indexes == shared && cache == store && built == serials && effects == []
    {
      indexes := shared;
      cache := store;
      built := serials;
      effects := [];
    }

    method Register(uid: string, idx: IndexHandle)
      modifies this`indexes
      ensures indexes == old(indexes)[uid := idx]
    {
      indexes := indexes[uid := idx];
    }

    /**
     * `get_index_for_model` with the construction it evidently intends: the
     * in-process map first, then the shared cache, then a new index that is
     * put into the cache; the label is registered on every path.
     */
    method GetIndexForModel(modelLabel: string) returns (idx: IndexHandle)
      modifies this`indexes, this`cache, this`built
      ensures var uid := IndexLabel(modelLabel);
        && uid in indexes && indexes[uid] == idx
        && (uid in old(indexes) ==>
              idx == old(indexes)[uid] && indexes == old(indexes) && cache == old(cache) && built == old(built))
        && (uid !in old(indexes) && CacheKey(uid) in old(cache) ==>
              idx == old(cache)[CacheKey(uid)] && indexes == old(indexes)[uid := idx]
              && cache == old(cache) && built == old(built))
        && (uid !in old(indexes) && CacheKey(uid) !in old(cache) ==>
              idx == IndexHandle(uid, old(built)) && built == old(built) + 1
              && cache == old(cache)[CacheKey(uid) := idx] && indexes == old(indexes)[uid := idx])
    {
      var uid := IndexLabel(modelLabel);
      if uid in indexes {
        return indexes[uid];
      }
      var key := CacheKey(uid);
      if key in cache {
        idx := cache[key];
      } else {
        idx := IndexHandle(uid, built);
        built := built + 1;
        cache := cache[key := idx];
      }
      Register(uid, idx);
    }

    /**
     * `get_index_for_model` as written: the constructor is called with a
     * `settings` keyword it does not accept, so every lookup that misses
     * both the map and the cache raises TypeError and registers nothing.
     */
    method GetIndexForModelAsWritten(modelLabel: string) returns (r: Result<IndexHandle, RegistryError>)
      modifies this`indexes
      ensures var uid := IndexLabel(modelLabel);
        && (uid in old(indexes) ==> r == Ok(old(indexes)[uid]) && indexes == old(indexes))
        && (uid !in old(indexes) && CacheKey(uid) in cache ==>
              r == Ok(cache[CacheKey(uid)]) && indexes == old(indexes)[uid := r.value])
        && (uid !in old(indexes) && CacheKey(uid) !in cache ==>
              r == Err(UnexpectedKeyword("settings")) && indexes == old(indexes))
    {
      var uid := IndexLabel(modelLabel);
      if uid in indexes {
        return Ok(indexes[uid]);
      }
      var key := CacheKey(uid);
      if key !in cache {
        return Err(UnexpectedKeyword("settings"));
      }
      Register(uid, cache[key]);
      r := Ok(cache[key]);
    }

    /**
     * `_refresh`: deletes the remote index and looks the model up again;
     * a model already registered gets its registered object back.
     */
    method Refresh(uid: string, modelLabel: string) returns (idx: IndexHandle)
      modifies this`indexes, this`cache, this`built, this`effects
      ensures effects == old(effects) + [DeleteIndex(uid)]
      ensures IndexLabel(modelLabel) in old(indexes) ==> idx == old(indexes)[IndexLabel(modelLabel)]
      ensures IndexLabel(modelLabel) in indexes && indexes[IndexLabel(modelLabel)] == idx
    {
      effects := effects + [DeleteIndex(uid)];
      idx := GetIndexForModel(modelLabel);
    }

    /**
     * `_refresh` over the lookup as written: the delete is made first, and
     * a model missing from both the map and the cache then raises TypeError.
     */
    method RefreshAsWritten(uid: string, modelLabel: string) returns (r: Result<IndexHandle, RegistryError>)
      modifies this`indexes, this`effects
      ensures effects == old(effects) + [DeleteIndex(uid)]
      ensures IndexLabel(modelLabel) in old(indexes) ==> r == Ok(old(indexes)[IndexLabel(modelLabel)])
      ensures r.Err? <==> IndexLabel(modelLabel) !in old(indexes) && CacheKey(IndexLabel(modelLabel)) !in cache
      ensures r.Err? ==> indexes == old(indexes)
      ensures r.Ok? ==> IndexLabel(modelLabel) in indexes && indexes[IndexLabel(modelLabel)] == r.value
    {
      effects := effects + [DeleteIndex(uid)];
      r := GetIndexForModelAsWritten(modelLabel);
    }
  }
}
