// The earlier revision's MeiliSearchModelIndex, where it differs from the
// current one: setting up the index also applies stop words, ranking rules
// and the filterable attributes; the recency filter can repeat an object;
// a failing write is not swallowed; and `search` merges extra parameters
// into the index's own parameter dict. Documents are built by the same
// rules as in the current revision (Fields.CreateDocument).

module LegacyIndex {
  import opened Common
  import opened Labels
  import opened Fields
  import opened Remote
  import Index
  import Settings

  // ---------------------------------------------------------------------
  // _check_deltas, as written

  /**
   * The copies of `obj` the field loop appends: the `continue` after an
   * append only moves on to the next field, so there is one copy for each
   * of the fields whose timestamp is later than `since`.
   */
  function RecentCopies(obj: Index.Item, since: int, fields: seq<string>): seq<Index.Item>
  {
    if fields == [] then []
    else
      RecentCopies(obj, since, fields[..|fields| - 1])
        + (if Index.StampIsRecent(obj, fields[|fields| - 1], since) then [obj] else [])
  }

  /** The older `_check_deltas`: copies of each object of a model with date fields. */
  function KeepRecentAsWritten(objects: seq<Index.Item>, since: int, hasDates: bool): seq<Index.Item>
  {
    if objects == [] then []
    else
      var last := objects[|objects| - 1];
      KeepRecentAsWritten(objects[..|objects| - 1], since, hasDates)
        + (if hasDates then RecentCopies(last, since, DELTA_FIELDS) else [])
  }

  lemma {:induction false} RecentCopiesFacts(obj: Index.Item, since: int, fields: seq<string>)
    ensures forall x :: x in RecentCopies(obj, since, fields) ==> x == obj
    ensures RecentCopies(obj, since, fields) != [] <==>
      exists i :: 0 <= i < |fields| && Index.StampIsRecent(obj, fields[i], since)
    ensures RecentCopies(obj, since, fields) != [] ==> RecentCopies(obj, since, fields)[0] == obj
  {
    if fields != [] {
      var init := fields[..|fields| - 1];
      RecentCopiesFacts(obj, since, init);
      assert forall i :: 0 <= i < |init| ==> init[i] == fields[i];
    }
  }

  /**
   * The older filter keeps exactly the objects the current one keeps; the
   * two differ only in how many times an object occurs.
   */
  lemma {:induction false} KeepRecentAsWrittenMembers(objects: seq<Index.Item>, since: int, hasDates: bool)
    ensures forall x :: x in KeepRecentAsWritten(objects, since, hasDates) <==>
      x in Index.KeepRecent(objects, since, hasDates)
  {
    if objects != [] {
      var init := objects[..|objects| - 1];
      var last := objects[|objects| - 1];
      KeepRecentAsWrittenMembers(init, since, hasDates);
      RecentCopiesFacts(last, since, DELTA_FIELDS);
      var copies := if hasDates then RecentCopies(last, since, DELTA_FIELDS) else [];
      var kept := if hasDates && Index.Recent(last, since) then [last] else [];
      assert forall x :: x in copies <==> x in kept;
      assert KeepRecentAsWritten(objects, since, hasDates) == KeepRecentAsWritten(init, since, hasDates) + copies;
      assert Index.KeepRecent(objects, since, hasDates) == Index.KeepRecent(init, since, hasDates) + kept;
    }
  }

  /** An object with two recent timestamps is kept twice by the older filter and once by the current one. */
  lemma CheckDeltasDuplicates()
    ensures var obj := Index.Item(Record(1, map[]), map["created_at" := Index.At(5), "updated_at" := Index.At(6)]);
      && KeepRecentAsWritten([obj], 0, true) == [obj, obj]
      && Index.KeepRecent([obj], 0, true) == [obj]
  {
    var obj := Index.Item(Record(1, map[]), map["created_at" := Index.At(5), "updated_at" := Index.At(6)]);
    var fs := DELTA_FIELDS;
    assert fs[..3][..2][..1] == ["created_at"];
    assert fs[..3][..2] == ["created_at", "updated_at"];
    assert RecentCopies(obj, 0, fs[..3][..2][..1][..0]) == [];
    assert RecentCopies(obj, 0, fs[..3][..2][..1]) == [obj];
    assert RecentCopies(obj, 0, fs[..3][..2]) == [obj, obj];
    assert RecentCopies(obj, 0, fs[..3]) == [obj, obj];
    assert RecentCopies(obj, 0, fs) == [obj, obj];
    assert [obj][..0] == [];
    assert Index.Recent(obj, 0) by {
      assert Index.StampIsRecent(obj, fs[0], 0);
    }
  }

  // ---------------------------------------------------------------------
  // add_items, as a function of the chunks

  /**
   * How `add_items` can fail: a document does not build, a chunk's write
   * raises, the recency filter raises TypeError because the delta strategy
   * came with a None delta (`shift(**None)`), or (in the oldest backend
   * only) `USING_CACHEOPS` was never bound because cacheops is not installed.
   */
  datatype AddError = BuildFailed(error: DocError) | WriteRaised(chunk: nat) | DeltaUnset | CacheopsUnbound

  datatype Run = Run(effects: seq<Effect>, failure: Option<AddError>)

  /** The items of a chunk that reach the write: the older filter runs whenever the strategy is delta. */
  function Selected(m: Index.ModelInfo, strategy: string, chunk: seq<Index.Item>, since: int): seq<Index.Item>
  {
    if strategy == "delta" then KeepRecentAsWritten(chunk, since, Index.ModelHasDateFields(Some(m))) else chunk
  }

  /**
   * One chunk of the loop: its documents are built, then written if there
   * are any; the write raises when the chunk's index is in `failing`.
   */
  function ChunkStep(m: Index.ModelInfo, strategy: string, uid: string, chunk: seq<Index.Item>, since: int, k: nat,
                     failing: set<nat>): Run
  {
    match Index.PrepareDocs(m.searchFields, Selected(m, strategy, chunk, since))
    case Err(e) => Run([], Some(BuildFailed(e)))
    case Ok(docs) =>
      var w := Index.BulkWrite(strategy, uid, docs);
      Run(w, if w != [] && k in failing then Some(WriteRaised(k)) else None)
  }

  /** The calls a run of chunks makes, and the error that ended it, if any. */
  function RunChunks(m: Index.ModelInfo, strategy: string, uid: string, chunks: seq<seq<Index.Item>>, since: int,
                     failing: set<nat>): Run
  {
    if chunks == [] then Run([], None)
    else
      var k := |chunks| - 1;
      var pre := RunChunks(m, strategy, uid, chunks[..k], since, failing);
      if pre.failure.Some? then pre
      else
        var step := ChunkStep(m, strategy, uid, chunks[k], since, k, failing);
        Run(pre.effects + step.effects, step.failure)
  }

  lemma {:induction false} RunChunksStops(m: Index.ModelInfo, strategy: string, uid: string, chunks: seq<seq<Index.Item>>,
                                          since: int, failing: set<nat>, k: nat)
    requires k <= |chunks| && RunChunks(m, strategy, uid, chunks[..k], since, failing).failure.Some?
    ensures RunChunks(m, strategy, uid, chunks, since, failing) == RunChunks(m, strategy, uid, chunks[..k], since, failing)
  {
    if k < |chunks| {
      assert chunks[..|chunks| - 1][..k] == chunks[..k];
      RunChunksStops(m, strategy, uid, chunks[..|chunks| - 1], since, failing, k);
    } else {
      assert chunks[..k] == chunks;
    }
  }

  /** One loop pass of `add_items` on values: the calls so far extend by the chunk's step. */
  lemma RunChunksAdvance(m: Index.ModelInfo, strategy: string, uid: string, done: seq<seq<Index.Item>>,
                         chunk: seq<Index.Item>, since: int, failing: set<nat>,
                         start: seq<Effect>, before: seq<Effect>, after: seq<Effect>, failure: Option<AddError>)
    requires RunChunks(m, strategy, uid, done, since, failing).failure.None?
    requires before == start + RunChunks(m, strategy, uid, done, since, failing).effects
    requires var step := ChunkStep(m, strategy, uid, chunk, since, |done|, failing);
      after == before + step.effects && failure == step.failure
    ensures var run := RunChunks(m, strategy, uid, done + [chunk], since, failing);
      after == start + run.effects && failure == run.failure
  {
    RunChunksStep(m, strategy, uid, done, chunk, since, failing);
    ConcatAssoc(start, RunChunks(m, strategy, uid, done, since, failing).effects,
                ChunkStep(m, strategy, uid, chunk, since, |done|, failing).effects);
  }

  /** `RunChunksStops`, for a prefix given as a sequence. */
  lemma RunChunksStopsAt(m: Index.ModelInfo, strategy: string, uid: string, chunks: seq<seq<Index.Item>>,
                         since: int, failing: set<nat>, done: seq<seq<Index.Item>>)
    requires |done| <= |chunks| && chunks[..|done|] == done
    requires RunChunks(m, strategy, uid, done, since, failing).failure.Some?
    ensures RunChunks(m, strategy, uid, chunks, since, failing) == RunChunks(m, strategy, uid, done, since, failing)
  {
    RunChunksStops(m, strategy, uid, chunks, since, failing, |done|);
  }

  /**
   * The loop of `add_items` after chunk `k`: the log is the run over the
   * first `k + 1` chunks, and a failure there is the failure of the whole run.
   */
  lemma RunChunksNext(m: Index.ModelInfo, strategy: string, uid: string, chunks: seq<seq<Index.Item>>, k: nat,
                      since: int, failing: set<nat>,
                      start: seq<Effect>, before: seq<Effect>, after: seq<Effect>, failure: Option<AddError>)
    requires k < |chunks|
    requires RunChunks(m, strategy, uid, chunks[..k], since, failing).failure.None?
    requires before == start + RunChunks(m, strategy, uid, chunks[..k], since, failing).effects
    requires var step := ChunkStep(m, strategy, uid, chunks[k], since, k, failing);
      after == before + step.effects && failure == step.failure
    ensures var run := RunChunks(m, strategy, uid, chunks[..k + 1], since, failing);
      after == start + run.effects && failure == run.failure
    ensures failure.Some? ==>
      RunChunks(m, strategy, uid, chunks, since, failing).failure == failure &&
      after == start + RunChunks(m, strategy, uid, chunks, since, failing).effects
  {
    assert chunks[..k + 1] == chunks[..k] + [chunks[k]];
    RunChunksAdvance(m, strategy, uid, chunks[..k], chunks[k], since, failing, start, before, after, failure);
    if failure.Some? {
      RunChunksStopsAt(m, strategy, uid, chunks, since, failing, chunks[..k + 1]);
    }
  }

  /** One more chunk after a run that has not failed; the chunk's number is how many came before it. */
  lemma RunChunksStep(m: Index.ModelInfo, strategy: string, uid: string, done: seq<seq<Index.Item>>,
                      chunk: seq<Index.Item>, since: int, failing: set<nat>)
    requires RunChunks(m, strategy, uid, done, since, failing).failure.None?
    ensures var step := ChunkStep(m, strategy, uid, chunk, since, |done|, failing);
      RunChunks(m, strategy, uid, done + [chunk], since, failing) ==
        Run(RunChunks(m, strategy, uid, done, since, failing).effects + step.effects, step.failure)
  {
    assert (done + [chunk])[..|done|] == done;
  }

  /** A write failure is reported for a chunk whose write raises, and its call is the last one made. */
  lemma {:induction false} RunChunksWriteFailure(m: Index.ModelInfo, strategy: string, uid: string,
                                                 chunks: seq<seq<Index.Item>>, since: int, failing: set<nat>)
    ensures var r := RunChunks(m, strategy, uid, chunks, since, failing);
      r.failure.Some? && r.failure.value.WriteRaised? ==>
        var k := r.failure.value.chunk;
        && k < |chunks| && k in failing
        && r.effects != [] && r.effects[|r.effects| - 1].IsWrite()
  {
    if chunks != [] {
      RunChunksWriteFailure(m, strategy, uid, chunks[..|chunks| - 1], since, failing);
    }
  }

  /**
   * With no failing write and a strategy other than delta, the older run
   * makes exactly the calls of the current revision's and stops at the same
   * document failure.
   */
  lemma {:induction false} RunChunksMatchesCurrent(m: Index.ModelInfo, strategy: string, delta: Option<map<string, int>>,
                                                   uid: string, chunks: seq<seq<Index.Item>>, since: int)
    requires strategy != "delta"
    ensures var old_ := RunChunks(m, strategy, uid, chunks, since, {});
      var cur := Index.BulkRun(Index.Config(strategy, delta, Some(m)), uid, chunks, since);
      && old_.effects == cur.effects
      && (old_.failure.None? <==> cur.failure.None?)
      && (cur.failure.Some? ==> old_.failure == Some(BuildFailed(cur.failure.value)))
  {
    if chunks != [] {
      RunChunksMatchesCurrent(m, strategy, delta, uid, chunks[..|chunks| - 1], since);
    }
  }

  // ---------------------------------------------------------------------
  // Index setup

  /** The calls `_set_index` makes for a new index object. */
  function SetupCalls(uid: string, m: Index.ModelInfo, lookupRaises: bool, stopWords: seq<string>,
                      rankingRules: seq<string>): seq<Effect>
  {
    (if lookupRaises
     then [CreateIndex(uid, "id"), UpdateSettings(uid, StopWords(stopWords)), UpdateSettings(uid, RankingRules(rankingRules))]
     else [])
    + [UpdateFilterableAttributes(uid, Settings.FilterableAttributes(m.searchFields))]
  }

  /**
   * A set-up call outside any `try` that raised, so that the exception
   * leaves `_set_index`: the create, the filterable update, or (in the
   * oldest backend) the stop-words update.
   */
  datatype SetupError = CreateRaised | StopWordsRaised | FilterableRaised

  /**
   * The exception that leaves `_set_index` for a new index object, given
   * the unguarded calls that raise when made (`raising`): the create, made
   * only when the lookup raises, comes before the filterable update.
   */
  function SetupFailure(lookupRaises: bool, raising: set<SetupError>): Option<SetupError>
  {
    if lookupRaises && CreateRaised in raising then Some(CreateRaised)
    else if FilterableRaised in raising then Some(FilterableRaised)
    else None
  }

  /** The calls `_set_index` makes before it returns or raises: a raising create is the last one. */
  function SetupRun(uid: string, m: Index.ModelInfo, lookupRaises: bool, stopWords: seq<string>,
                    rankingRules: seq<string>, raising: set<SetupError>): seq<Effect>
  {
    if SetupFailure(lookupRaises, raising) == Some(CreateRaised) then [CreateIndex(uid, "id")]
    else SetupCalls(uid, m, lookupRaises, stopWords, rankingRules)
  }

  /** The warnings written before `_set_index` returns or raises: none when the create raises. */
  function SetupRunWarnings(uid: string, lookupRaises: bool, failing: set<Settings.Step>,
                            raising: set<SetupError>): seq<string>
  {
    if SetupFailure(lookupRaises, raising) == Some(CreateRaised) then [] else SetupWarnings(uid, lookupRaises, failing)
  }

  /**
   * A set-up that raises stops at the call that raised: a raising create
   * is the only call, and a raising filterable update is the last of the
   * full set-up. With nothing raising, the set-up is complete.
   */
  lemma SetupRunStops(uid: string, m: Index.ModelInfo, lookupRaises: bool, stopWords: seq<string>,
                      rankingRules: seq<string>, raising: set<SetupError>)
    ensures var run := SetupRun(uid, m, lookupRaises, stopWords, rankingRules, raising);
      var full := SetupCalls(uid, m, lookupRaises, stopWords, rankingRules);
      && |run| <= |full| && run == full[..|run|]
      && (SetupFailure(lookupRaises, raising) == Some(CreateRaised) <==> run == [CreateIndex(uid, "id")])
      && (SetupFailure(lookupRaises, raising) == Some(FilterableRaised) ==>
            run == full && run[|run| - 1] == UpdateFilterableAttributes(uid, Settings.FilterableAttributes(m.searchFields)))
      && (SetupFailure(lookupRaises, raising).None? ==> run == full)
      && (SetupFailure(lookupRaises, raising).Some? <==>
            (lookupRaises && CreateRaised in raising) || FilterableRaised in raising)
  {
    SetupOrder(uid, m, lookupRaises, stopWords, rankingRules);
  }

  /** What the two guarded settings updates report when they fail. */
  function SetupWarnings(uid: string, lookupRaises: bool, failing: set<Settings.Step>): seq<string>
  {
    if !lookupRaises then []
    else
      (if Settings.StopWordsStep in failing then ["WARN: Failed to update stop words on " + uid + "\n"] else [])
      + (if Settings.Ranking in failing then ["WARN: Failed to update ranking_rules on " + uid + "\n"] else [])
  }

  /**
   * A new remote index is created with the `id` primary key and then gets
   * stop words and ranking rules, in that order; an existing one gets
   * neither. Either way the last call sets the filterable attributes:
   * the content-type filter, then each FilterField's mapped name.
   */
  lemma SetupOrder(uid: string, m: Index.ModelInfo, lookupRaises: bool, stopWords: seq<string>, rankingRules: seq<string>)
    ensures var es := SetupCalls(uid, m, lookupRaises, stopWords, rankingRules);
      && |es| == (if lookupRaises then 4 else 1)
      && es[|es| - 1] == UpdateFilterableAttributes(uid, Settings.FilterableAttributes(m.searchFields))
      && (lookupRaises ==> es[0] == CreateIndex(uid, "id") && es[1].setting.StopWords? && es[2].setting.RankingRules?)
      && (forall i :: 0 <= i < |es| ==> es[i].uid == uid)
      && (forall i :: 0 <= i < |es| ==> !es[i].IsWrite())
  {
  }

  lemma FilterMappedSnoc(fields: seq<Field>, f: Field)
    ensures Map(FieldMapping, Filter(Settings.IsFilter, fields + [f])) ==
      Map(FieldMapping, Filter(Settings.IsFilter, fields)) + (if f.FilterField? then [FieldMapping(f)] else [])
  {
    FilterConcat(Settings.IsFilter, fields, [f]);
    assert Filter(Settings.IsFilter, [f]) == (if Settings.IsFilter(f) then [f] else []) + Filter(Settings.IsFilter, []);
    MapConcat(FieldMapping, Filter(Settings.IsFilter, fields), Filter(Settings.IsFilter, [f]));
  }

  class ModelIndex {
    const model: Index.ModelInfo
    const updateStrategy: string
    const updateDelta: Option<map<string, int>>
    /** The backend's stop words and ranking rules, applied to a new remote index. */
    const stopWords: seq<string>
    const rankingRules: seq<string>
    /** The index's own `search_params`; `search` merges extras into it. */
    var searchParams: Params
    var memo: string
    var index: Option<string>
    var effects: seq<Effect>
    /** Warnings written to standard output. */
    var output: seq<string>
    /** The exception that left `__init__`, if any. */
    var initError: Option<SetupError>

    ghost predicate Valid()
      reads this`index
    {
      index == Some(IndexLabel(model.metaLabel))
    }

    /** The delta strategy came with a None delta, so `arrow.now().shift(**None)` raises TypeError. */
    predicate DeltaRaises()
    {
      updateStrategy == "delta" && updateDelta.None?
    }

    function Uid(): string
    {
      IndexLabel(model.metaLabel)
    }

    /**
     * `__init__`. `failing` names the guarded settings updates that raise
     * when a new remote index is set up, and `raising` the unguarded
     * set-up calls that raise. When one of those raises, the exception
     * leaves `__init__` (`initError`), so the caller gets no index object;
     * the object is kept here only so that the calls made before the raise
     * stay visible. It has no handle then, and `search_params`, assigned
     * after `_set_index`, is never set. The delta is stored as given, None
     * included, even under "delta".
     */
    constructor (model: Index.ModelInfo, queryLimit: int, updateStrategy: string, updateDelta: Option<map<string, int>>,
                 stopWords: seq<string>, rankingRules: seq<string>, lookupRaises: bool, failing: set<Settings.Step>,
                 raising: set<SetupError>)
      ensures this.model == model && this.updateStrategy == updateStrategy && this.updateDelta == updateDelta
      ensures this.stopWords == stopWords && this.rankingRules == rankingRules
      ensures initError == SetupFailure(lookupRaises, raising)
      ensures Valid() <==> initError.None?
      ensures searchParams == if initError.Some? then map[] else
                              map["limit" := PInt(queryLimit),
                                  "attributesToRetrieve" := PStrs(["id", "first_published_at"]),
                                  "showMatchesPosition" := PBool(true)]
      ensures memo == IndexLabel(model.metaLabel)
      ensures effects == SetupRun(IndexLabel(model.metaLabel), model, lookupRaises, stopWords, rankingRules, raising)
      ensures output == SetupRunWarnings(IndexLabel(model.metaLabel), lookupRaises, failing, raising)
    {
      this.model := model;
      this.updateStrategy := updateStrategy;
      this.updateDelta := updateDelta;
      this.stopWords := stopWords;
      this.rankingRules := rankingRules;
      memo := "";
      index := None;
      effects := [];
      output := [];
      searchParams := map[];
      initError := None;
      new;
      var h := SetIndex(lookupRaises, failing, raising);
      assert [] + SetupRun(memo, model, lookupRaises, stopWords, rankingRules, raising) == effects;
      assert [] + SetupRunWarnings(memo, lookupRaises, failing, raising) == output;
      if h.Err? {
        initError := Some(h.error);
        return;
      }
      searchParams := map["limit" := PInt(queryLimit),
                          "attributesToRetrieve" := PStrs(["id", "first_published_at"]),
                          "showMatchesPosition" := PBool(true)];
    }

    /** `_get_label`: computed once, then returned from the memo. */
    method GetLabel() returns (l: string)
      modifies this`memo
      ensures old(memo) != "" ==> l == old(memo) && memo == old(memo)
      ensures old(memo) == "" ==> l == Uid() && memo == l
    {
      if memo != "" {
        return memo;
      }
      memo := IndexLabel(model.metaLabel);
      l := memo;
    }

    /**
     * `_set_index`: an index already set is returned untouched; otherwise
     * the remote index is created and configured when looking it up raises,
     * and the filterable attributes are set in every case. The create and
     * the filterable update are outside any `try`: when one raises, the
     * exception escapes and the handle stays unset.
     */
    method SetIndex(lookupRaises: bool, failing: set<Settings.Step>, raising: set<SetupError>)
      returns (h: Result<string, SetupError>)
      requires index.None? ==> memo == "" || memo == Uid()
      modifies this`memo, this`index, this`effects, this`output
      ensures old(index).Some? ==>
        h == Ok(old(index).value) && index == old(index) && memo == old(memo) && effects == old(effects) && output == old(output)
      ensures old(index).None? ==>
        && memo == Uid()
        && effects == old(effects) + SetupRun(Uid(), model, lookupRaises, stopWords, rankingRules, raising)
        && output == old(output) + SetupRunWarnings(Uid(), lookupRaises, failing, raising)
        && (SetupFailure(lookupRaises, raising).None? ==> h == Ok(Uid()) && index == Some(Uid()))
        && (SetupFailure(lookupRaises, raising).Some? ==>
              h == Err(SetupFailure(lookupRaises, raising).value) && index.None?)
    {
      if index.Some? {
        return Ok(index.value);
      }
      var uid := GetLabel();
      var err := Configure(uid, lookupRaises, failing, raising);
      if err.Some? {
        return Err(err.value);
      }
      index := Some(uid);
      h := Ok(uid);
    }

    /**
     * The remote calls `_set_index` makes for a handle not yet set, up to
     * the unguarded call that raises, if one does.
     */
    method Configure(uid: string, lookupRaises: bool, failing: set<Settings.Step>, raising: set<SetupError>)
      returns (err: Option<SetupError>)
      modifies this`effects, this`output
      ensures err == SetupFailure(lookupRaises, raising)
      ensures effects == old(effects) + SetupRun(uid, model, lookupRaises, stopWords, rankingRules, raising)
      ensures output == old(output) + SetupRunWarnings(uid, lookupRaises, failing, raising)
    {
      ghost var e0 := effects;
      ghost var setup: seq<Effect> := [];
      if lookupRaises {
        effects := effects + [CreateIndex(uid, "id")];
        if CreateRaised in raising {
          return Some(CreateRaised);
        }
        ApplySetup(uid, failing);
        setup := [CreateIndex(uid, "id"), UpdateSettings(uid, StopWords(stopWords)), UpdateSettings(uid, RankingRules(rankingRules))];
        ConcatAssoc(e0, [CreateIndex(uid, "id")], setup[1..]);
        assert [CreateIndex(uid, "id")] + setup[1..] == setup;
      }
      assert effects == e0 + setup;
      var filterFields := FilterFields();
      effects := effects + [UpdateFilterableAttributes(uid, filterFields)];
      ConcatAssoc(e0, setup, [UpdateFilterableAttributes(uid, filterFields)]);
      err := if FilterableRaised in raising then Some(FilterableRaised) else None;
    }

    /**
     * `_rebuild`: deletes the remote index, then calls `_set_index`, which
     * finds the handle still set and returns it; nothing is created or
     * configured again.
     */
    method Rebuild()
      requires Valid()
      modifies this`memo, this`index, this`effects, this`output
      ensures Valid() && index == old(index) && memo == old(memo) && output == old(output)
      ensures effects == old(effects) + [DeleteIndex(Uid())]
    {
      effects := effects + [DeleteIndex(index.value)];
      var _ := SetIndex(false, {}, {});
    }

    /** `_apply_settings`: stop words, then ranking rules, each failure reported and swallowed. */
    method ApplySetup(uid: string, failing: set<Settings.Step>)
      modifies this`effects, this`output
      ensures effects == old(effects) + [UpdateSettings(uid, StopWords(stopWords)), UpdateSettings(uid, RankingRules(rankingRules))]
      ensures output == old(output) + SetupWarnings(uid, true, failing)
    {
      effects := effects + [UpdateSettings(uid, StopWords(stopWords))];
      if Settings.StopWordsStep in failing {
        output := output + ["WARN: Failed to update stop words on " + uid + "\n"];
      }
      effects := effects + [UpdateSettings(uid, RankingRules(rankingRules))];
      if Settings.Ranking in failing {
        output := output + ["WARN: Failed to update ranking_rules on " + uid + "\n"];
      }
    }

    /** The filter fields `_set_index` collects: the content-type filter, then each FilterField's mapped name, in order. */
    method FilterFields() returns (filterFields: seq<string>)
      ensures filterFields == Settings.FilterableAttributes(model.searchFields)
    {
      var fields := model.searchFields;
      filterFields := [Settings.CONTENT_TYPE_FILTER];
      var i := 0;
      while i < |fields|
        invariant 0 <= i <= |fields|
        invariant filterFields == [Settings.CONTENT_TYPE_FILTER] + Map(FieldMapping, Filter(Settings.IsFilter, fields[..i]))
      {
        var field := fields[i];
        FilterMappedSnoc(fields[..i], field);
        assert fields[..i + 1] == fields[..i] + [field];
        if field.FilterField? {
          filterFields := filterFields + [FieldMapping(field)];
        }
        i := i + 1;
      }
      assert fields[..i] == fields;
    }

    /** `get_index_for_model`: the index is already set, so it makes no call and returns itself. */
    method GetIndexForModel() returns (r: ModelIndex)
      requires Valid()
      modifies this`memo, this`index, this`effects, this`output
      ensures r == this && Valid()
      ensures effects == old(effects) && output == old(output)
    {
      var _ := SetIndex(false, {}, {});
      r := this;
    }

    /**
     * The older `_check_deltas`, with no check that a delta is configured:
     * `since` is computed first, and a None delta makes that raise
     * TypeError, whatever the objects.
     */
    method CheckDeltas(objects: seq<Index.Item>, since: int) returns (r: Result<seq<Index.Item>, AddError>)
      ensures updateDelta.None? ==> r == Err(DeltaUnset)
      ensures updateDelta.Some? ==> r == Ok(KeepRecentAsWritten(objects, since, Index.ModelHasDateFields(Some(model))))
    {
      if updateDelta.None? {
        return Err(DeltaUnset);
      }
      var filtered := [];
      var hasDates := Index.ModelHasDateFields(Some(model));
      var i := 0;
      while i < |objects|
        invariant 0 <= i <= |objects|
        invariant filtered == KeepRecentAsWritten(objects[..i], since, hasDates)
      {
        var obj := objects[i];
        assert objects[..i + 1][..i] == objects[..i];
        if hasDates {
          var j := 0;
          while j < |DELTA_FIELDS|
            invariant 0 <= j <= |DELTA_FIELDS|
            invariant filtered == KeepRecentAsWritten(objects[..i], since, hasDates)
              + RecentCopies(obj, since, DELTA_FIELDS[..j])
          {
            var field := DELTA_FIELDS[j];
            assert DELTA_FIELDS[..j + 1][..j] == DELTA_FIELDS[..j];
            if field in obj.stamps {
              var val := obj.stamps[field];
              if val.At? && val.t > since {
                filtered := filtered + [obj];
              }
            }
            j := j + 1;
          }
          assert DELTA_FIELDS[..j] == DELTA_FIELDS;
        }
        i := i + 1;
      }
      assert objects[..i] == objects;
      r := Ok(filtered);
    }

    /**
     * `add_item`: under delta the filtered list holds only copies of the
     * item, so the item itself is written either way; soft updates and any
     * other strategy, delta included, adds. A write that raises
     * (`writeRaises`) is not suppressed and escapes after the call. Under
     * delta with a None delta, the filter raises before any call.
     */
    method AddItem(item: Index.Item, since: int, writeRaises: bool) returns (res: Result<(), Index.ItemError>)
      requires Valid()
      modifies this`effects
      ensures DeltaRaises() ==> res == Err(Index.ItemDeltaUnset) && effects == old(effects)
      ensures !DeltaRaises() && CreateDocument(model.searchFields, item.rec).Err? ==>
        res == Err(Index.ItemBuildFailed(CreateDocument(model.searchFields, item.rec).error)) && effects == old(effects)
      ensures !DeltaRaises() && CreateDocument(model.searchFields, item.rec).Ok? ==>
        && res == (if writeRaises then Err(Index.ItemWriteRaised) else Ok(()))
        && effects == old(effects) + [Index.SingleWrite(updateStrategy, Uid(), CreateDocument(model.searchFields, item.rec).value)]
    {
      var it := item;
      if updateStrategy == "delta" {
        var c := CheckDeltas([item], since);
        if c.Err? {
          return Err(Index.ItemDeltaUnset);
        }
        var checked := c.value;
        if |checked| > 0 {
          assert checked == RecentCopies(item, since, DELTA_FIELDS) || checked == [] by {
            assert [item][..0] == [];
          }
          RecentCopiesFacts(item, since, DELTA_FIELDS);
          assert checked[0] in checked;
          it := checked[0];
        }
      }
      var doc := CreateDocument(model.searchFields, it.rec);
      if doc.Err? {
        return Err(Index.ItemBuildFailed(doc.error));
      }
      if updateStrategy == "soft" {
        effects := effects + [UpdateDocuments(index.value, [doc.value])];
      } else {
        effects := effects + [AddDocuments(index.value, [doc.value])];
      }
      res := if writeRaises then Err(Index.ItemWriteRaised) else Ok(());
    }

    /** The loop of `add_items` over already-cut chunks. */
    method WriteChunks(chunks: seq<seq<Index.Item>>, since: int, failingWrites: set<nat>) returns (res: Result<bool, AddError>)
      requires Valid()
      modifies this`effects
      ensures DeltaRaises() && chunks != [] ==> res == Err(DeltaUnset) && effects == old(effects)
      ensures !(DeltaRaises() && chunks != []) ==>
        var run := RunChunks(model, updateStrategy, Uid(), chunks, since, failingWrites);
        && effects == old(effects) + run.effects
        && res == if run.failure.None? then Ok(true) else Err(run.failure.value)
    {
      var uid := Uid();
      var k := 0;
      while k < |chunks|
        invariant 0 <= k <= |chunks| && Valid()
        invariant DeltaRaises() ==> k == 0 && effects == old(effects)
        invariant RunChunks(model, updateStrategy, uid, chunks[..k], since, failingWrites).failure.None?
        invariant effects == old(effects) + RunChunks(model, updateStrategy, uid, chunks[..k], since, failingWrites).effects
      {
        ghost var before := effects;
        var failure := WriteChunk(chunks[k], k, since, failingWrites);
        if !DeltaRaises() {
          RunChunksNext(model, updateStrategy, uid, chunks, k, since, failingWrites, old(effects), before, effects, failure);
        }
        if failure.Some? {
          return Err(failure.value);
        }
        k := k + 1;
      }
      assert chunks[..k] == chunks;
      return Ok(true);
    }

    /**
     * `add_items`: chunks of 100, the older filter on each chunk under
     * delta, one write per non-empty prepared list; a write that raises
     * (its chunk index is in `failingWrites`) or a document that fails to
     * build ends the run with that error. True when the run completes.
     * Under delta with a None delta, the first chunk's filter raises
     * TypeError before any call; with no items there is no chunk to filter.
     */
    method AddItems(items: seq<Index.Item>, since: int, failingWrites: set<nat>) returns (res: Result<bool, AddError>)
      requires Valid()
      modifies this`effects
      ensures DeltaRaises() && items != [] ==> res == Err(DeltaUnset) && effects == old(effects)
      ensures !(DeltaRaises() && items != []) ==>
        var run := RunChunks(model, updateStrategy, Uid(), Index.Chunks(items, Index.CHUNK_SIZE), since, failingWrites);
        && effects == old(effects) + run.effects
        && res == if run.failure.None? then Ok(true) else Err(run.failure.value)
    {
      Index.ChunksFlatten(items, Index.CHUNK_SIZE);
      res := WriteChunks(Index.Chunks(items, Index.CHUNK_SIZE), since, failingWrites);
    }

    /** The body of `add_items`' loop for chunk number `k`. */
    method WriteChunk(chunk: seq<Index.Item>, k: nat, since: int, failingWrites: set<nat>) returns (failure: Option<AddError>)
      requires Valid()
      modifies this`effects
      ensures DeltaRaises() ==> failure == Some(DeltaUnset) && effects == old(effects)
      ensures !DeltaRaises() ==>
        var step := ChunkStep(model, updateStrategy, Uid(), chunk, since, k, failingWrites);
        effects == old(effects) + step.effects && failure == step.failure
    {
      var items := chunk;
      if updateStrategy == "delta" {
        var c := CheckDeltas(chunk, since);
        if c.Err? {
          return Some(c.error);
        }
        items := c.value;
      }
      var prepared := Index.PrepareDocs(model.searchFields, items);
      if prepared.Err? {
        return Some(BuildFailed(prepared.error));
      }
      failure := None;
      if |prepared.value| > 0 {
        if updateStrategy == "soft" || updateStrategy == "delta" {
          effects := effects + [UpdateDocuments(index.value, prepared.value)];
        } else {
          effects := effects + [AddDocuments(index.value, prepared.value)];
        }
        if k in failingWrites {
          failure := Some(WriteRaised(k));
        }
      }
    }

    method DeleteItem(id: int)
      requires Valid()
      modifies this`effects
      ensures effects == old(effects) + [DeleteDocument(Uid(), id)]
    {
      effects := effects + [DeleteDocument(index.value, id)];
    }

    /** `search`: non-empty extras are merged into the index's own parameters, in place, before the call. */
    method Search(query: string, extras: Params) returns (call: Effect)
      requires Valid()
      modifies this`searchParams, this`effects
      ensures searchParams == old(searchParams) + extras
      ensures call == SearchCall(Uid(), query, searchParams)
      ensures effects == old(effects) + [call]
    {
      if |extras| > 0 {
        searchParams := searchParams + extras;
      }
      call := SearchCall(index.value, query, searchParams);
      effects := effects + [call];
    }
  }

  /** Extras given to one search of an index are sent again by every later search of that index. */
  method SearchExtrasStay(idx: ModelIndex, q1: string, q2: string, extras: Params) returns (second: Effect)
    requires idx.Valid()
    modifies idx
    ensures second.SearchCall? && forall k :: k in extras ==> k in second.params && second.params[k] == extras[k]
  {
    var _ := idx.Search(q1, extras);
    second := idx.Search(q2, map[]);
  }
}
