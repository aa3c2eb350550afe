// The earlier revision's MeiliSettings: no paginator step, the steps in the
// order searchable, filterable, ranking rules, stop words, and searchable
// attributes ordered by field name rather than by boost.

module LegacySettings {
  import opened Common
  import opened Fields
  import opened Remote
  import Index
  import Settings
  import LegacyIndex

  predicate IsSearch(f: Field) { f.SearchField? }

  function FieldName(f: Field): string { f.name }

  /** The keys of the `boosts` dict: the SearchField names of the raw `search_fields`, boosts ignored. */
  function SearchFieldNames(fields: seq<Field>): seq<string>
  {
    Map(FieldName, Filter(IsSearch, fields))
  }

  /** `sorted(boosts, reverse=True)`: the distinct names, reverse-lexicographically. */
  function SearchableNames(fields: seq<Field>): seq<string>
  {
    SortNamesDesc(SearchFieldNames(fields))
  }

  /**
   * The searchable attributes are each SearchField name once, in strictly
   * descending string order, and nothing else; none at all exactly when
   * there is no SearchField.
   */
  lemma SearchableNamesSpec(fields: seq<Field>)
    ensures var r := SearchableNames(fields);
      && StrictlyDescending(r)
      && (forall x :: x in r <==> exists i :: 0 <= i < |fields| && fields[i].SearchField? && fields[i].name == x)
      && (r == [] <==> forall i :: 0 <= i < |fields| ==> !fields[i].SearchField?)
  {
    var kept := Filter(IsSearch, fields);
    var names := Map(FieldName, kept);
    FilterMembers(IsSearch, fields);
    SortNamesDescFacts(names);
    var r := SearchableNames(fields);
    assert forall x :: x in r <==> x in Elems(names);
    forall x ensures x in names <==> exists i :: 0 <= i < |fields| && fields[i].SearchField? && fields[i].name == x {
      if x in names {
        var k :| 0 <= k < |kept| && names[k] == x;
        assert kept[k] in fields;
      }
      if exists i :: 0 <= i < |fields| && fields[i].SearchField? && fields[i].name == x {
        var i :| 0 <= i < |fields| && fields[i].SearchField? && fields[i].name == x;
        assert fields[i] in kept;
        var k :| 0 <= k < |kept| && kept[k] == fields[i];
        assert names[k] == x;
      }
    }
    forall i | 0 <= i < |fields| && fields[i].SearchField? ensures fields[i].name in r {
      assert fields[i].name in names;
    }
    if r != [] {
      assert r[0] in Elems(r);
      assert r[0] in names;
    }
  }

  /** Where the revisions part: a higher boost on an earlier name is ranked first now, last before. */
  lemma SearchableOrderDiffers()
    ensures var fields := [SearchField("zeta", BoostOf(1)), SearchField("alpha", BoostOf(5))];
      var m := Index.ModelInfo("app.Page", fields, [], Some(fields));
      && SearchableNames(fields) == ["zeta", "alpha"]
      && Settings.OrderedFields(Some(m)) == ["alpha", "zeta"]
  {
    var fields := [SearchField("zeta", BoostOf(1)), SearchField("alpha", BoostOf(5))];
    var m := Index.ModelInfo("app.Page", fields, [], Some(fields));
    assert StrLess("alpha", "zeta");
    assert Filter(IsSearch, fields) == fields by {
      assert Filter(IsSearch, fields[1..]) == [fields[1]] + Filter(IsSearch, fields[2..]);
    }
    assert SearchFieldNames(fields) == ["zeta", "alpha"] by {
      assert Map(FieldName, fields) == [FieldName(fields[0])] + Map(FieldName, fields[1..]);
    }
    assert SortNamesDesc([] + ["alpha"]) == ["alpha"];
    assert ["zeta", "alpha"][1..] == ["alpha"];
    assert SortNamesDesc(["zeta", "alpha"]) == InsertName("zeta", SortNamesDesc(["alpha"]));
    var ranked := Filter(Settings.IsRanked, fields);
    assert ranked == fields by {
      assert Filter(Settings.IsRanked, fields[1..]) == [fields[1]] + Filter(Settings.IsRanked, fields[2..]);
    }
    var pairs := Settings.BoostPairs(Some(m));
    assert pairs == [("zeta", 1), ("alpha", 5)] by {
      assert Map(Settings.Weighted, ranked) == [Settings.Weighted(ranked[0])] + Map(Settings.Weighted, ranked[1..]);
    }
    var sorted := Settings.SortedPairs(Some(m));
    assert pairs[1..] == [("alpha", 5)];
    assert SortDesc(pairs[1..], Settings.PairBoost) == [("alpha", 5)] by {
      assert pairs[1..][1..] == [];
    }
    assert sorted == [("alpha", 5), ("zeta", 1)];
    assert Map(Settings.PairName, sorted) == [Settings.PairName(sorted[0])] + Map(Settings.PairName, sorted[1..]);
  }

  /** The calls the older `apply_settings` sends for a model that declares `search_fields`. */
  function LegacySettingsCalls(uid: string, declared: seq<Field>, searchFields: seq<Field>, rankingRules: seq<string>,
                               stopWords: seq<string>): seq<Effect>
  {
    var names := SearchableNames(declared);
    (if names == [] then [] else [UpdateSearchableAttributes(uid, names)])
    + [UpdateFilterableAttributes(uid, Settings.FilterableAttributes(searchFields)),
       UpdateSettings(uid, RankingRules(rankingRules)),
       UpdateSettings(uid, StopWords(stopWords))]
  }

  /**
   * The older steps run in the order searchable, filterable, ranking rules,
   * stop words, all on the one index; there is no paginator step and the
   * searchable step runs exactly when there is a SearchField.
   */
  lemma LegacySettingsOrder(uid: string, declared: seq<Field>, searchFields: seq<Field>, rankingRules: seq<string>,
                            stopWords: seq<string>)
    ensures var calls := LegacySettingsCalls(uid, declared, searchFields, rankingRules, stopWords);
      && (forall i, j :: 0 <= i < j < |calls| ==> Settings.StepRank(Settings.StepOf(calls[i])) < Settings.StepRank(Settings.StepOf(calls[j])))
      && (forall i :: 0 <= i < |calls| ==> Settings.Target(calls[i]) == uid)
      && !Settings.Runs(calls, Settings.Paginator)
      && Settings.Runs(calls, Settings.Filterable) && Settings.Runs(calls, Settings.Ranking)
      && Settings.Runs(calls, Settings.StopWordsStep)
      && (Settings.Runs(calls, Settings.Searchable) <==> SearchableNames(declared) != [])
  {
    var calls := LegacySettingsCalls(uid, declared, searchFields, rankingRules, stopWords);
    var n := |calls|;
    assert Settings.StepOf(calls[n - 3]) == Settings.Filterable;
    assert Settings.StepOf(calls[n - 2]) == Settings.Ranking;
    assert Settings.StepOf(calls[n - 1]) == Settings.StopWordsStep;
    if SearchableNames(declared) != [] {
      assert Settings.StepOf(calls[0]) == Settings.Searchable;
    } else {
      assert n == 3;
    }
  }

  class MeiliSettings {
    var stopWords: seq<string>
    var skipModels: seq<string>
    var updateStrategy: string
    var queryLimit: int
    var rankingRules: seq<string>
    var updateDelta: Option<map<string, int>>
    var index: Option<LegacyIndex.ModelIndex>

    /** `__init__`: the same defaults as the current revision. */
    constructor (params: Settings.BackendConfig, defaultStopWords: seq<string>, defaultRankingRules: seq<string>)
      ensures stopWords == params.stopWords.GetOr(defaultStopWords)
      ensures skipModels == params.skipModels.GetOr([])
      ensures updateStrategy == params.updateStrategy.GetOr(Settings.DEFAULT_STRATEGY)
      ensures queryLimit == params.queryLimit.GetOr(Settings.DEFAULT_QUERY_LIMIT)
      ensures rankingRules == params.rankingRules.GetOr(defaultRankingRules)
      ensures updateDelta == Settings.UpdateDeltaFor(updateStrategy, params.updateDelta)
      ensures index.None?
    {
      stopWords := params.stopWords.GetOr(defaultStopWords);
      skipModels := params.skipModels.GetOr([]);
      updateStrategy := params.updateStrategy.GetOr(Settings.DEFAULT_STRATEGY);
      queryLimit := params.queryLimit.GetOr(Settings.DEFAULT_QUERY_LIMIT);
      rankingRules := params.rankingRules.GetOr(defaultRankingRules);
      var strategy := params.updateStrategy.GetOr(Settings.DEFAULT_STRATEGY);
      updateDelta := None;
      index := None;
      if strategy == "delta" {
        updateDelta := params.updateDelta.GetOr(Some(Settings.DEFAULT_DELTA));
      }
    }

    /**
     * The older `apply_settings`: a model without a `search_fields`
     * attribute raises before any call; otherwise the four steps run in
     * order, each failure caught and reported. `failing` names the steps
     * whose call raises.
     */
    method ApplySettings(idx: LegacyIndex.ModelIndex, failing: set<Settings.Step>) returns (warnings: seq<Settings.Step>, escaped: bool)
      requires idx.Valid()
      modifies this`index, idx`effects
      ensures index == Some(idx)
      ensures idx.model.declaredFields.None? ==> escaped && warnings == [] && idx.effects == old(idx.effects)
      ensures idx.model.declaredFields.Some? ==>
        var calls := LegacySettingsCalls(idx.Uid(), idx.model.declaredFields.value, idx.model.searchFields,
                                         rankingRules, stopWords);
        && !escaped
        && idx.effects == old(idx.effects) + calls
        && warnings == Settings.Warnings(calls, failing)
    {
      index := Some(idx);
      var model := idx.model;
      if model.declaredFields.None? {
        return [], true;
      }
      var uid := idx.index.value;
      var calls: seq<Effect> := [];
      var names := SearchableNames(model.declaredFields.value);
      if |names| > 0 {
        calls := calls + [UpdateSearchableAttributes(uid, names)];
      }
      calls := calls + [UpdateFilterableAttributes(uid, Settings.FilterableAttributes(model.searchFields))];
      calls := calls + [UpdateSettings(uid, RankingRules(rankingRules))];
      calls := calls + [UpdateSettings(uid, StopWords(stopWords))];
      assert calls == LegacySettingsCalls(uid, model.declaredFields.value, model.searchFields, rankingRules, stopWords);
      idx.effects := idx.effects + calls;
      warnings := Settings.Warnings(calls, failing);
      escaped := false;
    }
  }
}
