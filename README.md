# wagtail-meilisearch, modelled in Dafny

wagtail-meilisearch is a Wagtail search backend. It:

- turns Django model instances into flat documents;
- pushes those documents, in chunks, to a Meilisearch server;
- keeps each index's settings (searchable, filterable, ranking, stop words) up to date;
- rebuilds indexes under a soft, delta or hard strategy;
- merges the ranked hits it gets back into Django querysets.

This project models the deterministic rules of that backend and proves
properties of them. It covers two revisions of the package:

- **The current package** (`src/wagtail_meilisearch/`):
  - the document mapper, in the `Labels` and `Fields` modules;
  - the model index and the index registry, which the backend never reaches (`Index`);
  - the settings object (`Settings`);
  - the rebuilder (`Rebuilder`);
  - the search results: filters, query building, facets, the ranked window and the count cache (`Results`);
  - the backend's configuration, cached index lookup, `refresh_index` and search guards (`Backend`).
- **The earlier `wagtail_meilisearch/` tree**, modelled where its behaviour differs:
  - `LegacyIndex`: the duplicating delta filter, writes that are not fault-isolated, and the set-up that configures the filterable list;
  - `LegacySettings`: searchable attributes sorted by name, and no paginator step;
  - `LegacyResults`: boost-weighted scoring, a window placed before the fetch, position ordering and a summed count;
  - `LegacyBackend`: the self-contained earliest backend, with a hard/soft rebuilder and the window cut after the fetch.

`Common` holds Option/Result and the Python primitives the code leans on:

- `dict.get` with a default;
- `", ".join`;
- slicing with optional and negative bounds;
- the stable `sorted(..., reverse=True)`;
- `distinct()`.

The Meilisearch server, the ORM and the clock are not modelled. Their inputs are parameters:

- whether an index lookup raises;
- which settings calls or writes fail;
- the replies to searches;
- the rows of a queryset (as primary keys);
- the instant `since` that the delta window starts at.

Every call to the server is appended, in order, to an `effects` log of `Remote.Effect` values held by the object that makes the call.

## Model

| member | source | states |
|---|---|---|
| Labels.ReplaceAt | src/wagtail_meilisearch/utils.py:38 | Replacing one character by another keeps the length. Exactly the positions that held the replaced character change. |
| Labels.IndexLabelShape | src/wagtail_meilisearch/utils.py:34-38 | The index label has the model label's length and contains no '.'. Every '.' becomes '-' and every other character is kept. wagtail_meilisearch/utils.py:10-14 follows the same rule. |
| Labels.StatusRoundTrip | src/wagtail_meilisearch/utils.py:38 | For a model label without '-', turning '-' back into '.' recovers the label from its index label, as the status command does. |
| Labels.LabelCollision | src/wagtail_meilisearch/utils.py:38 | The label mapping is not injective: "app.Page" and "app-Page" are different labels that share one index. |
| Common.Join | src/wagtail_meilisearch/utils.py:93 | Joining no parts gives "". Joining one part gives that part unchanged. |
| Common.JoinLength | src/wagtail_meilisearch/utils.py:93 | A join is as long as its parts together plus one separator between each pair of neighbours. |
| Common.SliceBound | src/wagtail_meilisearch/results.py:241 | Python's slice-bound rule. A missing bound takes its default. A negative bound counts from the end. The result is clamped to `0..len`. |
| Common.Slice | src/wagtail_meilisearch/results.py:241 | `s[start:stop]` has `stop - start` elements after normalising, or none when the stop is not past the start. Element i is `s[start + i]`. With no bounds it is all of `s`. `s[-k:]` is the last k elements. An in-range window `s[a:b]` is exactly that run. |
| Common.SortDescFacts | src/wagtail_meilisearch/settings.py:244 | The stable `sorted(key=..., reverse=True)`. The result is non-increasing in the key and is a permutation of the input. The elements sharing any one key keep their input order. |
| Common.WithKeyMembers | src/wagtail_meilisearch/settings.py:244 | The elements sharing one key, as `Common.WithKey` picks them in input order, are exactly the input's elements with that key, with no more copies of any element than the input holds. SortDescFacts uses them to state stability. |
| Common.SortNamesDescFacts | wagtail_meilisearch/settings.py:62 | `sorted(names, reverse=True)` over a dict's keys is strictly descending in string order and holds exactly the same names. |
| Common.DedupFacts | src/wagtail_meilisearch/results.py:261 | `distinct()` keeps every member and drops every repeat. |
| Common.FilterMembers | src/wagtail_meilisearch/results.py:242 | Filtering keeps exactly the elements that satisfy the test. The result is a sub-multiset of the input. |
| Fields.FieldMapping | src/wagtail_meilisearch/utils.py:42-50 | The mapped key always starts with the field's own name: a FilterField or AutocompleteField only adds its suffix. |
| Fields.MappingKindsDistinct | src/wagtail_meilisearch/utils.py:46-50 | Two plain fields of the same name but different kinds never share a mapped key, since Filter is tested before Autocomplete and the suffixes differ. wagtail_meilisearch/utils.py:21-25 has the same rules. |
| Fields.PrepareValue | src/wagtail_meilisearch/utils.py:84-98 | Every falsy value gives "", before any other branch. A string is returned unchanged. wagtail_meilisearch/index.py:171-182 and wagtail_meilisearch/backend.py:105-116 follow the same rules. |
| Fields.PrepareEach | src/wagtail_meilisearch/utils.py:93 | A list yields one prepared string per item. |
| Fields.PrepareEntries | src/wagtail_meilisearch/utils.py:95 | A dict yields one prepared string per entry. |
| Fields.DictValues | src/wagtail_meilisearch/utils.py:95 | `values()` gives the entries' values in insertion order. |
| Fields.PrepareEachAt | src/wagtail_meilisearch/utils.py:93 | The i-th prepared string of a list is `prepare_value` of its i-th item. |
| Fields.PrepareIdempotent | src/wagtail_meilisearch/utils.py:88-98 | Preparing an already prepared value again changes nothing. |
| Fields.PrepareList | src/wagtail_meilisearch/utils.py:92-93 | A non-empty list gives its items' prepared strings joined with ", ". |
| Fields.PrepareDictAsValues | src/wagtail_meilisearch/utils.py:94-95 | A dict prepares exactly as the list of its values, in insertion order. |
| Fields.PrepareEntriesAsValues | src/wagtail_meilisearch/utils.py:95 | Preparing a dict's entries is preparing its list of values. |
| Fields.ListOfStrings | src/wagtail_meilisearch/utils.py:92-93 | A non-empty list of non-empty strings prepares to their ", " join. |
| Fields.Prepared | src/wagtail_meilisearch/utils.py:109-110 | A field value whose `get_value` raises gives no value, because the write is suppressed. Every other value gives its prepared string. |
| Fields.ApplyLastWriteWins | src/wagtail_meilisearch/utils.py:106-126 | After a run of dict assignments, a key holds the value last written to it. A key that was never written keeps its earlier value. |
| Fields.LastWriteSome | src/wagtail_meilisearch/utils.py:106-126 | A key has a last write exactly when some write in the run names it. |
| Fields.ApplyConcat | src/wagtail_meilisearch/utils.py:106-126 | Applying two runs of assignments one after the other is the same as applying their concatenation. |
| Fields.DocumentIsAllWrites | src/wagtail_meilisearch/utils.py:102-127 | The document walk succeeds exactly when collecting every field's writes does. The dict is then those writes applied, in field order, to `{}`. |
| Fields.PlainFieldWrites | src/wagtail_meilisearch/utils.py:108-110 | A Search, Filter or Autocomplete field never fails the walk. If `get_value` raises, it writes nothing. Otherwise it writes one pair: its mapped key and its prepared value. |
| Fields.LastContributor | src/wagtail_meilisearch/utils.py:108-110 | The index found is the last plain field mapped to the key whose value does not raise. None means every field mapped to that key raises. |
| Fields.PlainDocument | src/wagtail_meilisearch/utils.py:106-110 | With plain fields only, the walk never fails. Each key holds the prepared value of its last non-raising contributor; keys without one are absent. A failing field is omitted and a later field overwrites an earlier one. |
| Fields.RelatedFailurePropagates | src/wagtail_meilisearch/utils.py:111-112 | An exception from a RelatedFields' own `get_value` is not suppressed, so the whole document fails. |
| Fields.ManyWritesKeys | src/wagtail_meilisearch/utils.py:113-120 | A to-many value whose sub-field columns all exist gives one write per sub-field. Each write is keyed `parent__mapped(sub)` and holds the ", " join of that column's values. |
| Fields.ManyWritesUnknownColumn | src/wagtail_meilisearch/utils.py:116 | A sub-field naming no column makes `values_list` raise. The call sits outside the suppress block, so the document fails. |
| Fields.ManyWritesFirstError | src/wagtail_meilisearch/utils.py:115-116 | The error reported is the one for the first unknown column. |
| Fields.OneWritesKeys | src/wagtail_meilisearch/utils.py:121-126 | For a single related record, a key is written exactly when some sub-field maps to it and its value does not raise. Every write is such a sub-field's prepared value. |
| Fields.RelatedOtherValue | src/wagtail_meilisearch/utils.py:111-126 | A related value that is neither a manager/queryset nor a model instance adds no key. |
| Fields.ErrorPrefix | src/wagtail_meilisearch/utils.py:102-127 | Once a prefix of the fields fails, the whole walk fails with the same error: the first unsuppressed exception ends it. |
| Fields.FillFromMany | src/wagtail_meilisearch/utils.py:115-120 | The loop over the sub-fields of a to-many value leaves the dict exactly as applying `ManyWrites` would, or stops with the same error. |
| Fields.FillFromOne | src/wagtail_meilisearch/utils.py:122-126 | The loop over the sub-fields of a single record leaves the dict exactly as applying `OneWrites` would. |
| Fields.CachedDocumentFields | src/wagtail_meilisearch/utils.py:101-102 | `get_document_fields` behind `lru_cache`, keyed by model and primary key. A hit returns the stored dict and keeps the cache. A miss returns the walk, and the cache gains the key exactly when the walk succeeds. |
| Fields.CachedWhileCurrent | src/wagtail_meilisearch/utils.py:101-102 | While every cached dict is the walk of its record as it is now, the cached call gives the walk itself and the cache stays current. |
| Fields.StaleAfterEdit | src/wagtail_meilisearch/utils.py:101-102 | As written, a record indexed, edited and indexed again in one process gets its first dict back: "old" where the walk now gives "new". |
| Fields.GetDocumentFields | src/wagtail_meilisearch/utils.py:102-127 | The in-place loop over the search fields computes exactly the document walk, including its errors. The walk's properties are the lemmas above. |
| Fields.CreateDocument | src/wagtail_meilisearch/index.py:207-220 | Succeeds exactly when the field walk does. The keys are the walk's keys plus "id". "id" holds the item's id whatever a field wrote there. Every other key holds its field's text. The same holds for wagtail_meilisearch/index.py:235-239 and wagtail_meilisearch/backend.py:171-175. |
| Fields.HasDateFieldsExists | src/wagtail_meilisearch/utils.py:131-137 | True exactly when some model field name is one of the four delta field names. wagtail_meilisearch/utils.py:102-108 is the same. |
| Index.ChunksFlatten | src/wagtail_meilisearch/index.py:262 | The slices of 100 concatenate back to the input. |
| Index.ChunksShape | src/wagtail_meilisearch/index.py:262 | Every slice holds 1 to 100 items and every slice but the last holds exactly 100. There are ceil(n/100) slices. |
| Index.KeepRecentMembers | src/wagtail_meilisearch/index.py:303-314 | An object is kept exactly when the model has date fields and some populated delta field is later than `since`. The result is a sub-multiset of the input. |
| Index.KeepRecentConcat | src/wagtail_meilisearch/index.py:303-314 | Filtering a concatenation is concatenating the filtered parts. Filtering chunk by chunk therefore keeps input order. |
| Index.PrepareDocsConcat | src/wagtail_meilisearch/index.py:269 | The documents of a concatenation build only if both parts build. They are then the two parts' documents, concatenated. |
| Index.BulkRunStops | src/wagtail_meilisearch/index.py:264-276 | After a document fails to build, the exception escapes and later chunks add nothing. |
| Index.BulkRunCalls | src/wagtail_meilisearch/index.py:270-275 | There is at most one call per chunk. Each is a write of a non-empty document list to the index. It is `update_documents` exactly under "soft" or "delta", and `add_documents` otherwise. |
| Index.BulkRunNoModel | src/wagtail_meilisearch/index.py:267-268 | With no model every chunk is skipped: no call and no failure. |
| Index.BulkRunSends | src/wagtail_meilisearch/index.py:264-276 | If every selected document builds, the run does not fail. The documents sent are exactly the selected items' documents, in order. |
| Index.BulkSendsEveryItem | src/wagtail_meilisearch/index.py:262-276 | The same holds for the chunks of 100 of the input. Every item is sent once and in order; under delta, every recent one. |
| Index.SearchParams.constructor | src/wagtail_meilisearch/backend.py:63 | The backend's shared search-parameter dict starts with the given parameters. |
| Index.CreateFailure | src/wagtail_meilisearch/index.py:149-154 | `_set_index` raises exactly when a model's lookup raises and the unguarded `Index.create` in the `except HTTPError` branch raises too. |
| Index.ModelIndex.constructor | src/wagtail_meilisearch/index.py:84-113 | The strategy and delta come from the backend's settings. A lookup that raises creates the index with primary key "id", and the label is memoised. When that create raises, `__init__` raises after the call, with no handle and no search parameters. Otherwise the handle is set and the search parameters are limit, `["id", "first_published_at"]` and match positions. |
| Index.ModelIndex.GetLabel | src/wagtail_meilisearch/index.py:160-165 | Computed once. After that the memo is returned, whatever model is passed. |
| Index.ModelIndex.SetIndex | src/wagtail_meilisearch/index.py:131-158 | A handle already set is returned and nothing changes. No model gives no handle and no call. Otherwise the handle for the label is returned, created first when the lookup raises. A create that raises escapes after the call, and the handle stays unset. |
| Index.ModelIndex.Rebuild | src/wagtail_meilisearch/index.py:167-170 | Deletes the remote index. The handle and the memo stay as they were, so the index is not created again. |
| Index.CheckDeltasAsWritten | src/wagtail_meilisearch/index.py:278-304 | As written, the filter raises AttributeError exactly when it is on and the object list is non-empty. Otherwise it returns []. |
| Index.CheckDeltasAsWrittenRaises | src/wagtail_meilisearch/index.py:278-304 | Under the default `{"weeks": -1}`, one object created after `since` raises as written. The intended filter keeps it for a model with a `created_at` field. |
| Index.ModelIndex.CheckDeltas | src/wagtail_meilisearch/index.py:288-314 | The append loop returns the delta filter. That is [] when no delta is configured, and otherwise the recent objects, each once and in order. The filter's properties are `Index.KeepRecentMembers` and `Index.KeepRecentConcat`. |
| Index.ModelIndex.AddItem | src/wagtail_meilisearch/index.py:226-245 | No model writes nothing. Under delta the item itself is written either way. A document that fails to build escapes with no call. Otherwise one write: `update_documents` under "soft", `add_documents` otherwise. The write is not suppressed, so when it raises the exception escapes after the call; otherwise the method returns None. |
| Index.ModelIndex.AddItems | src/wagtail_meilisearch/index.py:247-277 | The log grows by the chunked run's calls. The result is True unless a document fails to build; that failure escapes. |
| Index.ModelIndex.WriteChunk | src/wagtail_meilisearch/index.py:265-275 | One pass of the chunk loop. A document that fails to build escapes with the log unchanged. Otherwise the log grows by that chunk's calls in the bulk run: one write of the selected documents, or none. |
| Index.ModelIndex.WriteChunks | src/wagtail_meilisearch/index.py:264-276 | The loop over the chunks logs exactly the bulk run's calls. It returns True unless a document fails to build, and then the error. |
| Index.ModelIndex.DeleteItem | src/wagtail_meilisearch/index.py:316-323 | One `delete_document` call with the object's id. |
| Index.ModelIndex.DeleteAllDocuments | src/wagtail_meilisearch/index.py:325-329 | One `delete_all_documents` call on the index. |
| Index.ModelIndex.Search | src/wagtail_meilisearch/index.py:331-347 | The extras are merged into the backend's shared dict, in place. The search call uses that dict. |
| Index.SearchExtrasPersist | src/wagtail_meilisearch/index.py:343-347 | Extras passed to one index's search reappear in a later plain search on another index of the same backend. |
| Index.Registry.constructor | src/wagtail_meilisearch/index.py:30-35 | `indexes` is a class attribute and the cache is Django's process-wide cache. So a new registry starts from the map and the cache as they already are, and it has logged no call. |
| Index.Registry.Register | src/wagtail_meilisearch/index.py:71-72 | The label maps to the index and every other entry is unchanged. |
| Index.Registry.GetIndexForModel | src/wagtail_meilisearch/index.py:41-69 | A registered label returns its index and touches nothing. A cache hit is registered and returned. A miss builds a new index, stores it under `meili_index_<label>` and registers it. On every path `indexes[label]` is the index returned. |
| Index.Registry.GetIndexForModelAsWritten | src/wagtail_meilisearch/index.py:61-65 | As written, a lookup that misses both the map and the cache raises TypeError, because of the `settings` keyword, and registers nothing. Hits behave as intended. |
| Index.Registry.Refresh | src/wagtail_meilisearch/index.py:74-78 | Over the corrected lookup (`Index.Registry.GetIndexForModel`): deletes the remote index, then looks the model up again. A registered model gets its registered object back and is registered afterwards. |
| Index.Registry.RefreshAsWritten | src/wagtail_meilisearch/index.py:74-78 | Over the lookup as written: the delete is made first, then a model missing from both the map and the cache raises TypeError, with nothing registered. A hit returns the registered or cached object. |
| Settings.UpdateDeltaFor | src/wagtail_meilisearch/settings.py:60-63 | A delta exists only under "delta". There, UPDATE_DELTA absent gives `{"weeks": -1}`, a given delta passes through, and UPDATE_DELTA given as None leaves no delta. |
| Settings.DeltaFilterActive | src/wagtail_meilisearch/settings.py:60-63 | The delta filter is active exactly under "delta" with UPDATE_DELTA absent (so `{"weeks": -1}`) or given as a non-empty dict. The same rule is at src/wagtail_meilisearch/backend.py:123-132. |
| Settings.OrderedFieldsNames | src/wagtail_meilisearch/settings.py:214-228 | [] for no model or no declared `search_fields`. Otherwise one name per SearchField or AutocompleteField: filter fields are excluded and repeats are kept. |
| Settings.OrderedFieldsByBoost | src/wagtail_meilisearch/settings.py:221-244 | The names come from the boost pairs after a stable descending sort. Boosts never increase along the list, the result is a permutation of the pairs, and equal boosts keep declaration order. |
| Settings.BoostPairsAt | src/wagtail_meilisearch/settings.py:221-228 | The i-th pair is the i-th ranked field's name and its boost, counting a missing or None boost as 1. |
| Settings.FilterableAttributes | src/wagtail_meilisearch/settings.py:150-156 | The filterable list always starts with "content_type_id_filter". |
| Settings.FilterableMembers | src/wagtail_meilisearch/settings.py:150-156 | The list has one entry per FilterField after the head. That part holds exactly the FilterFields' names with "_filter" appended. wagtail_meilisearch/settings.py:68-75 builds the same list. |
| Settings.SettingsOrder | src/wagtail_meilisearch/settings.py:77-81 | Calls come in the order paginator, searchable, filterable, ranking rules, stop words, all on the model's index. Every step but one always runs. The searchable step runs exactly when the ordered list is non-empty (lines 122-128). |
| Settings.Warnings | src/wagtail_meilisearch/settings.py:101-103 | At most one warning per call made. |
| Settings.WarningsExact | src/wagtail_meilisearch/settings.py:101-103 | A step is warned about exactly when it ran and its call failed. A failure never stops a later step (lines 136-137, 160-162, 179-181 and 198-200 have the same shape). |
| Settings.MeiliSettings.constructor | src/wagtail_meilisearch/settings.py:42-63 | The defaults are the given stop words, [] skipped models, "soft", 999999 and the default ranking rules. The delta is set only under "delta". No index yet. |
| Settings.MeiliSettings.ApplySettings | src/wagtail_meilisearch/settings.py:65-81 | With a model, the index's log grows by exactly the ordered settings calls, and the warnings are those of the failing steps that ran. With no model, the paginator call fails on the missing handle and the filterable step raises. |
| Rebuilder.PlanFor | src/wagtail_meilisearch/rebuilder.py:26-38 | Skip exactly when the label is in the skip list. Wipe exactly when the model is not skipped and the strategy is neither "soft" nor "delta", including unknown names. |
| Rebuilder.MeiliSearchRebuilder.constructor | src/wagtail_meilisearch/rebuilder.py:8-11 | The uid is the model's index label. A fresh dummy index. No output. The backend passed in must be the index's own (`index.backend`): the index shares its search parameters, strategy and delta. |
| Rebuilder.MeiliSearchRebuilder.Start | src/wagtail_meilisearch/rebuilder.py:13-42 | Skip writes "SKIPPING: <label>", returns the dummy index and makes no lookup or call. Otherwise it returns the backend's cached index for the model and deletes all its documents only under Wipe. No other cached index changes. wagtail_meilisearch/rebuilder.py is identical. |
| Rebuilder.MeiliSearchRebuilder.OpenIndex | src/wagtail_meilisearch/rebuilder.py:32-42 | The two lookups return the same cached index. A new one is fresh and holds the model. Only a wipe adds the `delete_all_documents` call. No other cached index changes. |
| Rebuilder.MeiliSearchRebuilder.WipeEntry | src/wagtail_meilisearch/rebuilder.py:37-38 | Deleting all documents of one cached index adds that call to it alone. The cache stays valid. |
| Backend.InitSearchParams | src/wagtail_meilisearch/backend.py:116-121 | Exactly the keys limit (the query limit), `attributesToRetrieve` `["id"]`, `showMatchesPosition` and `showRankingScore`. |
| Backend.RefreshStep | src/wagtail_meilisearch/backend.py:176-179 | An index is already in the refreshed list exactly when its label was already seen. That holds because the cache files each index under its own label. |
| Backend.MeiliSearchBackend.constructor | src/wagtail_meilisearch/backend.py:35-64 | The skip list, strategy and query limit take their defaults ([], "soft", 999999). The delta is set only under "delta". The search parameters are the initial ones. The settings object shares the configuration. The index cache starts empty. |
| Backend.MeiliSearchBackend.GetIndexForModel | src/wagtail_meilisearch/backend.py:134-146 | This second definition in the class body replaces the one at line 66 that delegates to the registry, so the backend never reaches `MeiliIndexRegistry`. A cached model gets the same object back and nothing changes. Otherwise a new index is built on the backend's shared parameters and cached under the model's label. When its create raises, the exception leaves the call and nothing is cached. |
| Backend.MeiliSearchBackend.RefreshIndex | src/wagtail_meilisearch/backend.py:172-179 | Cached entries never change, and the cache's labels afterwards are exactly the old ones plus the indexed models' labels. The refreshed list holds each distinct index once, in the order its models first appear. |
| Backend.MeiliSearchBackend.RefreshOne | src/wagtail_meilisearch/backend.py:176-179 | One pass of the refresh loop. Cached entries never change, the refreshed list stays free of repeats, and it lists the cached indexes of the labels seen so far, the model's label added once. |
| Backend.MeiliSearchBackend.RefreshAt | src/wagtail_meilisearch/backend.py:176-179 | The pass for the model at a given position: the list grows from the indexes of the labels before it to those of the labels up to it, and the cache's labels gain exactly that model's label. |
| Backend.SearchGuards | src/wagtail_meilisearch/backend.py:232-248 | A compiler is built exactly when the model is indexed and the query is non-empty. A queryset argument is searched as given; a model is searched over all its rows. wagtail_meilisearch/backend.py:445-470 has the same guards. |
| Results.QueryStringAgrees | src/wagtail_meilisearch/results.py:52-55 | For a text query, the `query_string` attribute that `facet` reads is that string. Other queries report "" from the property, whatever their attribute. |
| Results.FirstInvalidNone | src/wagtail_meilisearch/results.py:101-104 | The scan finds no invalid item exactly when every item is a 2-tuple. An item it finds is the first one that is not. |
| Results.CheckFiltersSpec | src/wagtail_meilisearch/results.py:97-104 | An empty list is rejected. Otherwise each item must be a 2-tuple, and the error names the first that is not. Valid filters come back as their pairs, in order, before any search runs. |
| Results.QueryContents | src/wagtail_meilisearch/results.py:191-203 | Each query carries every search parameter, plus indexUid and q unless the parameters supply them. With filters, the filter expression replaces any `filter` parameter. Without filters, a `filter` key exists only if the parameters have one. |
| Results.FilterClausesExact | src/wagtail_meilisearch/results.py:197-202 | The clauses are exactly ``f_filter = 'v'`` for the pairs whose `f_filter` is filterable on that index. Unsupported pairs are dropped. |
| Results.NoSupportedFilters | src/wagtail_meilisearch/results.py:196-203 | When no pair is supported, the filter expression is "". |
| Results.FilterClausesSnoc | src/wagtail_meilisearch/results.py:198-202 | Clauses keep input order: a further pair adds its clause at the end exactly when it is supported. |
| Results.FilterList | src/wagtail_meilisearch/results.py:197-201 | The loop over the filter pairs builds exactly the clause list proved above. |
| Results.BuildQuery | src/wagtail_meilisearch/results.py:191-203 | The query the loop builds for one active index is the query whose contents `Results.QueryContents` states. |
| Results.BuildQueries | src/wagtail_meilisearch/results.py:184-206 | One query per active remote index, not per model, in index order. Each is that index's query as stated by `Results.QueryContents`. |
| Results.SetCountFacts | src/wagtail_meilisearch/results.py:74 | Assigning a count in an ordered dict keeps the keys unique and adds the key. It changes only that key's count. |
| Results.UpdateWithFacts | src/wagtail_meilisearch/results.py:74 | `update` keeps keys unique. A key takes the count the new distribution last gives it, or keeps its old count. |
| Results.MergedLastWins | src/wagtail_meilisearch/results.py:58-74 | Across indexes, a value's count is the one from the last contributing index: later counts replace earlier ones, not add to them. |
| Results.FacetSpec | src/wagtail_meilisearch/results.py:52-77 | None exactly when the query has no `query_string`. Otherwise the merged distribution, sorted by count (descending, stable), as a permutation. |
| Results.FacetOf | src/wagtail_meilisearch/results.py:49-79 | The loop over the descendant models computes exactly the facet above. Each search it makes merges `{"facets": [field_filter]}` into the backend's shared search parameters (src/wagtail_meilisearch/index.py:343-347). So afterwards those parameters are the old ones plus `facets` exactly when some index listed the filter attribute, and are unchanged otherwise. |
| Results.FacetsReachLaterQueries | src/wagtail_meilisearch/results.py:191-195 | Once a facet has left `facets` in the backend's parameters, every later query built for an active index carries that `facets` entry, because the parameters are spread into it. |
| Results.DedupDescending | src/wagtail_meilisearch/results.py:261 | `distinct()` keeps a descending order. |
| Results.RankOrderFacts | src/wagtail_meilisearch/results.py:245-256 | Ordering the rows keeps the same members. Under relevance with a non-empty ranking, scores never increase along the rows. |
| Results.DoSearchSpec | src/wagtail_meilisearch/results.py:235-261 | The result holds exactly the queryset rows whose id is in the `[start:stop]` window of the ranked ids, without repeats. Under relevance with a non-empty ranking, scores never increase along it. Without relevance ordering, or with an empty ranking, the rows keep the queryset's order. |
| Results.SearchResults.constructor | src/wagtail_meilisearch/results.py:23 | Both caches start empty and no search has run. |
| Results.SearchResults.DoCount | src/wagtail_meilisearch/results.py:278-286 | A truthy count cache is returned. Otherwise a truthy results cache gives its length. Otherwise there is one search and both caches are filled. |
| Results.CountIsCached | src/wagtail_meilisearch/results.py:278-286 | When the first search finds something (`found` not empty), two counts in a row give the same number and run the search only once. |
| Results.EmptyCountIsNotCached | src/wagtail_meilisearch/results.py:278-286 | When the first search finds nothing, both caches stay falsy: the first count is 0, the second runs the search again and gives its own number. |
| LegacyIndex.RecentCopiesFacts | wagtail_meilisearch/index.py:328-336 | For one object, the field loop yields only copies of it. It yields at least one exactly when some delta field is recent. |
| LegacyIndex.KeepRecentAsWrittenMembers | wagtail_meilisearch/index.py:324-338 | The older filter keeps the same objects as the current one; only the number of copies differs. |
| LegacyIndex.CheckDeltasDuplicates | wagtail_meilisearch/index.py:334 | Counterexample: an object with two recent delta fields is returned twice by the older filter and once by the current one. |
| LegacyIndex.RunChunksStops | wagtail_meilisearch/index.py:290-305 | After a chunk fails (a build or a write raises), later chunks add nothing. |
| LegacyIndex.RunChunksStep | wagtail_meilisearch/index.py:290-303 | While no chunk has failed, the run over one more chunk is the run so far followed by that chunk's step. |
| LegacyIndex.RunChunksNext | wagtail_meilisearch/index.py:290-305 | After chunk `k` the log is the run over the first `k + 1` chunks; when that chunk fails, its failure and log are those of the whole run. |
| LegacyIndex.RunChunksWriteFailure | wagtail_meilisearch/index.py:298-302 | A write failure names a chunk listed as failing. The write is the last call logged: write exceptions are not suppressed. |
| LegacyIndex.RunChunksMatchesCurrent | wagtail_meilisearch/index.py:288-305 | With no failing writes and outside delta, the older loop makes exactly the calls of the current one. It fails exactly when the current one does, on the same document build. |
| LegacyIndex.SetupOrder | wagtail_meilisearch/index.py:104-127 | A new index gets create, stop words, ranking rules, then the filterable list. An existing one gets only the filterable list. All calls go to the label and none is a write. |
| LegacyIndex.SetupRunStops | wagtail_meilisearch/index.py:107-127 | The create (line 112) and the filterable update (line 127) are outside any `try`. A set-up that raises stops at the call that raised: a raising create is the only call, a raising filterable update is the last call of the full set-up. The set-up raises exactly when one of them raises, and with nothing raising it is complete. |
| LegacyIndex.ModelIndex.constructor | wagtail_meilisearch/index.py:55-79 | The configuration is the backend's, the delta stored as given, None included. When an unguarded set-up call raises, `__init__` raises that error after the calls up to it, and the object has no handle and no search parameters. Otherwise the search parameters are limit, `["id", "first_published_at"]` and match positions. The set-up calls and warnings are the ones for that lookup outcome. |
| LegacyIndex.ModelIndex.GetLabel | wagtail_meilisearch/index.py:139-145 | Computed once, then returned from the memo. |
| LegacyIndex.ModelIndex.SetIndex | wagtail_meilisearch/index.py:103-132 | A handle already set is returned and nothing happens. Otherwise the set-up calls and warnings are added. The handle is set only when no unguarded call raises; when one raises, that error is returned and the handle stays unset. |
| LegacyIndex.ModelIndex.Configure | wagtail_meilisearch/index.py:107-127 | For a handle not yet set: the set-up calls of `LegacyIndex.SetupOrder`, in order, and warnings exactly for the failing settings steps. A raising create ends the set-up after that call, with no warning. A raising filterable update comes after all the other calls. Either error is returned. |
| LegacyIndex.ModelIndex.Rebuild | wagtail_meilisearch/index.py:147-149 | Deletes the remote index. `_set_index` then returns the handle still set, so nothing is created or configured again. |
| LegacyIndex.ModelIndex.ApplySetup | wagtail_meilisearch/index.py:134-137 | Stop words, then ranking rules. Each failure writes its warning and is swallowed (lines 81-101). |
| LegacyIndex.ModelIndex.FilterFields | wagtail_meilisearch/index.py:118-125 | The loop gives "content_type_id_filter" followed by the FilterFields' mapped names in declaration order: the same list as `Settings.FilterableAttributes`. |
| LegacyIndex.ModelIndex.GetIndexForModel | wagtail_meilisearch/index.py:157-159 | With the handle set, it makes no call and returns the index itself. |
| LegacyIndex.ModelIndex.CheckDeltas | wagtail_meilisearch/index.py:315-338 | With no delta, `shift(**None)` at line 325 raises TypeError whatever the objects. Otherwise the loop computes the as-written filter, one copy per recent delta field. `LegacyIndex.KeepRecentAsWrittenMembers` and `LegacyIndex.CheckDeltasDuplicates` state its properties. |
| LegacyIndex.ModelIndex.AddItem | wagtail_meilisearch/index.py:249-260 | Under "delta" with no delta, the filter raises TypeError before any call. Otherwise: a failing document build escapes with no call, and a good one gives one write of the item's document, update under "soft", add otherwise. A write that raises escapes after the call; otherwise the method returns None. |
| LegacyIndex.ModelIndex.AddItems | wagtail_meilisearch/index.py:263-305 | Under "delta" with no delta and some items, the first chunk's filter raises TypeError before any call. Otherwise the log grows by the chunked run. It returns True unless a build or a write raises; that exception escapes. |
| LegacyIndex.ModelIndex.WriteChunk | wagtail_meilisearch/index.py:290-303 | One chunk: the delta filter (raising TypeError, with no call, under "delta" with no delta), building the documents, and one write when any were built (update under "soft"/"delta"). |
| LegacyIndex.ModelIndex.WriteChunks | wagtail_meilisearch/index.py:290-305 | Under "delta" with no delta, the first chunk raises TypeError and nothing is logged. Otherwise the loop logs exactly the chunked run's calls. It returns True unless a build or a write raises, and then that error. |
| LegacyIndex.ModelIndex.DeleteItem | wagtail_meilisearch/index.py:341-342 | One `delete_document` call with the object's id. |
| LegacyIndex.ModelIndex.Search | wagtail_meilisearch/index.py:353-359 | The extras are merged into this index's own parameters, in place, and the call uses them. |
| LegacyIndex.SearchExtrasStay | wagtail_meilisearch/index.py:353-359 | Extras from one search reappear in a later plain search on the same index. |
| LegacySettings.SearchableNamesSpec | wagtail_meilisearch/settings.py:52-62 | The searchable names are exactly the SearchField names, without repeats and strictly descending in string order. The list is empty exactly when there is no SearchField. |
| LegacySettings.SearchableOrderDiffers | wagtail_meilisearch/settings.py:62 | The two revisions differ: with fields zeta (boost 1) and alpha (boost 5), the older order is zeta, alpha and the current one is alpha, zeta. |
| LegacySettings.LegacySettingsOrder | wagtail_meilisearch/settings.py:42-50 | Calls come in the order searchable, filterable, ranking rules, stop words, all on the index, with no paginator call. The searchable call is made exactly when there is a SearchField (line 60). |
| LegacySettings.MeiliSettings.constructor | wagtail_meilisearch/settings.py:32-40 | The same defaults as the current revision. The delta is set only under "delta". |
| LegacySettings.MeiliSettings.ApplySettings | wagtail_meilisearch/settings.py:42-50 | With declared `search_fields`, the log grows by exactly the ordered calls, and the warnings are those of the failing steps that ran. Without them the searchable step raises before any call. |
| LegacyResults.FieldBoostsSpec | wagtail_meilisearch/results.py:13-18 | A name has a boost exactly when some field with a boost has it. The value is the last such field's boost. |
| LegacyResults.Weight | wagtail_meilisearch/results.py:64 | A weight is never 0. |
| LegacyResults.WeightSpec | wagtail_meilisearch/results.py:64 | A present non-zero boost is the weight. A missing, 0 or None boost gives 1. |
| LegacyResults.UnboostedScore | wagtail_meilisearch/results.py:58-66 | With no boosted key, a hit's score is the total printed length of its matches. |
| LegacyResults.ScoreHits | wagtail_meilisearch/results.py:58-66 | The nested loop gives each hit its id and the sum over its match keys of length times weight. |
| LegacyResults.SortedIdsSpec | wagtail_meilisearch/results.py:69-70 | The scored hits are sorted by descending score, stably and as a permutation. The ids are then taken in that order. |
| LegacyResults.SubQueriesSpec | wagtail_meilisearch/results.py:35-54 | One query per distinct descendant label, with no active-index check. Each query carries every search parameter, plus indexUid and q unless the parameters supply them. |
| LegacyResults.TagWithMembers | wagtail_meilisearch/results.py:40-44 | Each hit of a reply is tagged with that index's boosts. |
| LegacyResults.CollectedSpec | wagtail_meilisearch/results.py:40-54 | A tagged hit is collected exactly when it is in some reply, carrying the boosts of that reply's label. |
| LegacyResults.FirstPosFacts | wagtail_meilisearch/results.py:80 | A primary key's position in the window is where it first occurs, which is the `When` that matches it. |
| LegacyResults.WindowRowsSpec | wagtail_meilisearch/results.py:74-84 | The rows kept are exactly those in the queryset and in the `[start:stop]` window of sorted ids, without repeats. Under relevance their window positions strictly increase. Without it they keep the queryset's order. |
| LegacyResults.InWindowSpec | wagtail_meilisearch/results.py:75-84 | The same facts for a given window: membership, no repeats, increasing window positions under relevance, and queryset order without it. |
| LegacyResults.LegacyDoSearchSpec | wagtail_meilisearch/results.py:31-84 | The whole search returns each row at most once. Every row is in the queryset and is the id of some reply hit. Under relevance the rows follow the score order of the window; without it they keep the queryset's order. |
| LegacyResults.CountQueries | wagtail_meilisearch/results.py:89-101 | One count-only query per model: exactly the keys indexUid (its label), q, `attributesToRetrieve` [] and `hitsPerPage` 0. |
| LegacyResults.SumSpec | wagtail_meilisearch/results.py:91-102 | The total is additive over concatenation and at least each sub-total. It is 0 exactly when every sub-total is 0. |
| LegacyBackend.EarliestStrategy | wagtail_meilisearch/backend.py:222-225 | This revision knows only "soft". Every other name, "delta" included, behaves as a hard strategy. |
| LegacyBackend.SetupRun | wagtail_meilisearch/backend.py:67-78 | A lookup that raises creates the index and sets its stop words, both outside any `try`. The set-up raises only after a failed lookup, when one of those two calls raises, and stops at the call that raised. With nothing raising it is the full set-up. |
| LegacyBackend.ModelIndex.constructor | wagtail_meilisearch/backend.py:48-65 | The uid is the model's label. The set-up calls are the ones `_set_index` makes up to a raise. When a set-up call raises, `__init__` raises that error and `search_params` is never set; otherwise the parameters are the fixed ones. |
| LegacyBackend.ModelIndex.AddItem | wagtail_meilisearch/backend.py:183-188 | A failing build escapes with no call. Otherwise one write: update under "soft", add otherwise. A write that raises escapes after the call; otherwise the method returns None. |
| LegacyBackend.ModelIndex.AddItems | wagtail_meilisearch/backend.py:190-228 | Without cacheops, `USING_CACHEOPS` is never bound (lines 22-27), so the read at line 208 raises NameError before any chunk and nothing is written, whatever the items. With cacheops: chunks of 100, no delta filter, one write per non-empty chunk, and a build or write exception escapes. |
| LegacyBackend.ModelIndex.WriteChunk | wagtail_meilisearch/backend.py:216-226 | One chunk: every document is built, then one write, update under "soft". |
| LegacyBackend.ModelIndex.WriteChunks | wagtail_meilisearch/backend.py:215-228 | The loop over the chunks logs exactly the chunked run under the earliest strategy rule. It returns True unless a build or a write raises. |
| LegacyBackend.ModelIndex.DeleteItem | wagtail_meilisearch/backend.py:230-231 | One `delete_document` call with the object's id. |
| LegacyBackend.ModelIndex.Rebuild | wagtail_meilisearch/backend.py:84-86 | Deletes the remote index. `_set_index` has no early return here, so a lookup that raises creates the index again with its stop words. A create or stop-words update that raises escapes `_rebuild` after the calls up to it. |
| LegacyBackend.ModelIndex.Search | wagtail_meilisearch/backend.py:233-234 | The fixed parameters `limit` 999999 and `matches` "true", never changed. |
| LegacyBackend.AddItemsAsCurrent | wagtail_meilisearch/backend.py:215-226 | When every document builds, the run does not fail. It sends every item's document once, in order. |
| LegacyBackend.Rebuilder.constructor | wagtail_meilisearch/backend.py:241-243 | The uid is the index's label. |
| LegacyBackend.Rebuilder.Start | wagtail_meilisearch/backend.py:245-267 | "soft" deletes nothing; any other strategy deletes all documents. There is no skip list. It builds a fresh index with the same model, strategy and uid, set up anew. When that set-up raises, `start` raises after the delete. |
| LegacyBackend.CollectHits | wagtail_meilisearch/backend.py:325-330 | The loops give the hits of all replies in order, dropping a hit equal to one already collected. |
| LegacyBackend.CollectedSpec | wagtail_meilisearch/backend.py:325-330 | No repeats. A hit is collected exactly when some reply has it. |
| LegacyBackend.SortedIdsSpec | wagtail_meilisearch/backend.py:368-372 | Hits are sorted by descending printed match length, stably and as a permutation. The ids are then taken in that order. |
| LegacyBackend.QuerySetSlice | wagtail_meilisearch/backend.py:382 | Slicing a queryset raises exactly when a given bound is negative. Otherwise each bound is clamped to the row count, and crossed bounds give no rows. |
| LegacyBackend.DoSearchSpec | wagtail_meilisearch/backend.py:376-382 | A negative start or stop raises, as Django refuses negative indexing. Otherwise every result is a queryset row among the sorted ids, without repeats, under the window. Under relevance the rank positions increase; without it the rows keep the queryset's order. With no bounds the result is the whole ordered set. |
| LegacyBackend.DoCountSpec | wagtail_meilisearch/backend.py:386-387 | The count raises exactly when the search does, on a negative bound. Otherwise it is at most the full result, equals it without bounds, and is at most `stop - start` for ordered non-negative bounds. |
| LegacyBackend.WindowPlacementDiffers | wagtail_meilisearch/backend.py:376-382 | The revisions differ. For ids [1, 2], rows [2] and `[:1]`, cutting after the fetch (this revision) gives [2]. Cutting the ids first (wagtail_meilisearch/results.py:74-75) gives []. |

## Left out

- Remote Meilisearch client: calls are values in an `effects` log. Replies, and whether a lookup, create, settings call or write raises, are inputs. A raise that escapes is an error value, and the log ends at the call that raised. The second `client.index(label)`, after the create at src/wagtail_meilisearch/index.py:153, is taken to succeed. The effect log is an ordinary field, not a ghost one, so that methods can state it.
- The clock: `arrow.now().shift(**update_delta)` is the parameter `since`. Timestamps are integers. One `since` serves a whole `add_items` run (`Index.ModelIndex.WriteChunks`, `Index.ModelIndex.AddItems`, `LegacyIndex.ModelIndex.WriteChunks` and `LegacyIndex.ModelIndex.AddItems`), while `_check_deltas` reads `arrow.now()` again for every chunk (src/wagtail_meilisearch/index.py:302). A run that crosses a boundary between chunks can therefore keep an object the model drops, or the reverse.
- Backend.MeiliSearchBackend.RefreshIndex: any index it builds, through `RefreshOne` and `RefreshAt`, is created without a raise. A raising create escapes `get_index_for_model` with nothing cached, as `Backend.MeiliSearchBackend.GetIndexForModel` states, and would end the loop at that model; the model does not state that. In the Meilisearch Python client, `client.index(label)` makes no request, so the `except HTTPError` branch that creates the index is not reached in practice.
- Rebuilder.MeiliSearchRebuilder.Start: the same holds for the index it builds through `OpenIndex`. A raising create would end `start` before any delete.
- `defaults.py` is not part of this model. STOP_WORDS and DEFAULT_RANKING_RULES are constructor parameters.
- Management commands, the query compilers, the Django ORM, cacheops invalidation (the oldest `add_items` without cacheops is modelled by its `cacheopsInstalled` input), and `lru_cache` and `weak_lru` except where noted below. The backend's LRU-cached `get_index_for_model` is an unbounded map, so eviction is not modelled.
- Fields.GetDocumentFields and Fields.CreateDocument are the uncached walk. `get_document_fields` is cached without bound (src/wagtail_meilisearch/utils.py:101-102), and the oldest `_create_document` keeps 128 entries (wagtail_meilisearch/backend.py:160). Both are keyed on Django instances, which hash by primary key. So a record edited and indexed again in the same process gets its stale document, which `Fields.CachedDocumentFields` and `Fields.StaleAfterEdit` show. An unsaved instance, whose primary key is None, raises TypeError when hashed; the model's records always have an id. Eviction from the 128-entry cache is not modelled.
- `ranked_ids_from_search_results` is imported by src/wagtail_meilisearch/results.py:8, but src/wagtail_meilisearch/utils.py defines no such function. As written, importing the results module raises ImportError. The model takes the function's intended output, (id, score) pairs in descending score, as an input.
- Floating-point scores and boosts are integers. `len(str(matches))` is a given natural number per match key.
- Printed output is kept only where it is observable state (SKIPPING, the older set-up warnings). Settings warnings are recorded as the failing steps; their text is not modelled.
- The backend constructor builds a `MeiliIndexRegistry` (src/wagtail_meilisearch/backend.py:53-56). Nothing in the backend calls it, because `get_index_for_model` at line 134 replaces the delegating one at line 66. `Index.Registry` models the registry on its own, as a class whose map and cache are passed in, and `Backend.MeiliSearchBackend` has no registry field. The client construction is not modelled.
- `reset_index`, `add_type`, `add`, `add_bulk` and `delete` in src/wagtail_meilisearch/backend.py:157-208 only forward to the index, which is modelled.
- src `get_rebuilder` (src/wagtail_meilisearch/backend.py:148-155) asks for the index of a None model. The index constructor reads `model._meta.label` (src/wagtail_meilisearch/index.py:98), so as written it always raises AttributeError. It is not modelled. `Rebuilder.MeiliSearchRebuilder.constructor` requires a model index whose model is set, as `get_index_label(self.index.model)` at src/wagtail_meilisearch/rebuilder.py:10 needs.
- In the oldest backend, `get_rebuilder` returns None and `reset_index` raises NotImplementedError (wagtail_meilisearch/backend.py:419-423). Neither is modelled.
- The oldest backend's `get_index_for_model` (wagtail_meilisearch/backend.py:416-417) builds a new index on every call. Each build repeats the set-up: a lookup, and a create plus stop words when the lookup raises. This happens in `refresh_index`, `_refresh`, the rebuilder, and once per descendant model in every search (line 326). `LegacyBackend.ModelIndex.constructor` states the set-up of one build; the search path takes the replies as inputs and does not log those set-up calls.
- `refresh` is a no-op in every revision. The old backend's `refresh_index` constructs a new index per model, so every index is refreshed; that loop is not modelled separately.
- The registry's `_refresh` is modelled. The old backend's `_refresh` (wagtail_meilisearch/backend.py:410-414) is not, because it builds an index exactly as `get_index_for_model` does.
- The src constructor reads `model._meta.label` (src/wagtail_meilisearch/index.py:98), so a None model raises there. `Index.ModelIndex.constructor` accepts None and follows the `_set_index` branch for it.
- `_has_date_fields` in src/wagtail_meilisearch/index.py:279-286 reads `self.model_fields`, which is never set. `Index.CheckDeltasAsWritten` models that, and the Findings table lists it. The rest of the model uses the delta-field test of src/wagtail_meilisearch/utils.py:130-137.
- The `models_boosts` loop in src `_build_queries` (results.py:175-178) has no effect, so it is not modelled.
- `order_by("-search_rank")` and `order_by(preserved_order)`: ties keep queryset order, modelled as a stable sort.
- `DummyModelIndex.add_model` and `add_items` do nothing. The dummy index is an object with no state, so no contract is stated on it.
- `MeiliSearchRebuilder.finish` does nothing. Its `Rebuilder` counterpart has an empty body and no contract.
- Hits in the oldest backend are compared as (id, match-info length) pairs, not as whole dicts.
- A hit missing `_matchesPosition` raises KeyError in the older scoring loop. Hits here always carry their matches.
- `LegacyResults.Collected` requires one reply per sub-query. The Meilisearch multi-search returns results aligned with its queries.
- The older `_do_count` sends one count query per model, not per distinct label. `LegacyResults.CountQueries` does the same.
- `supports_facet` is False in the older results (`LegacyResults.SUPPORTS_FACET`); the older revision has no `facet`.

## Findings

| source | as written | input that shows it | evidently intended | confidence | as-written member | corrected member |
|---|---|---|---|---|---|---|
| wagtail_meilisearch/index.py:334 | `continue` after `filtered.append(obj)` does not leave the field loop, so an object is appended once per recent delta field | an item with `created_at` 5 and `updated_at` 6 and `since` 0 is returned twice | each object appears at most once (the later revision uses `break`) | high, not executed | LegacyIndex.CheckDeltasDuplicates | Index.KeepRecentMembers |
| src/wagtail_meilisearch/index.py:61-65 | the registry builds the index with a `settings=` keyword that the constructor at line 84 does not accept; the path is latent, since the backend's `get_index_for_model` at src/wagtail_meilisearch/backend.py:134 replaces the one that would call the registry | a direct call to the registry for any model missing from both its map and the cache raises TypeError | construct the index from the backend and model, cache it and register it | high, not executed | Index.Registry.GetIndexForModelAsWritten | Index.Registry.GetIndexForModel |
| src/wagtail_meilisearch/utils.py:101-102 | `get_document_fields` is cached by model and instance, and an instance hashes by its primary key | record 1 indexed with title "old", then edited to "new" and indexed again, gets `{"title": "old"}` | every indexing builds the document from the record's current values | medium, not executed | Fields.StaleAfterEdit | Fields.GetDocumentFields |
| src/wagtail_meilisearch/index.py:279-286 | `_has_date_fields` reads `self.model_fields`, which the index never sets | under the default delta `{"weeks": -1}`, `_check_deltas` on any non-empty list raises AttributeError | keep an object when the model has a delta field and one of the object's delta timestamps is later than `since`, as src/wagtail_meilisearch/utils.py:130-137 tests | high, not executed | Index.CheckDeltasAsWrittenRaises | Index.ModelIndex.CheckDeltas |
