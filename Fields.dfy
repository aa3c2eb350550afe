// The document mapper: how a model instance becomes the flat document that
// is pushed to Meilisearch (`prepare_value`, `get_field_mapping`,
// `get_document_fields`, `has_date_fields` and `_create_document`).

module Fields {
  import opened Common

  const FILTER_SUFFIX := "_filter"
  const AUTOCOMPLETE_SUFFIX := "_ngrams"

  /** The four timestamp names the delta strategy looks at. */
  const DELTA_FIELDS: seq<string> := ["created_at", "updated_at", "first_published_at", "last_published_at"]

  // ---------------------------------------------------------------------
  // Search field descriptors

  /** A field's `boost` attribute: missing, present but None, or a number. */
  datatype Boost = NoBoost | NullBoost | BoostOf(v: int)

  datatype Field =
    | SearchField(name: string, boost: Boost)
    | FilterField(name: string)
    | AutocompleteField(name: string, boost: Boost)
    | RelatedFields(name: string, subfields: seq<Field>)
  {
    predicate IsPlain() { !RelatedFields? }
  }

  /** `get_field_mapping`: the document key a field is stored under. */
  function FieldMapping(f: Field): (r: string)
    ensures |r| >= |f.name| && r[..|f.name|] == f.name
  {
    match f
    case FilterField(n) => n + FILTER_SUFFIX
    case AutocompleteField(n, _) => n + AUTOCOMPLETE_SUFFIX
    case _ => f.name
  }

  /**
   * The suffixes keep a name's search, filter and autocomplete copies apart:
   * two plain fields of the same name but different kinds never share a key.
   */
  lemma MappingKindsDistinct(f: Field, g: Field)
    requires f.IsPlain() && g.IsPlain() && f.name == g.name
    requires f.SearchField? != g.SearchField? || f.FilterField? != g.FilterField?
    ensures FieldMapping(f) != FieldMapping(g)
  {
  }

  // ---------------------------------------------------------------------
  // Raw attribute values and prepare_value

  /**
   * A Python value read from a model instance. `Callable` carries the text
   * `str(value())` produces; `Other` is any remaining value (None, numbers,
   * dates, booleans) with the text `str(value)` produces and its truthiness.
   */
  datatype RawValue =
    | Str(s: string)
    | List(items: seq<RawValue>)
    | Dict(entries: seq<Entry>)
    | Callable(result: string)
    | Other(text: string, falsy: bool)

  /** One key/value pair of a dict, in insertion order. */
  datatype Entry = Entry(key: string, value: RawValue)

  const NoneValue := Other("None", true)

  /** Python truthiness: empty strings, lists and dicts are false, a callable is true. */
  predicate Falsy(v: RawValue)
  {
    match v
    case Str(s) => s == ""
    case List(items) => items == []
    case Dict(entries) => entries == []
    case Callable(_) => false
    case Other(_, f) => f
  }

  /** `prepare_value`: the text a raw value is indexed as. */
  function PrepareValue(v: RawValue): (r: string)
    ensures Falsy(v) ==> r == ""
    ensures v.Str? ==> r == v.s
    decreases v, 1
  {
    if Falsy(v) then ""
    else match v
      case Str(s) => s
      case List(items) => Join(", ", PrepareEach(items))
      case Dict(entries) => Join(", ", PrepareEntries(entries))
      case Callable(t) => t
      case Other(t, _) => t
  }

  function PrepareEach(vs: seq<RawValue>): (r: seq<string>)
    ensures |r| == |vs|
    decreases vs, 0
  {
    if vs == [] then [] else [PrepareValue(vs[0])] + PrepareEach(vs[1..])
  }

  function PrepareEntries(es: seq<Entry>): (r: seq<string>)
    ensures |r| == |es|
    decreases es, 0
  {
    if es == [] then [] else [PrepareValue(es[0].value)] + PrepareEntries(es[1..])
  }

  function DictValues(es: seq<Entry>): (r: seq<RawValue>)
    ensures |r| == |es| && forall i :: 0 <= i < |es| ==> r[i] == es[i].value
  {
    if es == [] then [] else [es[0].value] + DictValues(es[1..])
  }

  lemma {:induction false} PrepareEachAt(vs: seq<RawValue>)
    ensures forall i :: 0 <= i < |vs| ==> PrepareEach(vs)[i] == PrepareValue(vs[i])
  {
    if vs != [] {
      PrepareEachAt(vs[1..]);
      forall i | 0 < i < |vs| ensures PrepareEach(vs)[i] == PrepareValue(vs[i]) {
        assert PrepareEach(vs)[i] == PrepareEach(vs[1..])[i - 1];
        assert vs[i] == vs[1..][i - 1];
      }
    }
  }

  /** Applying `prepare_value` a second time changes nothing. */
  lemma PrepareIdempotent(v: RawValue)
    ensures PrepareValue(Str(PrepareValue(v))) == PrepareValue(v)
  {
  }

  /**
   * A non-empty list is indexed as its items' prepared texts, in list order,
   * joined with ", ".
   */
  lemma PrepareList(items: seq<RawValue>)
    requires items != []
    ensures PrepareValue(List(items)) == Join(", ", Map(PrepareValue, items))
  {
    PrepareEachAt(items);
    assert PrepareEach(items) == Map(PrepareValue, items);
  }

  /** A dict is indexed exactly as the list of its values in insertion order. */
  lemma {:induction false} PrepareDictAsValues(es: seq<Entry>)
    ensures PrepareValue(Dict(es)) == PrepareValue(List(DictValues(es)))
  {
    PrepareEntriesAsValues(es);
  }

  lemma {:induction false} PrepareEntriesAsValues(es: seq<Entry>)
    ensures PrepareEntries(es) == PrepareEach(DictValues(es))
  {
    if es != [] {
      PrepareEntriesAsValues(es[1..]);
      assert DictValues(es)[1..] == DictValues(es[1..]);
    }
  }

  /** A list of non-empty strings is indexed as those strings joined with ", ". */
  lemma ListOfStrings(ss: seq<string>)
    requires ss != [] && forall i :: 0 <= i < |ss| ==> ss[i] != ""
    ensures PrepareValue(List(Map(s => Str(s), ss))) == Join(", ", ss)
  {
    var items := Map(s => Str(s), ss);
    PrepareEachAt(items);
    assert PrepareEach(items) == ss;
  }

  // ---------------------------------------------------------------------
  // Model instances

  /**
   * What `field.get_value(item)` yields for one attribute: an exception, a
   * plain value, a to-many manager (given by the columns `values_list` can
   * produce) or a single related record; the latter two carry their `str()`.
   */
  datatype Attr =
    | Fails
    | Raw(v: RawValue)
    | ToMany(columns: map<string, seq<RawValue>>, text: string)
    | ToOne(rec: Record, text: string)

  datatype Record = Record(id: int, attrs: map<string, Attr>)

  /** A missing attribute reads as None, as Wagtail's `get_value` falls back to `getattr(obj, name, None)`. */
  function GetValue(item: Record, name: string): Attr
  {
    if name in item.attrs then item.attrs[name] else Raw(NoneValue)
  }

  /** `prepare_value(get_value(...))` inside `contextlib.suppress(Exception)`: None when it raised. */
  function Prepared(a: Attr): (r: Option<string>)
    ensures r.None? <==> a.Fails?
  {
    match a
    case Fails => None
    case Raw(v) => Some(PrepareValue(v))
    case ToMany(_, t) => Some(t)
    case ToOne(_, t) => Some(t)
  }

  // ---------------------------------------------------------------------
  // get_document_fields

  type Writes = seq<(string, string)>

  datatype DocError =
    | RelatedValueRaised(field: string)   // RelatedFields.get_value is not suppressed
    | UnknownColumn(field: string, column: string)   // values_list raises before the suppress

  /** The related document key `parent__mapped(sub)`. */
  function RelatedKey(parent: string, sub: Field): string
  {
    parent + "__" + FieldMapping(sub)
  }

  /** A dict after the assignments `ws`, in order. */
  function Apply(d: map<string, string>, ws: Writes): map<string, string>
  {
    if ws == [] then d else Apply(d, ws[..|ws| - 1])[ws[|ws| - 1].0 := ws[|ws| - 1].1]
  }

  /** The value the last assignment to `k` in `ws` writes, if any. */
  function LastWrite(ws: Writes, k: string): Option<string>
  {
    if ws == [] then None
    else if ws[|ws| - 1].0 == k then Some(ws[|ws| - 1].1)
    else LastWrite(ws[..|ws| - 1], k)
  }

  function Lookup(d: map<string, string>, k: string): Option<string>
  {
    if k in d then Some(d[k]) else None
  }

  /** After a run of assignments a key holds its last written value, or what it held before. */
  lemma {:induction false} ApplyLastWriteWins(d: map<string, string>, ws: Writes, k: string)
    ensures Lookup(Apply(d, ws), k) == if LastWrite(ws, k).Some? then LastWrite(ws, k) else Lookup(d, k)
  {
    if ws != [] {
      ApplyLastWriteWins(d, ws[..|ws| - 1], k);
    }
  }

  lemma {:induction false} LastWriteSome(ws: Writes, k: string)
    ensures LastWrite(ws, k).Some? <==> exists i :: 0 <= i < |ws| && ws[i].0 == k
  {
    if ws != [] {
      var init := ws[..|ws| - 1];
      LastWriteSome(init, k);
      if LastWrite(ws, k).None? {
        forall i | 0 <= i < |ws| ensures ws[i].0 != k {
          if i < |ws| - 1 { assert ws[i] == init[i]; }
        }
      } else if ws[|ws| - 1].0 != k {
        var i :| 0 <= i < |init| && init[i].0 == k;
        assert ws[i] == init[i];
      }
    }
  }

  lemma {:induction false} ApplyConcat(d: map<string, string>, w1: Writes, w2: Writes)
    ensures Apply(d, w1 + w2) == Apply(Apply(d, w1), w2)
  {
    if w2 == [] {
      assert w1 + w2 == w1;
    } else {
      assert (w1 + w2)[..|w1 + w2| - 1] == w1 + w2[..|w2| - 1];
      ApplyConcat(d, w1, w2[..|w2| - 1]);
    }
  }

  /** The assignments a to-many related value produces, one per sub-field, or the column that does not exist. */
  function ManyWrites(parent: string, subs: seq<Field>, cols: map<string, seq<RawValue>>): Result<Writes, DocError>
  {
    if subs == [] then Ok([])
    else
      match ManyWrites(parent, subs[..|subs| - 1], cols)
      case Err(e) => Err(e)
      case Ok(ws) =>
        var sub := subs[|subs| - 1];
        if sub.name in cols then Ok(ws + [(RelatedKey(parent, sub), PrepareValue(List(cols[sub.name])))])
        else Err(UnknownColumn(parent, sub.name))
  }

  /** The assignments a single related record produces: every sub-field whose value did not raise. */
  function OneWrites(parent: string, subs: seq<Field>, rec: Record): Writes
  {
    if subs == [] then []
    else
      var ws := OneWrites(parent, subs[..|subs| - 1], rec);
      var sub := subs[|subs| - 1];
      match Prepared(GetValue(rec, sub.name))
      case None => ws
      case Some(s) => ws + [(RelatedKey(parent, sub), s)]
  }

  /** The assignments one search field produces for `item`. */
  function FieldWrites(f: Field, item: Record): Result<Writes, DocError>
  {
    if f.IsPlain() then
      match Prepared(GetValue(item, f.name))
      case None => Ok([])
      case Some(s) => Ok([(FieldMapping(f), s)])
    else
      match GetValue(item, f.name)
      case Fails => Err(RelatedValueRaised(f.name))
      case ToMany(cols, _) => ManyWrites(f.name, f.subfields, cols)
      case ToOne(rec, _) => Ok(OneWrites(f.name, f.subfields, rec))
      case Raw(_) => Ok([])
  }

  /** The document `get_document_fields` returns, or the exception that escapes it. */
  function DocumentFields(fields: seq<Field>, item: Record): Result<map<string, string>, DocError>
  {
    if fields == [] then Ok(map[])
    else
      match DocumentFields(fields[..|fields| - 1], item)
      case Err(e) => Err(e)
      case Ok(d) =>
        match FieldWrites(fields[|fields| - 1], item)
        case Err(e) => Err(e)
        case Ok(ws) => Ok(Apply(d, ws))
  }

  /** All assignments the fields produce, in field order. */
  function AllWrites(fields: seq<Field>, item: Record): Result<Writes, DocError>
  {
    if fields == [] then Ok([])
    else
      match AllWrites(fields[..|fields| - 1], item)
      case Err(e) => Err(e)
      case Ok(ws) =>
        match FieldWrites(fields[|fields| - 1], item)
        case Err(e) => Err(e)
        case Ok(w) => Ok(ws + w)
  }

  /** The document is the empty dict after every field's assignments, in field order. */
  lemma {:induction false} DocumentIsAllWrites(fields: seq<Field>, item: Record)
    ensures DocumentFields(fields, item).Ok? <==> AllWrites(fields, item).Ok?
    ensures AllWrites(fields, item).Ok? ==>
      DocumentFields(fields, item).value == Apply(map[], AllWrites(fields, item).value)
  {
    if fields != [] {
      DocumentIsAllWrites(fields[..|fields| - 1], item);
      var pre := AllWrites(fields[..|fields| - 1], item);
      if pre.Ok? && FieldWrites(fields[|fields| - 1], item).Ok? {
        ApplyConcat(map[], pre.value, FieldWrites(fields[|fields| - 1], item).value);
      }
    }
  }

  /**
   * A plain field that raises contributes nothing and a plain field that
   * succeeds contributes exactly its mapped key.
   */
  lemma PlainFieldWrites(f: Field, item: Record)
    requires f.IsPlain()
    ensures FieldWrites(f, item).Ok?
    ensures GetValue(item, f.name).Fails? ==> FieldWrites(f, item).value == []
    ensures !GetValue(item, f.name).Fails? ==>
      FieldWrites(f, item).value == [(FieldMapping(f), Prepared(GetValue(item, f.name)).value)]
  {
  }

  /**
   * The position of the last field mapped to `k` whose value read without
   * raising: the field whose value `k` ends up holding.
   */
  function LastContributor(fields: seq<Field>, item: Record, k: string): (r: Option<nat>)
    ensures r.Some? ==> (r.value < |fields| && FieldMapping(fields[r.value]) == k &&
                         !GetValue(item, fields[r.value].name).Fails?)
    ensures r.Some? ==> forall j :: r.value < j < |fields| && FieldMapping(fields[j]) == k ==>
      GetValue(item, fields[j].name).Fails?
    ensures r.None? ==> forall j :: 0 <= j < |fields| && FieldMapping(fields[j]) == k ==>
      GetValue(item, fields[j].name).Fails?
  {
    if fields == [] then None
    else
      var f := fields[|fields| - 1];
      if FieldMapping(f) == k && !GetValue(item, f.name).Fails? then Some(|fields| - 1)
      else
        var r := LastContributor(fields[..|fields| - 1], item, k);
        assert forall j :: 0 <= j < |fields| - 1 ==> fields[..|fields| - 1][j] == fields[j];
        r
  }

  /**
   * With only plain fields the document never fails, a field that raises is
   * simply missing, and each key holds the value of the last field mapped to
   * it that did not raise (an absent key: no such field).
   */
  lemma {:induction false} PlainDocument(fields: seq<Field>, item: Record, k: string)
    requires forall i :: 0 <= i < |fields| ==> fields[i].IsPlain()
    ensures DocumentFields(fields, item).Ok?
    ensures Lookup(DocumentFields(fields, item).value, k) ==
      (match LastContributor(fields, item, k)
      case None => None
      case Some(i) => Prepared(GetValue(item, fields[i].name)))
  {
    if fields != [] {
      var init := fields[..|fields| - 1];
      var f := fields[|fields| - 1];
      PlainDocument(init, item, k);
      var d := DocumentFields(init, item).value;
      var ws := FieldWrites(f, item).value;
      ApplyLastWriteWins(d, ws, k);
    }
  }

  /** An exception from a RelatedFields `get_value` escapes: the whole document fails. */
  lemma {:induction false} RelatedFailurePropagates(fields: seq<Field>, item: Record, i: nat)
    requires i < |fields| && fields[i].RelatedFields? && GetValue(item, fields[i].name).Fails?
    ensures DocumentFields(fields, item).Err?
  {
    if i < |fields| - 1 {
      RelatedFailurePropagates(fields[..|fields| - 1], item, i);
    }
  }

  /**
   * A to-many related value yields one `parent__mapped(sub)` key per
   * sub-field, holding the prepared list of that column's values, when every
   * sub-field names an existing column.
   */
  lemma {:induction false} ManyWritesKeys(parent: string, subs: seq<Field>, cols: map<string, seq<RawValue>>)
    requires forall j :: 0 <= j < |subs| ==> subs[j].name in cols
    ensures ManyWrites(parent, subs, cols).Ok?
    ensures var ws := ManyWrites(parent, subs, cols).value;
      |ws| == |subs| &&
      forall j :: 0 <= j < |subs| ==>
        ws[j] == (RelatedKey(parent, subs[j]), PrepareValue(List(cols[subs[j].name])))
  {
    if subs != [] {
      ManyWritesKeys(parent, subs[..|subs| - 1], cols);
    }
  }

  /** A to-many sub-field naming a non-existent column makes the related field fail. */
  lemma {:induction false} ManyWritesUnknownColumn(parent: string, subs: seq<Field>, cols: map<string, seq<RawValue>>, j: nat)
    requires j < |subs| && subs[j].name !in cols
    ensures ManyWrites(parent, subs, cols).Err?
  {
    if j < |subs| - 1 {
      ManyWritesUnknownColumn(parent, subs[..|subs| - 1], cols, j);
    }
  }

  /** The failure reported is the first sub-field whose column is missing. */
  lemma {:induction false} ManyWritesFirstError(parent: string, subs: seq<Field>, cols: map<string, seq<RawValue>>, j: nat)
    requires j < |subs| && subs[j].name !in cols && ManyWrites(parent, subs[..j], cols).Ok?
    ensures ManyWrites(parent, subs, cols) == Err(UnknownColumn(parent, subs[j].name))
  {
    if j < |subs| - 1 {
      assert subs[..|subs| - 1][..j] == subs[..j];
      ManyWritesFirstError(parent, subs[..|subs| - 1], cols, j);
    } else {
      assert subs[..|subs| - 1] == subs[..j];
    }
  }

  /**
   * A single related record yields the keys of exactly those sub-fields whose
   * value did not raise, each holding that sub-field's prepared value.
   */
  lemma {:induction false} OneWritesKeys(parent: string, subs: seq<Field>, rec: Record, k: string)
    ensures LastWrite(OneWrites(parent, subs, rec), k).Some? <==>
      exists j :: 0 <= j < |subs| && RelatedKey(parent, subs[j]) == k && !GetValue(rec, subs[j].name).Fails?
    ensures forall w :: w in OneWrites(parent, subs, rec) ==>
      exists j :: 0 <= j < |subs| && !GetValue(rec, subs[j].name).Fails? && w == (RelatedKey(parent, subs[j]), Prepared(GetValue(rec, subs[j].name)).value)
  {
    OneWritesLast(parent, subs, rec, k);
    OneWritesMembers(parent, subs, rec);
  }

  /** The last sub-field of a single related record: its write, if any, follows the earlier ones. */
  lemma OneWritesSplit(parent: string, subs: seq<Field>, rec: Record)
    requires subs != []
    ensures var n := |subs| - 1;
      var ws := OneWrites(parent, subs[..n], rec);
      OneWrites(parent, subs, rec) ==
        if GetValue(rec, subs[n].name).Fails? then ws
        else ws + [(RelatedKey(parent, subs[n]), Prepared(GetValue(rec, subs[n].name)).value)]
  {
  }

  lemma {:induction false} OneWritesLast(parent: string, subs: seq<Field>, rec: Record, k: string)
    ensures LastWrite(OneWrites(parent, subs, rec), k).Some? <==>
      exists j :: 0 <= j < |subs| && RelatedKey(parent, subs[j]) == k && !GetValue(rec, subs[j].name).Fails?
  {
    if subs != [] {
      var n := |subs| - 1;
      var init := subs[..n];
      var ws := OneWrites(parent, init, rec);
      OneWritesLast(parent, init, rec, k);
      OneWritesSplit(parent, subs, rec);
      assert forall j :: 0 <= j < n ==> init[j] == subs[j];
      if !GetValue(rec, subs[n].name).Fails? {
        var w := (RelatedKey(parent, subs[n]), Prepared(GetValue(rec, subs[n].name)).value);
        assert (ws + [w])[..|ws|] == ws;
      }
    }
  }

  lemma {:induction false} OneWritesMembers(parent: string, subs: seq<Field>, rec: Record)
    ensures forall w :: w in OneWrites(parent, subs, rec) ==>
      exists j :: 0 <= j < |subs| && !GetValue(rec, subs[j].name).Fails? && w == (RelatedKey(parent, subs[j]), Prepared(GetValue(rec, subs[j].name)).value)
  {
    if subs != [] {
      var n := |subs| - 1;
      var init := subs[..n];
      OneWritesMembers(parent, init, rec);
      OneWritesSplit(parent, subs, rec);
      assert forall j :: 0 <= j < n ==> init[j] == subs[j];
    }
  }

  /** A related value that is neither a manager nor a record adds no keys. */
  lemma RelatedOtherValue(f: Field, item: Record)
    requires f.RelatedFields? && GetValue(item, f.name).Raw?
    ensures FieldWrites(f, item) == Ok([])
  {
  }

  /** Once a prefix of the fields fails, the whole document fails with the same exception. */
  lemma {:induction false} ErrorPrefix(fields: seq<Field>, item: Record, n: nat)
    requires n <= |fields| && DocumentFields(fields[..n], item).Err?
    ensures DocumentFields(fields, item) == DocumentFields(fields[..n], item)
  {
    if n < |fields| {
      assert fields[..|fields| - 1][..n] == fields[..n];
      ErrorPrefix(fields[..|fields| - 1], item, n);
    } else {
      assert fields[..n] == fields;
    }
  }

  /** The inner loop over a to-many value's sub-fields, writing one key per sub-field. */
  method FillFromMany(doc: map<string, string>, parent: string, subs: seq<Field>, cols: map<string, seq<RawValue>>)
    returns (res: Result<map<string, string>, DocError>)
    ensures ManyWrites(parent, subs, cols).Err? ==> res == Err(ManyWrites(parent, subs, cols).error)
    ensures ManyWrites(parent, subs, cols).Ok? ==> res == Ok(Apply(doc, ManyWrites(parent, subs, cols).value))
  {
    var d := doc;
    ghost var ws: Writes := [];
    var j := 0;
    while j < |subs|
      invariant 0 <= j <= |subs|
      invariant ManyWrites(parent, subs[..j], cols) == Ok(ws)
      invariant d == Apply(doc, ws)
    {
      var sub := subs[j];
      assert subs[..j + 1][..j] == subs[..j];
      if sub.name !in cols {
        ManyWritesFirstError(parent, subs, cols, j);
        return Err(UnknownColumn(parent, sub.name));
      }
      var w := (RelatedKey(parent, sub), PrepareValue(List(cols[sub.name])));
      d := d[w.0 := w.1];
      ws := ws + [w];
      j := j + 1;
    }
    assert subs[..j] == subs;
    return Ok(d);
  }

  /** One more sub-field of a single related record adds its write exactly when its value did not raise. */
  lemma OneWritesSnoc(parent: string, done: seq<Field>, sub: Field, rec: Record, doc: map<string, string>)
    ensures var got := Prepared(GetValue(rec, sub.name));
      Apply(doc, OneWrites(parent, done + [sub], rec)) ==
        if got.Some? then Apply(doc, OneWrites(parent, done, rec))[RelatedKey(parent, sub) := got.value]
        else Apply(doc, OneWrites(parent, done, rec))
  {
    assert (done + [sub])[..|done|] == done;
    var ws := OneWrites(parent, done, rec);
    var got := Prepared(GetValue(rec, sub.name));
    if got.Some? {
      var w := (RelatedKey(parent, sub), got.value);
      assert (ws + [w])[..|ws|] == ws;
    }
  }

  /** The inner loop over a single related record's sub-fields, skipping those that raise. */
  method FillFromOne(doc: map<string, string>, parent: string, subs: seq<Field>, rec: Record)
    returns (d: map<string, string>)
    ensures d == Apply(doc, OneWrites(parent, subs, rec))
  {
    d := doc;
    var j := 0;
    ghost var done: seq<Field> := [];
    while j < |subs|
      invariant 0 <= j <= |subs| && done == subs[..j]
      invariant d == Apply(doc, OneWrites(parent, done, rec))
    {
      var sub := subs[j];
      OneWritesSnoc(parent, done, sub, rec, doc);
      var got := Prepared(GetValue(rec, sub.name));
      if got.Some? {
        d := d[RelatedKey(parent, sub) := got.value];
      }
      assert subs[..j + 1] == done + [sub];
      done := done + [sub];
      j := j + 1;
    }
    assert done == subs;
  }

  /**
   * `get_document_fields`: walks the search fields, filling the document
   * dict in place; plain fields and related sub-fields that raise are
   * skipped, while an exception from a related field's own value escapes.
   */
  method GetDocumentFields(fields: seq<Field>, item: Record) returns (res: Result<map<string, string>, DocError>)
    ensures res == DocumentFields(fields, item)
  {
    var doc: map<string, string> := map[];
    var i := 0;
    while i < |fields|
      invariant 0 <= i <= |fields|
      invariant DocumentFields(fields[..i], item) == Ok(doc)
    {
      var field := fields[i];
      assert fields[..i + 1][..i] == fields[..i];
      assert fields[..i + 1][i] == field;
      if field.IsPlain() {
        var got := Prepared(GetValue(item, field.name));
        if got.Some? {
          var w := (FieldMapping(field), got.value);
          var one: Writes := [w];
          assert one[..0] == [];
          assert Apply(doc, one) == doc[w.0 := w.1];
          doc := doc[w.0 := w.1];
        }
      } else {
        var value := GetValue(item, field.name);
        if value.Fails? {
          ErrorPrefix(fields, item, i + 1);
          return Err(RelatedValueRaised(field.name));
        } else if value.ToMany? {
          var r := FillFromMany(doc, field.name, field.subfields, value.columns);
          if r.Err? {
            ErrorPrefix(fields, item, i + 1);
            return Err(r.error);
          }
          doc := r.value;
        } else if value.ToOne? {
          doc := FillFromOne(doc, field.name, field.subfields, value.rec);
        }
      }
      i := i + 1;
    }
    assert fields[..i] == fields;
    return Ok(doc);
  }

  // ---------------------------------------------------------------------
  // _create_document

  datatype DocValue = Text(s: string) | Id(n: int)

  type Document = map<string, DocValue>

  /**
   * `_create_document`: the document fields with `id` set to the item's
   * primary key last, whatever a field wrote there.
   */
  function CreateDocument(fields: seq<Field>, item: Record): (r: Result<Document, DocError>)
    ensures r.Ok? <==> DocumentFields(fields, item).Ok?
    ensures r.Ok? ==>
      var d := DocumentFields(fields, item).value;
      && "id" in r.value && r.value["id"] == Id(item.id)
      && r.value.Keys == d.Keys + {"id"}
      && forall k :: k in d && k != "id" ==> r.value[k] == Text(d[k])
  {
    match DocumentFields(fields, item)
    case Err(e) => Err(e)
    case Ok(d) =>
      var texts := map k | k in d :: Text(d[k]);
      Ok(texts["id" := Id(item.id)])
  }

  // ---------------------------------------------------------------------
  // the lru_cache on get_document_fields

  /**
   * A cache key: the model label and the record's primary key. Django
   * instances hash and compare by primary key, so an edited record is the
   * same key as the record it was before the edit.
   */
  type DocKey = (string, int)

  /** The dicts `lru_cache(maxsize=None)` keeps; a walk that raised is not kept. */
  type DocCache = map<DocKey, map<string, string>>

  /**
   * `get_document_fields` behind its cache: a hit returns the dict built
   * the first time for that (model, pk); a miss walks the record and keeps
   * the dict when the walk succeeds.
   */
  function CachedDocumentFields(cache: DocCache, model: string, fields: seq<Field>, item: Record)
    : (r: (Result<map<string, string>, DocError>, DocCache))
    ensures (model, item.id) in cache ==> r.0 == Ok(cache[(model, item.id)]) && r.1 == cache
    ensures (model, item.id) !in cache ==> r.0 == DocumentFields(fields, item)
    ensures r.1.Keys == cache.Keys + (if r.0.Ok? then {(model, item.id)} else {})
  {
    var k := (model, item.id);
    if k in cache then (Ok(cache[k]), cache)
    else match DocumentFields(fields, item)
      case Err(e) => (Err(e), cache)
      case Ok(d) => (Ok(d), cache[k := d])
  }

  /** Every cached dict of the model is the walk of its record as the table holds it now. */
  ghost predicate CacheCurrent(cache: DocCache, model: string, fields: seq<Field>, table: map<int, Record>)
  {
    forall k :: k in cache && k.0 == model ==> k.1 in table && DocumentFields(fields, table[k.1]) == Ok(cache[k])
  }

  /**
   * While no cached record has been edited, the cached walk is the walk
   * itself, and the cache stays current after the call.
   */
  lemma CachedWhileCurrent(cache: DocCache, model: string, fields: seq<Field>, table: map<int, Record>, item: Record)
    requires CacheCurrent(cache, model, fields, table)
    requires item.id in table && table[item.id] == item
    ensures CachedDocumentFields(cache, model, fields, item).0 == DocumentFields(fields, item)
    ensures CacheCurrent(CachedDocumentFields(cache, model, fields, item).1, model, fields, table)
  {
  }

  /**
   * Counterexample: a record indexed, edited and indexed again within one
   * process gets the first dict back, not the walk of its new values.
   */
  lemma StaleAfterEdit()
    ensures var fields := [SearchField("title", NoBoost)];
      var before := Record(1, map["title" := Raw(Str("old"))]);
      var after := Record(1, map["title" := Raw(Str("new"))]);
      var first := CachedDocumentFields(map[], "app.Page", fields, before);
      && first.0 == Ok(map["title" := "old"])
      && CachedDocumentFields(first.1, "app.Page", fields, after).0 == Ok(map["title" := "old"])
      && DocumentFields(fields, after) == Ok(map["title" := "new"])
  {
  }

  // ---------------------------------------------------------------------
  // has_date_fields

  /** True when some model field name is one of the four delta timestamp names. */
  function HasDateFields(fieldNames: seq<string>): bool
  {
    if fieldNames == [] then false
    else fieldNames[0] in DELTA_FIELDS || HasDateFields(fieldNames[1..])
  }

  lemma {:induction false} HasDateFieldsExists(fieldNames: seq<string>)
    ensures HasDateFields(fieldNames) <==> exists i :: 0 <= i < |fieldNames| && fieldNames[i] in DELTA_FIELDS
  {
    if fieldNames != [] {
      HasDateFieldsExists(fieldNames[1..]);
      if HasDateFields(fieldNames[1..]) {
        var i :| 0 <= i < |fieldNames[1..]| && fieldNames[1..][i] in DELTA_FIELDS;
        assert fieldNames[i + 1] in DELTA_FIELDS;
      }
      if exists i :: 0 <= i < |fieldNames| && fieldNames[i] in DELTA_FIELDS {
        var i :| 0 <= i < |fieldNames| && fieldNames[i] in DELTA_FIELDS;
        if i > 0 { assert fieldNames[1..][i - 1] in DELTA_FIELDS; }
      }
    }
  }
}
