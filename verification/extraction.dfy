/**
 * What `extract_rows` and `process` do to the tree of generators, as
 * functions on a value that mirrors the tree: each node holds its class, the
 * rows it has accumulated so far and its children in `__subgenerators__`
 * order. A Python exception becomes an `ImportError` that is returned
 * together with the state reached when it was raised (the rows appended
 * before the exception stay in place, as they do in Python).
 */
module Extraction {
  import opened Wrappers
  import opened Schema
  import opened Document
  import opened Generators
  import Registry

  /** One row: a slot per column, `Null` where nothing was written. */
  type Row = seq<Value>

  /** The state of one generator object and of the generators below it. */
  datatype Gen = Gen(cls: GeneratorClass, rows: seq<Row>, children: seq<Gen>)

  datatype ImportError =
    | UnknownTopLevelKey(key: string)                          // process: no matching generator
    | UnknownColumn(generator: GeneratorClass, key: string)    // extract_rows: neither column nor child
    | UnsupportedColumnType(colType: ColType)                  // get_sql: neither String nor Integer
    | NotAMapping                                              // `.items()` or `[...]` on a non-dict
    | NotIterable                                              // iterating over a scalar
    | MissingKey(key: string)                                  // `data['id']` without that key
    | NoTable                                                  // the root generator has `table = None`
    | NoForeignKey(generator: GeneratorClass)                  // a class without `foreign_key`
    | RowLongerThanColumns                                     // get_sql: `self.columns[ix]` out of range

  datatype Outcome = Outcome(gen: Gen, error: Option<ImportError>)

  /** The state inside the loop over one entry: the node, the row being filled, and an error if one was raised. */
  datatype Step = Step(gen: Gen, row: Row, error: Option<ImportError>)

  /** The node has one child per class in `__subgenerators__`, in that order, and so on below. */
  predicate Shaped(g: Gen)
    decreases g
  {
    && |g.children| == |Subgenerators(g.cls)|
    && forall i :: 0 <= i < |g.children| ==>
         g.children[i].cls == Subgenerators(g.cls)[i] && Shaped(g.children[i])
  }

  /** A freshly constructed generator: no rows, children constructed the same way. */
  function Initial(c: GeneratorClass): (g: Gen)
    ensures g.cls == c && g.rows == [] && Shaped(g)
    decreases Height(c)
  {
    var subs := Subgenerators(c);
    Gen(c, [], seq(|subs|, i requires 0 <= i < |subs| => Initial(subs[i])))
  }

  // ---------------------------------------------------------------------------
  // Lookups

  /** `column in self.columns` and `self.columns.index(column)`: the first column with that name. */
  function ColumnIndex(cols: seq<ColName>, key: string, k: nat): (r: Option<nat>)
    ensures r.Some? ==> k <= r.value < |cols| && ColText(cols[r.value]) == key
    ensures r.Some? ==> forall m :: k <= m < r.value ==> ColText(cols[m]) != key
    ensures r.None? ==> forall m :: k <= m < |cols| ==> ColText(cols[m]) != key
    decreases |cols| - k
  {
    if k >= |cols| then None
    else if ColText(cols[k]) == key then Some(k)
    else ColumnIndex(cols, key, k + 1)
  }

  /** `column in self.subgenerators` and `self.subgenerators[column]`: the child whose `column_key` is `key`. */
  function FindChild(classes: seq<GeneratorClass>, key: string, i: nat): (r: Option<nat>)
    ensures r.Some? ==> i <= r.value < |classes| && ColumnKey(classes[r.value]) == Some(key)
    ensures r.None? ==> forall m :: i <= m < |classes| ==> ColumnKey(classes[m]) != Some(key)
    decreases |classes| - i
  {
    if i >= |classes| then None
    else if ColumnKey(classes[i]) == Some(key) then Some(i)
    else FindChild(classes, key, i + 1)
  }

  /** `[None] * len(self.columns)`. */
  function Blank(n: nat): (row: Row)
    ensures |row| == n && forall k :: 0 <= k < n ==> row[k] == Null
  {
    seq(n, k => Null)
  }

  // ---------------------------------------------------------------------------
  // The identity handed to children, and the foreign data they inherit

  /**
   * `data_values.get('slug', data_key) or None`: the `slug` entry when there
   * is one, otherwise the map key; a falsy choice becomes `None`.
   */
  function Identity(values: seq<Entry>, key: string): (id: Value)
    ensures id == Null || Truthy(id)
    ensures HasKey(values, "slug") && Truthy(Get(values, "slug").value) ==> id == Get(values, "slug").value
    ensures HasKey(values, "slug") && !Truthy(Get(values, "slug").value) ==> id == Null
    ensures !HasKey(values, "slug") ==> id == if key == "" then Null else Str(key)
  {
    var chosen := Get(values, "slug").GetOr(Str(key));
    if Truthy(chosen) then chosen else Null
  }

  /** `dict({subgenerator.foreign_key: foreign_key}, **foreign_data)`. */
  function ChildForeign(fk: ColName, id: Value, foreign: seq<Entry>): (d: seq<Entry>)
    ensures |d| >= 1 && d[0].key == ColText(fk) && DistinctKeys(d)
  {
    UpdateDistinct([Entry(ColText(fk), id)], foreign);
    Update([Entry(ColText(fk), id)], foreign)
  }

  // ---------------------------------------------------------------------------
  // transform_data

  /**
   * The elements `for x in data` visits: list items, mapping keys (each key
   * of the dict once) or one-character strings; anything else is not
   * iterable.
   */
  function Iterated(data: Value): (r: Result<seq<Value>, ImportError>)
    ensures r.Success? <==> data.List? || data.Map? || data.Str?
    ensures data.List? ==> r.value == data.items
    ensures data.Str? ==> |r.value| == |data.s| && forall i :: 0 <= i < |data.s| ==> r.value[i] == Str([data.s[i]])
    ensures data.Map? ==> forall k :: Str(k) in r.value <==> HasKey(data.entries, k)
  {
    match data
    case List(items) => Success(items)
    case Map(entries) =>
      var ks := Keys(Dict(entries));
      var xs := seq(|ks|, i requires 0 <= i < |ks| => Str(ks[i]));
      assert forall k :: Str(k) in xs <==> HasKey(entries, k) by {
        forall k ensures Str(k) in xs <==> HasKey(entries, k) {
          DictGet(entries, k);
          if k in ks {
            var i :| 0 <= i < |ks| && ks[i] == k;
            assert xs[i] == Str(k);
          }
        }
      }
      Success(xs)
    case Str(s) => Success(seq(|s|, i requires 0 <= i < |s| => Str([s[i]])))
    case _ => Failure(NotIterable)
  }

  /**
   * `{'years': {'year_slug': x for x in data}}`: a comprehension with a
   * constant key, so only the last element survives, and an empty iterable
   * leaves the inner dictionary empty.
   */
  function YearListTransform(data: Value): (r: Result<Value, ImportError>)
    ensures r.Success? <==> Iterated(data).Success?
    ensures r.Success? ==>
      && r.value.Map? && Keys(r.value.entries) == ["years"] && r.value.entries[0].value.Map?
      && var xs, inner := Iterated(data).value, r.value.entries[0].value.entries;
         && (inner == [] <==> xs == [])
         && (xs != [] ==> Get(inner, "year_slug") == Some(xs[|xs| - 1]))
  {
    var xs :- Iterated(data);
    Success(Map([Entry("years", Map(YearInner(xs)))]))
  }

  /** `make_slug = data_key` added to every entry of a mapping of mappings. */
  function MakeSlugEntries(entries: seq<Entry>, i: nat): Result<seq<Entry>, ImportError>
    decreases |entries| - i
  {
    if i >= |entries| then Success([])
    else if !entries[i].value.Map? then Failure(NotAMapping)
    else
      var rest :- MakeSlugEntries(entries, i + 1);
      var key := entries[i].key;
      Success([Entry(key, Map(Set(Dict(entries[i].value.entries), "make_slug", Str(key))))] + rest)
  }

  /**
   * `{data_key: dict(data[data_key].items(), **{'make_slug': data_key}) for data_key in data}`:
   * over a mapping, one entry per key; over an empty list or string, nothing;
   * over anything else, `data[data_key]` or `.items()` raises.
   */
  function MakeSlugTransform(data: Value): (r: Result<Value, ImportError>)
    ensures r.Success? ==> r.value.Map?
    ensures data.Map? ==>
      (r.Success? <==> forall m :: 0 <= m < |Dict(data.entries)| ==> Dict(data.entries)[m].value.Map?)
    ensures !data.Map? ==> (r.Success? <==> Iterated(data) == Success([]))
    ensures !data.Map? && r.Success? ==> r.value == Map([])
  {
    if data.Map? then
      MakeSlugEntriesSucceed(Dict(data.entries), 0);
      var entries :- MakeSlugEntries(Dict(data.entries), 0);
      Success(Map(entries))
    else
      var keys :- Iterated(data);
      if keys == [] then Success(Map([])) else Failure(NotAMapping)
  }

  /**
   * `{'legacy': {'legacy_id': data['id'], 'legacy_name': data['name']}}`:
   * raises unless the data is a mapping with `id` and `name`.
   */
  function LegacyTransform(data: Value): (r: Result<Value, ImportError>)
    ensures r.Success? <==> data.Map? && HasKey(data.entries, "id") && HasKey(data.entries, "name")
    ensures r.Success? ==>
      && r.value.Map? && Keys(r.value.entries) == ["legacy"] && r.value.entries[0].value.Map?
      && var inner := r.value.entries[0].value.entries;
         && Get(inner, "legacy_id") == Get(data.entries, "id")
         && Get(inner, "legacy_name") == Get(data.entries, "name")
  {
    if !data.Map? then Failure(NotAMapping)
    else if !HasKey(data.entries, "id") then Failure(MissingKey("id"))
    else if !HasKey(data.entries, "name") then Failure(MissingKey("name"))
    else
      Success(Map([Entry("legacy", Map([
        Entry("legacy_id", Get(data.entries, "id").value),
        Entry("legacy_name", Get(data.entries, "name").value)]))]))
  }

  /**
   * `self.transform_data(data)`: the identity for most classes; a class
   * that overrides it either raises or gives a mapping.
   */
  function TransformData(c: GeneratorClass, data: Value): (r: Result<Value, ImportError>)
    ensures TransformOf(c).Identity? ==> r == Success(data)
    ensures !TransformOf(c).Identity? && r.Success? ==> r.value.Map?
  {
    match TransformOf(c)
    case Identity => Success(data)
    case YearList => YearListTransform(data)
    case MakeSlugFromKey => MakeSlugTransform(data)
    case LegacyFields => LegacyTransform(data)
  }

  // ---------------------------------------------------------------------------
  // extract_rows and process

  /** `g.extract_rows(data, foreign)`. */
  function Extract(g: Gen, data: Value, foreign: seq<Entry>): (r: Outcome)
    requires Shaped(g)
    ensures r.gen.cls == g.cls && Shaped(r.gen)
    decreases Height(g.cls), 3, 0
  {
    if TableNameOf(g.cls).None? then Outcome(g, Some(NoTable))
    else
      match TransformData(g.cls, data)
      case Failure(e) => Outcome(g, Some(e))
      case Success(t) =>
        if !t.Map? then Outcome(g, Some(NotAMapping))
        else EntriesFrom(g, ColumnsOf(g.cls), Dict(t.entries), 0, foreign)
  }

  /**
   * The loop over `data.items()` from entry `i` on; each completed entry
   * appends its row. `entries` is the dict's items, and the items of each
   * entry are those of `dict(data_values)` followed by those of the inherited
   * dict.
   */
  function EntriesFrom(g: Gen, cols: seq<ColName>, entries: seq<Entry>, i: nat, foreign: seq<Entry>): (r: Outcome)
    requires Shaped(g)
    ensures r.gen.cls == g.cls && Shaped(r.gen)
    decreases Height(g.cls), 2, |entries| - i
  {
    if i >= |entries| then Outcome(g, None)
    else
      if !entries[i].value.Map? then Outcome(g, Some(NotAMapping))
      else
        var values := Dict(entries[i].value.entries);
        var s := ItemsFrom(g, cols, entries[i].key, values, values + Dict(foreign), 0, Blank(|cols|), foreign);
        if s.error.Some? then Outcome(s.gen, s.error)
        else EntriesFrom(s.gen.(rows := s.gen.rows + [s.row]), cols, entries, i + 1, foreign)
  }

  /**
   * The loop over the entry's own items followed by the inherited ones, from
   * item `j` on: a column fills its slot, a child key sends the value down to
   * that child, anything else is an error.
   */
  function ItemsFrom(g: Gen, cols: seq<ColName>, key: string, values: seq<Entry>, items: seq<Entry>,
                     j: nat, row: Row, foreign: seq<Entry>): (r: Step)
    requires Shaped(g) && |row| == |cols|
    ensures r.gen.cls == g.cls && r.gen.rows == g.rows && Shaped(r.gen) && |r.row| == |cols|
    decreases Height(g.cls), 1, |items| - j
  {
    if j >= |items| then Step(g, row, None)
    else
      var column, value := items[j].key, items[j].value;
      match ColumnIndex(cols, column, 0)
      case Some(ix) => ItemsFrom(g, cols, key, values, items, j + 1, row[ix := value], foreign)
      case None =>
        match FindChild(Subgenerators(g.cls), column, 0)
        case None => Step(g, row, Some(UnknownColumn(g.cls, column)))
        case Some(c) =>
          var out := SendDown(g, c, value, Identity(values, key), foreign);
          if out.error.Some? then Step(out.gen, row, out.error)
          else ItemsFrom(out.gen, cols, key, values, items, j + 1, row, foreign)
  }

  /**
   * `subgenerator.extract_rows(value, dict({subgenerator.foreign_key: id}, **foreign))`
   * on child `c`, whose new state replaces the old one.
   */
  function SendDown(g: Gen, c: nat, value: Value, id: Value, foreign: seq<Entry>): (r: Outcome)
    requires Shaped(g) && c < |g.children|
    ensures r.gen.cls == g.cls && r.gen.rows == g.rows && Shaped(r.gen)
    ensures |r.gen.children| == |g.children|
    ensures forall i :: 0 <= i < |g.children| && i != c ==> r.gen.children[i] == g.children[i]
    decreases Height(g.cls), 0, 0
  {
    var child := g.children[c];
    match ForeignKeyOf(child.cls)
    case None => Outcome(g, Some(NoForeignKey(child.cls)))
    case Some(fk) =>
      var out := Extract(child, value, ChildForeign(fk, id, foreign));
      Outcome(g.(children := g.children[c := out.gen]), out.error)
  }

  /** `g.process(data)`: each top-level key goes to the child with that `column_key`. */
  function Process(g: Gen, data: Value): (r: Outcome)
    requires Shaped(g)
    ensures r.gen.cls == g.cls && Shaped(r.gen)
  {
    if !data.Map? then Outcome(g, Some(NotAMapping)) else ProcessFrom(g, Dict(data.entries), 0)
  }

  function ProcessFrom(g: Gen, entries: seq<Entry>, i: nat): (r: Outcome)
    requires Shaped(g)
    ensures r.gen.cls == g.cls && Shaped(r.gen)
    decreases |entries| - i
  {
    if i >= |entries| then Outcome(g, None)
    else
      match FindChild(Subgenerators(g.cls), entries[i].key, 0)
      case None => Outcome(g, Some(UnknownTopLevelKey(entries[i].key)))
      case Some(c) =>
        var out := SendTop(g, c, entries[i].value);
        if out.error.Some? then out else ProcessFrom(out.gen, entries, i + 1)
  }

  /** `generator.extract_rows(_data)` on child `c`, with no inherited data, whose new state replaces the old one. */
  function SendTop(g: Gen, c: nat, value: Value): (r: Outcome)
    requires Shaped(g) && c < |g.children|
    ensures r.gen.cls == g.cls && r.gen.rows == g.rows && Shaped(r.gen)
    ensures |r.gen.children| == |g.children|
    ensures forall i :: 0 <= i < |g.children| && i != c ==> r.gen.children[i] == g.children[i]
  {
    var out := Extract(g.children[c], value, []);
    Outcome(g.(children := g.children[c := out.gen]), out.error)
  }

  // ---------------------------------------------------------------------------
  // The identity and the inherited data

  /**
   * In the data a child inherits, a key the parent inherited keeps the
   * parent's value, even when it is the child's own `foreign_key`; only when
   * the parent has no such key does the child's key get the identity. The
   * child's `foreign_key` comes first.
   */
  lemma ChildForeignLookup(fk: ColName, id: Value, foreign: seq<Entry>, k: string)
    ensures Get(ChildForeign(fk, id, foreign), k)
      == if HasKey(foreign, k) then Get(foreign, k) else if k == ColText(fk) then Some(id) else None
    ensures Keys(ChildForeign(fk, id, foreign))[0] == ColText(fk)
  {
    GetUpdate([Entry(ColText(fk), id)], foreign, k);
    assert [Entry(ColText(fk), id)][..0] == [];
  }

  // ---------------------------------------------------------------------------
  // The rows an entry produces

  /** No two columns share a name. */
  predicate DistinctTexts(cols: seq<ColName>) {
    forall a, b :: 0 <= a < b < |cols| ==> ColText(cols[a]) != ColText(cols[b])
  }

  lemma ColumnTextsDistinct(c: GeneratorClass)
    requires TableNameOf(c).Some?
    ensures DistinctTexts(ColumnsOf(c))
  {
    var cols := ColumnsOf(c);
    Registry.ColumnOrderDeclared(TableNameOf(c).value);
    Registry.ColumnsDistinct(TableNameOf(c).value);
    forall a, b | 0 <= a < b < |cols| ensures ColText(cols[a]) != ColText(cols[b]) {
      ColTextInjective(cols[a], cols[b]);
    }
  }

  /**
   * The row an entry should produce: per column, in declaration order, the
   * inherited value when the inherited data has the column, else the entry's
   * own value, else `None`.
   */
  function EntryRow(cols: seq<ColName>, values: seq<Entry>, foreign: seq<Entry>): (row: Row)
    ensures |row| == |cols|
  {
    seq(|cols|, k requires 0 <= k < |cols| => Slot(cols[k], values, foreign))
  }

  /** The value an inherited-or-own lookup gives for column `col` of a row built from `values`. */
  function Slot(col: ColName, values: seq<Entry>, foreign: seq<Entry>): Value {
    var t := ColText(col);
    if HasKey(foreign, t) then Get(foreign, t).value else Get(values, t).GetOr(Null)
  }

  /** Building the row from the entry's dict or from its pairs gives the same row. */
  lemma EntryRowDict(cols: seq<ColName>, values: seq<Entry>, foreign: seq<Entry>)
    ensures EntryRow(cols, Dict(values), foreign) == EntryRow(cols, values, foreign)
  {
    forall k | 0 <= k < |cols| ensures Slot(cols[k], Dict(values), foreign) == Slot(cols[k], values, foreign) {
      DictGet(values, ColText(cols[k]));
    }
  }

  /** A key the walk accepts: a column of the table or the `column_key` of a child. */
  predicate KnownKey(c: GeneratorClass, cols: seq<ColName>, k: string) {
    k in Texts(cols) || Some(k) in ColumnKeys(Subgenerators(c))
  }

  /** The names of the columns. */
  function Texts(cols: seq<ColName>): (ts: seq<string>)
    ensures |ts| == |cols| && forall k :: 0 <= k < |cols| ==> ts[k] == ColText(cols[k])
  {
    seq(|cols|, k requires 0 <= k < |cols| => ColText(cols[k]))
  }

  /** The rows the entries from `i` on should produce, one per entry, in order. */
  function EntryRows(cols: seq<ColName>, entries: seq<Entry>, i: nat, foreign: seq<Entry>): (rows: seq<Row>)
    requires i <= |entries|
    ensures |rows| == |entries| - i
  {
    seq(|entries| - i, m requires 0 <= m < |entries| - i =>
      var v := entries[i + m].value;
      EntryRow(cols, if v.Map? then v.entries else [], foreign))
  }

  /** Each slot ends up holding the last value written to its column, or what it held before. */
  lemma {:induction false} ItemsFill(g: Gen, cols: seq<ColName>, key: string, values: seq<Entry>, items: seq<Entry>,
                                     j: nat, row: Row, foreign: seq<Entry>, k: nat)
    requires Shaped(g) && |row| == |cols| && j <= |items| && DistinctTexts(cols) && k < |cols|
    requires ItemsFrom(g, cols, key, values, items, j, row, foreign).error.None?
    ensures ItemsFrom(g, cols, key, values, items, j, row, foreign).row[k]
      == Get(items[j..], ColText(cols[k])).GetOr(row[k])
    decreases |items| - j
  {
    if j < |items| {
      var item := items[j];
      GetFirst(items, j, ColText(cols[k]), row[k]);
      match ColumnIndex(cols, item.key, 0)
      case Some(ix) =>
        var next := row[ix := item.value];
        assert next[k] == if item.key == ColText(cols[k]) then item.value else row[k] by {
          if ix < k {
            assert ColText(cols[ix]) != ColText(cols[k]);
          } else if k < ix {
            assert ColText(cols[k]) != ColText(cols[ix]);
          }
        }
        assert ItemsFrom(g, cols, key, values, items, j, row, foreign)
          == ItemsFrom(g, cols, key, values, items, j + 1, next, foreign);
        ItemsFill(g, cols, key, values, items, j + 1, next, foreign, k);
      case None =>
        assert item.key != ColText(cols[k]);
        var c := FindChild(Subgenerators(g.cls), item.key, 0).value;
        var out := SendDown(g, c, item.value, Identity(values, key), foreign);
        assert ItemsFrom(g, cols, key, values, items, j, row, foreign)
          == ItemsFrom(out.gen, cols, key, values, items, j + 1, row, foreign);
        ItemsFill(out.gen, cols, key, values, items, j + 1, row, foreign, k);
    } else {
      assert items[j..] == [];
    }
  }

  /** Reading the items from `j` on: item `j` counts unless a later item has the same key. */
  lemma GetFirst(items: seq<Entry>, j: nat, t: string, d: Value)
    requires j < |items|
    ensures Get(items[j..], t).GetOr(d) == Get(items[j + 1..], t).GetOr(if items[j].key == t then items[j].value else d)
  {
    assert items[j..] == [items[j]] + items[j + 1..];
    GetAppend([items[j]], items[j + 1..], t);
    assert [items[j]][..0] == [];
  }

  /** Item `m`, at or after item `j`, of an entry that raises nothing has a known key. */
  lemma {:induction false} ItemsKnown(g: Gen, cols: seq<ColName>, key: string, values: seq<Entry>, items: seq<Entry>,
                                      j: nat, row: Row, foreign: seq<Entry>, m: nat)
    requires Shaped(g) && |row| == |cols| && j <= m < |items|
    requires ItemsFrom(g, cols, key, values, items, j, row, foreign).error.None?
    ensures KnownKey(g.cls, cols, items[m].key)
    decreases |items| - j
  {
    var item := items[j];
    if m == j {
      ItemKnown(g, cols, item.key);
    } else {
      match ColumnIndex(cols, item.key, 0)
      case Some(ix) =>
        var next := row[ix := item.value];
        assert ItemsFrom(g, cols, key, values, items, j, row, foreign)
          == ItemsFrom(g, cols, key, values, items, j + 1, next, foreign);
        ItemsKnown(g, cols, key, values, items, j + 1, next, foreign, m);
      case None =>
        var c := FindChild(Subgenerators(g.cls), item.key, 0).value;
        var out := SendDown(g, c, item.value, Identity(values, key), foreign);
        assert ItemsFrom(g, cols, key, values, items, j, row, foreign)
          == ItemsFrom(out.gen, cols, key, values, items, j + 1, row, foreign);
        ItemsKnown(out.gen, cols, key, values, items, j + 1, row, foreign, m);
    }
  }

  /** A key that names a column or selects a child is known. */
  lemma ItemKnown(g: Gen, cols: seq<ColName>, k: string)
    requires Shaped(g)
    ensures ColumnIndex(cols, k, 0).Some? || FindChild(Subgenerators(g.cls), k, 0).Some? ==> KnownKey(g.cls, cols, k)
  {
    match ColumnIndex(cols, k, 0)
    case Some(ix) =>
      assert Texts(cols)[ix] == k;
    case None =>
      if FindChild(Subgenerators(g.cls), k, 0).Some? {
        var c := FindChild(Subgenerators(g.cls), k, 0).value;
        assert ColumnKeys(Subgenerators(g.cls))[c] == Some(k);
      }
  }

  /** The loop over one entry's items fills exactly `EntryRow`. */
  lemma EntryRowFilled(g: Gen, cols: seq<ColName>, key: string, values: seq<Entry>, foreign: seq<Entry>)
    requires Shaped(g) && DistinctTexts(cols)
    requires ItemsFrom(g, cols, key, values, values + Dict(foreign), 0, Blank(|cols|), foreign).error.None?
    ensures ItemsFrom(g, cols, key, values, values + Dict(foreign), 0, Blank(|cols|), foreign).row
      == EntryRow(cols, values, foreign)
  {
    var items := values + Dict(foreign);
    var s := ItemsFrom(g, cols, key, values, items, 0, Blank(|cols|), foreign);
    forall k | 0 <= k < |cols| ensures s.row[k] == EntryRow(cols, values, foreign)[k] {
      ItemsFill(g, cols, key, values, items, 0, Blank(|cols|), foreign, k);
      GetAppend(values, Dict(foreign), ColText(cols[k]));
      DictGet(foreign, ColText(cols[k]));
      assert items[0..] == items;
    }
  }

  /** The item loop over an entry's dict fills the `EntryRow` of the entry's pairs. */
  lemma EntryRowOfDict(g: Gen, cols: seq<ColName>, key: string, pairs: seq<Entry>, foreign: seq<Entry>)
    requires Shaped(g) && DistinctTexts(cols)
    requires ItemsFrom(g, cols, key, Dict(pairs), Dict(pairs) + Dict(foreign), 0, Blank(|cols|), foreign).error.None?
    ensures ItemsFrom(g, cols, key, Dict(pairs), Dict(pairs) + Dict(foreign), 0, Blank(|cols|), foreign).row
      == EntryRow(cols, pairs, foreign)
  {
    EntryRowFilled(g, cols, key, Dict(pairs), foreign);
    EntryRowDict(cols, pairs, foreign);
  }

  /**
   * The loop over entries from `i` on, when it raises nothing, met only
   * mappings and appended one `EntryRow` per entry, in order, after the rows
   * already there.
   */
  lemma {:induction false} EntriesRows(g: Gen, cols: seq<ColName>, entries: seq<Entry>, i: nat, foreign: seq<Entry>)
    requires Shaped(g) && DistinctTexts(cols) && i <= |entries|
    requires EntriesFrom(g, cols, entries, i, foreign).error.None?
    ensures forall m :: i <= m < |entries| ==> entries[m].value.Map?
    ensures EntriesFrom(g, cols, entries, i, foreign).gen.rows == g.rows + EntryRows(cols, entries, i, foreign)
    decreases |entries| - i
  {
    if i < |entries| {
      var g2 := EntryStep(g, cols, entries, i, foreign);
      EntriesRows(g2, cols, entries, i + 1, foreign);
      EntryRowsCons(cols, entries, i, foreign);
    }
  }

  /** One pass of the entry loop that raises nothing appends the entry's `EntryRow` and goes on from the next entry. */
  lemma EntryStep(g: Gen, cols: seq<ColName>, entries: seq<Entry>, i: nat, foreign: seq<Entry>) returns (g2: Gen)
    requires Shaped(g) && DistinctTexts(cols) && i < |entries|
    requires EntriesFrom(g, cols, entries, i, foreign).error.None?
    ensures entries[i].value.Map? && Shaped(g2) && g2.cls == g.cls
    ensures g2.rows == g.rows + [EntryRow(cols, entries[i].value.entries, foreign)]
    ensures EntriesFrom(g, cols, entries, i, foreign) == EntriesFrom(g2, cols, entries, i + 1, foreign)
  {
    var values := Dict(entries[i].value.entries);
    var s := ItemsFrom(g, cols, entries[i].key, values, values + Dict(foreign), 0, Blank(|cols|), foreign);
    EntryRowOfDict(g, cols, entries[i].key, entries[i].value.entries, foreign);
    g2 := s.gen.(rows := s.gen.rows + [s.row]);
  }

  lemma EntryRowsCons(cols: seq<ColName>, entries: seq<Entry>, i: nat, foreign: seq<Entry>)
    requires i < |entries| && entries[i].value.Map?
    ensures EntryRows(cols, entries, i, foreign)
      == [EntryRow(cols, entries[i].value.entries, foreign)] + EntryRows(cols, entries, i + 1, foreign)
  {
  }

  /** In a loop over entries that raises nothing, item `n` of entry `m` (own items, then inherited ones) is known. */
  lemma {:induction false} EntriesKnown(g: Gen, cols: seq<ColName>, entries: seq<Entry>, i: nat, foreign: seq<Entry>,
                                        m: nat, n: nat)
    requires Shaped(g) && i <= m < |entries| && entries[m].value.Map?
    requires n < |Dict(entries[m].value.entries) + Dict(foreign)|
    requires EntriesFrom(g, cols, entries, i, foreign).error.None?
    ensures KnownKey(g.cls, cols, (Dict(entries[m].value.entries) + Dict(foreign))[n].key)
    decreases |entries| - i
  {
    var values := Dict(entries[i].value.entries);
    var s := ItemsFrom(g, cols, entries[i].key, values, values + Dict(foreign), 0, Blank(|cols|), foreign);
    if m == i {
      ItemsKnown(g, cols, entries[i].key, values, values + Dict(foreign), 0, Blank(|cols|), foreign, n);
    } else {
      EntriesKnown(s.gen.(rows := s.gen.rows + [s.row]), cols, entries, i + 1, foreign, m, n);
    }
  }

  /**
   * `extract_rows` that raises nothing: the data transformed to a mapping of
   * mappings, the old rows kept, and one row per entry appended in order,
   * each the `EntryRow` of that entry.
   */
  lemma ExtractRows(g: Gen, data: Value, foreign: seq<Entry>)
    requires Shaped(g)
    requires Extract(g, data, foreign).error.None?
    ensures TableNameOf(g.cls).Some? && TransformData(g.cls, data).Success?
    ensures TransformData(g.cls, data).value.Map?
    ensures var entries := Dict(TransformData(g.cls, data).value.entries);
      && (forall m :: 0 <= m < |entries| ==> entries[m].value.Map?)
      && Extract(g, data, foreign).gen.rows == g.rows + EntryRows(ColumnsOf(g.cls), entries, 0, foreign)
  {
    var cols, t := ColumnsOf(g.cls), TransformData(g.cls, data);
    assert t.Success? && t.value.Map?;
    var entries := Dict(t.value.entries);
    assert Extract(g, data, foreign) == EntriesFrom(g, cols, entries, 0, foreign);
    ColumnTextsDistinct(g.cls);
    EntriesRows(g, cols, entries, 0, foreign);
  }

  /**
   * `extract_rows` that raises nothing met no key that is neither a column of
   * the table nor the `column_key` of a child, among the entries' own items
   * and the inherited ones.
   */
  lemma ExtractKnownKeys(g: Gen, data: Value, foreign: seq<Entry>)
    requires Shaped(g)
    requires Extract(g, data, foreign).error.None?
    ensures TableNameOf(g.cls).Some? && TransformData(g.cls, data).Success?
    ensures TransformData(g.cls, data).value.Map?
    ensures var entries := Dict(TransformData(g.cls, data).value.entries);
      forall m, k :: 0 <= m < |entries| && entries[m].value.Map? && (HasKey(entries[m].value.entries, k) || HasKey(foreign, k)) ==>
        KnownKey(g.cls, ColumnsOf(g.cls), k)
  {
    var entries := Dict(TransformData(g.cls, data).value.entries);
    assert EntriesFrom(g, ColumnsOf(g.cls), entries, 0, foreign).error.None?;
    forall m, k | 0 <= m < |entries| && entries[m].value.Map? && (HasKey(entries[m].value.entries, k) || HasKey(foreign, k))
      ensures KnownKey(g.cls, ColumnsOf(g.cls), k)
    {
      EntryKeyKnown(g, ColumnsOf(g.cls), entries, foreign, m, k);
    }
  }

  /** A key of entry `m`'s own pairs or of the inherited ones is known once the walk raised nothing. */
  lemma EntryKeyKnown(g: Gen, cols: seq<ColName>, entries: seq<Entry>, foreign: seq<Entry>, m: nat, k: string)
    requires Shaped(g) && m < |entries| && entries[m].value.Map?
    requires HasKey(entries[m].value.entries, k) || HasKey(foreign, k)
    requires EntriesFrom(g, cols, entries, 0, foreign).error.None?
    ensures KnownKey(g.cls, cols, k)
  {
    DictGet(entries[m].value.entries, k);
    DictGet(foreign, k);
    var n := KeyIndex(Dict(entries[m].value.entries), Dict(foreign), k);
    EntriesKnown(g, cols, entries, 0, foreign, m, n);
  }

  // ---------------------------------------------------------------------------
  // Rows are never lost

  /**
   * Every node of `b` has the class of the same node of `a`, and the rows of
   * that node followed by zero or more new ones.
   */
  predicate Grows(a: Gen, b: Gen)
    decreases a
  {
    && a.cls == b.cls && |a.rows| <= |b.rows| && b.rows[..|a.rows|] == a.rows
    && |a.children| == |b.children|
    && forall i :: 0 <= i < |a.children| ==> Grows(a.children[i], b.children[i])
  }

  lemma {:induction false} GrowsRefl(a: Gen)
    ensures Grows(a, a)
    decreases a
  {
    forall i | 0 <= i < |a.children| ensures Grows(a.children[i], a.children[i]) {
      GrowsRefl(a.children[i]);
    }
  }

  lemma {:induction false} GrowsTrans(a: Gen, b: Gen, c: Gen)
    requires Grows(a, b) && Grows(b, c)
    ensures Grows(a, c)
    decreases a
  {
    forall i | 0 <= i < |a.children| ensures Grows(a.children[i], c.children[i]) {
      GrowsTrans(a.children[i], b.children[i], c.children[i]);
    }
    assert c.rows[..|a.rows|] == c.rows[..|b.rows|][..|a.rows|];
  }

  /** Appending a row to a node. */
  lemma GrowsAppend(a: Gen, row: Row)
    ensures Grows(a, a.(rows := a.rows + [row]))
  {
    forall i | 0 <= i < |a.children| ensures Grows(a.children[i], a.children[i]) {
      GrowsRefl(a.children[i]);
    }
  }

  /** Replacing one child by a state it grew into. */
  lemma GrowsChild(a: Gen, c: nat, h: Gen)
    requires c < |a.children| && Grows(a.children[c], h)
    ensures Grows(a, a.(children := a.children[c := h]))
  {
    forall i | 0 <= i < |a.children| && i != c ensures Grows(a.children[i], a.children[i]) {
      GrowsRefl(a.children[i]);
    }
  }

  /** `extract_rows`, whether it raises or not, only appends rows, anywhere in the tree. */
  lemma {:induction false} ExtractGrows(g: Gen, data: Value, foreign: seq<Entry>)
    requires Shaped(g)
    ensures Grows(g, Extract(g, data, foreign).gen)
    decreases Height(g.cls), 3, 0
  {
    if TableNameOf(g.cls).None? || TransformData(g.cls, data).Failure? || !TransformData(g.cls, data).value.Map? {
      GrowsRefl(g);
    } else {
      EntriesGrows(g, ColumnsOf(g.cls), Dict(TransformData(g.cls, data).value.entries), 0, foreign);
    }
  }

  lemma {:induction false} EntriesGrows(g: Gen, cols: seq<ColName>, entries: seq<Entry>, i: nat, foreign: seq<Entry>)
    requires Shaped(g)
    ensures Grows(g, EntriesFrom(g, cols, entries, i, foreign).gen)
    decreases Height(g.cls), 2, |entries| - i
  {
    if i >= |entries| || !entries[i].value.Map? {
      GrowsRefl(g);
    } else {
      var values := Dict(entries[i].value.entries);
      var s := ItemsFrom(g, cols, entries[i].key, values, values + Dict(foreign), 0, Blank(|cols|), foreign);
      ItemsGrows(g, cols, entries[i].key, values, values + Dict(foreign), 0, Blank(|cols|), foreign);
      if s.error.None? {
        var g2 := s.gen.(rows := s.gen.rows + [s.row]);
        GrowsAppend(s.gen, s.row);
        EntriesGrows(g2, cols, entries, i + 1, foreign);
        GrowsTrans(g, s.gen, g2);
        GrowsTrans(g, g2, EntriesFrom(g2, cols, entries, i + 1, foreign).gen);
      }
    }
  }

  lemma {:induction false} ItemsGrows(g: Gen, cols: seq<ColName>, key: string, values: seq<Entry>, items: seq<Entry>,
                                      j: nat, row: Row, foreign: seq<Entry>)
    requires Shaped(g) && |row| == |cols|
    ensures Grows(g, ItemsFrom(g, cols, key, values, items, j, row, foreign).gen)
    decreases Height(g.cls), 1, |items| - j
  {
    if j >= |items| {
      GrowsRefl(g);
    } else {
      var item := items[j];
      match ColumnIndex(cols, item.key, 0)
      case Some(ix) =>
        ItemsGrows(g, cols, key, values, items, j + 1, row[ix := item.value], foreign);
      case None =>
        match FindChild(Subgenerators(g.cls), item.key, 0)
        case None => GrowsRefl(g);
        case Some(c) =>
          var out := SendDown(g, c, item.value, Identity(values, key), foreign);
          SendDownGrows(g, c, item.value, Identity(values, key), foreign);
          if out.error.None? {
            ItemsGrows(out.gen, cols, key, values, items, j + 1, row, foreign);
            GrowsTrans(g, out.gen, ItemsFrom(out.gen, cols, key, values, items, j + 1, row, foreign).gen);
          }
    }
  }

  lemma {:induction false} SendDownGrows(g: Gen, c: nat, value: Value, id: Value, foreign: seq<Entry>)
    requires Shaped(g) && c < |g.children|
    ensures Grows(g, SendDown(g, c, value, id, foreign).gen)
    decreases Height(g.cls), 0, 0
  {
    var child := g.children[c];
    match ForeignKeyOf(child.cls)
    case None => GrowsRefl(g);
    case Some(fk) =>
      ExtractGrows(child, value, ChildForeign(fk, id, foreign));
      GrowsChild(g, c, Extract(child, value, ChildForeign(fk, id, foreign)).gen);
  }

  /** `process`, whether it raises or not, only appends rows. */
  lemma {:induction false} ProcessGrows(g: Gen, entries: seq<Entry>, i: nat)
    requires Shaped(g)
    ensures Grows(g, ProcessFrom(g, entries, i).gen)
    decreases |entries| - i
  {
    if i >= |entries| || FindChild(Subgenerators(g.cls), entries[i].key, 0).None? {
      GrowsRefl(g);
    } else {
      var c := FindChild(Subgenerators(g.cls), entries[i].key, 0).value;
      var out := SendTop(g, c, entries[i].value);
      SendTopGrows(g, c, entries[i].value);
      if out.error.None? {
        ProcessGrows(out.gen, entries, i + 1);
        GrowsTrans(g, out.gen, ProcessFrom(out.gen, entries, i + 1).gen);
      }
    }
  }

  lemma SendTopGrows(g: Gen, c: nat, value: Value)
    requires Shaped(g) && c < |g.children|
    ensures Grows(g, SendTop(g, c, value).gen)
  {
    ExtractGrows(g.children[c], value, []);
    GrowsChild(g, c, Extract(g.children[c], value, []).gen);
  }

  // ---------------------------------------------------------------------------
  // Every row has one slot per column

  /** Only nodes with a table hold rows, and each row has one slot per column of the table. */
  predicate Fits(g: Gen)
    decreases g
  {
    && (forall r :: r in g.rows ==> TableNameOf(g.cls).Some? && |r| == |ColumnsOf(g.cls)|)
    && forall i :: 0 <= i < |g.children| ==> Fits(g.children[i])
  }

  lemma {:induction false} InitialFits(c: GeneratorClass)
    ensures Fits(Initial(c))
    decreases Height(c)
  {
    var g := Initial(c);
    forall i | 0 <= i < |g.children| ensures Fits(g.children[i]) {
      InitialFits(Subgenerators(c)[i]);
    }
  }

  lemma FitsAppend(a: Gen, row: Row)
    requires Fits(a) && TableNameOf(a.cls).Some? && |row| == |ColumnsOf(a.cls)|
    ensures Fits(a.(rows := a.rows + [row]))
  {
    assert forall r :: r in a.rows + [row] ==> r in a.rows || r == row;
  }

  lemma FitsChild(a: Gen, c: nat, h: Gen)
    requires Fits(a) && c < |a.children| && Fits(h)
    ensures Fits(a.(children := a.children[c := h]))
  {
  }

  lemma {:induction false} ExtractFits(g: Gen, data: Value, foreign: seq<Entry>)
    requires Shaped(g) && Fits(g)
    ensures Fits(Extract(g, data, foreign).gen)
    decreases Height(g.cls), 3, 0
  {
    if TableNameOf(g.cls).Some? && TransformData(g.cls, data).Success? && TransformData(g.cls, data).value.Map? {
      EntriesFits(g, ColumnsOf(g.cls), Dict(TransformData(g.cls, data).value.entries), 0, foreign);
    }
  }

  lemma {:induction false} EntriesFits(g: Gen, cols: seq<ColName>, entries: seq<Entry>, i: nat, foreign: seq<Entry>)
    requires Shaped(g) && Fits(g) && TableNameOf(g.cls).Some? && cols == ColumnsOf(g.cls)
    ensures Fits(EntriesFrom(g, cols, entries, i, foreign).gen)
    decreases Height(g.cls), 2, |entries| - i
  {
    if i < |entries| && entries[i].value.Map? {
      var values := Dict(entries[i].value.entries);
      var s := ItemsFrom(g, cols, entries[i].key, values, values + Dict(foreign), 0, Blank(|cols|), foreign);
      ItemsFits(g, cols, entries[i].key, values, values + Dict(foreign), 0, Blank(|cols|), foreign);
      if s.error.None? {
        FitsAppend(s.gen, s.row);
        EntriesFits(s.gen.(rows := s.gen.rows + [s.row]), cols, entries, i + 1, foreign);
      }
    }
  }

  lemma {:induction false} ItemsFits(g: Gen, cols: seq<ColName>, key: string, values: seq<Entry>, items: seq<Entry>,
                                     j: nat, row: Row, foreign: seq<Entry>)
    requires Shaped(g) && Fits(g) && |row| == |cols|
    ensures Fits(ItemsFrom(g, cols, key, values, items, j, row, foreign).gen)
    decreases Height(g.cls), 1, |items| - j
  {
    if j < |items| {
      var item := items[j];
      match ColumnIndex(cols, item.key, 0)
      case Some(ix) =>
        ItemsFits(g, cols, key, values, items, j + 1, row[ix := item.value], foreign);
      case None =>
        match FindChild(Subgenerators(g.cls), item.key, 0)
        case None =>
        case Some(c) =>
          var out := SendDown(g, c, item.value, Identity(values, key), foreign);
          SendDownFits(g, c, item.value, Identity(values, key), foreign);
          if out.error.None? {
            ItemsFits(out.gen, cols, key, values, items, j + 1, row, foreign);
          }
    }
  }

  lemma {:induction false} SendDownFits(g: Gen, c: nat, value: Value, id: Value, foreign: seq<Entry>)
    requires Shaped(g) && Fits(g) && c < |g.children|
    ensures Fits(SendDown(g, c, value, id, foreign).gen)
    decreases Height(g.cls), 0, 0
  {
    var child := g.children[c];
    match ForeignKeyOf(child.cls)
    case None =>
    case Some(fk) =>
      ExtractFits(child, value, ChildForeign(fk, id, foreign));
      FitsChild(g, c, Extract(child, value, ChildForeign(fk, id, foreign)).gen);
  }

  lemma {:induction false} ProcessFits(g: Gen, entries: seq<Entry>, i: nat)
    requires Shaped(g) && Fits(g)
    ensures Fits(ProcessFrom(g, entries, i).gen)
    decreases |entries| - i
  {
    if i < |entries| && FindChild(Subgenerators(g.cls), entries[i].key, 0).Some? {
      var c := FindChild(Subgenerators(g.cls), entries[i].key, 0).value;
      var out := SendTop(g, c, entries[i].value);
      SendTopFits(g, c, entries[i].value);
      if out.error.None? {
        ProcessFits(out.gen, entries, i + 1);
      }
    }
  }

  lemma SendTopFits(g: Gen, c: nat, value: Value)
    requires Shaped(g) && Fits(g) && c < |g.children|
    ensures Fits(SendTop(g, c, value).gen)
  {
    ExtractFits(g.children[c], value, []);
    FitsChild(g, c, Extract(g.children[c], value, []).gen);
  }

  // ---------------------------------------------------------------------------
  // process

  /** `process` that raises nothing met only top-level keys that select a child. */
  lemma {:induction false} ProcessKnown(g: Gen, entries: seq<Entry>, i: nat, m: nat)
    requires Shaped(g) && i <= m < |entries|
    requires ProcessFrom(g, entries, i).error.None?
    ensures Some(entries[m].key) in ColumnKeys(Subgenerators(g.cls))
    decreases |entries| - i
  {
    var c := FindChild(Subgenerators(g.cls), entries[i].key, 0).value;
    if m == i {
      assert ColumnKeys(Subgenerators(g.cls))[c] == Some(entries[i].key);
    } else {
      ProcessKnown(SendTop(g, c, entries[i].value).gen, entries, i + 1, m);
    }
  }

  /** The keys the root accepts at the top of the document. */
  predicate TopLevelKey(k: string) {
    k in ["years", "countries", "makes", "buyers"]
  }

  /**
   * On the root generator, `process` that raises nothing was given a mapping
   * whose every key is one of the four top-level keys.
   */
  lemma ProcessTopLevelKeys(g: Gen, data: Value)
    requires Shaped(g) && g.cls == BaseSQLGenerator
    requires Process(g, data).error.None?
    ensures data.Map? && forall m :: 0 <= m < |data.entries| ==> TopLevelKey(data.entries[m].key)
  {
    RootKeys();
    var entries := Dict(data.entries);
    forall m | 0 <= m < |data.entries| ensures TopLevelKey(data.entries[m].key) {
      var k := data.entries[m].key;
      assert Keys(data.entries)[m] == k;
      DictGet(data.entries, k);
      var j :| 0 <= j < |entries| && Keys(entries)[j] == k;
      ProcessKnown(g, entries, 0, j);
    }
  }

  /**
   * On the root generator, a key that is not one of the four, met before any
   * error, raises the unknown-key error naming that key.
   */
  lemma ProcessRejectsUnknownKey(g: Gen, entries: seq<Entry>, i: nat)
    requires Shaped(g) && g.cls == BaseSQLGenerator
    requires i < |entries| && !TopLevelKey(entries[i].key)
    ensures ProcessFrom(g, entries, i).error == Some(UnknownTopLevelKey(entries[i].key))
  {
    RootKeys();
    assert forall c :: 0 <= c < |g.children| ==> ColumnKey(g.children[c].cls) == ColumnKeys(Subgenerators(g.cls))[c];
  }

  // ---------------------------------------------------------------------------
  // What the overridden transform_data methods lead to

  /** Looking a column up in a one-entry mapping keyed by column `c`. */
  lemma SingleLookup(c: ColName, v: Value, col: ColName)
    ensures Get([Entry(ColText(c), v)], ColText(col)).GetOr(Null) == if col == c then v else Null
  {
    if col != c {
      ColTextInjective(col, c);
    }
    assert [Entry(ColText(c), v)][..0] == [];
  }

  /** Looking a column up in a two-entry mapping keyed by columns `c1` and `c2`. */
  lemma PairLookup(c1: ColName, v1: Value, c2: ColName, v2: Value, col: ColName)
    requires c1 != c2
    ensures Get([Entry(ColText(c1), v1), Entry(ColText(c2), v2)], ColText(col)).GetOr(Null)
      == if col == c1 then v1 else if col == c2 then v2 else Null
  {
    var d := [Entry(ColText(c1), v1), Entry(ColText(c2), v2)];
    assert d[..1] == [Entry(ColText(c1), v1)];
    SingleLookup(c1, v1, col);
    if col != c2 {
      ColTextInjective(col, c2);
    }
  }

  /** The mapping the year-list transform puts under `years`: at most the last element, as `year_slug`. */
  function YearInner(items: seq<Value>): (inner: seq<Entry>)
    ensures |inner| <= 1
  {
    if items == [] then [] else [Entry("year_slug", items[|items| - 1])]
  }

  /**
   * A year subgenerator given a list appends exactly one row, however long
   * the list, built from `YearInner`.
   */
  lemma YearListExtractRows(g: Gen, items: seq<Value>, foreign: seq<Entry>)
    requires Shaped(g) && IsYearSubgenerator(g.cls)
    requires Extract(g, List(items), foreign).error.None?
    ensures Extract(g, List(items), foreign).gen.rows == g.rows + [EntryRow(ColumnsOf(g.cls), YearInner(items), foreign)]
  {
    ExtractRows(g, List(items), foreign);
    assert TransformData(g.cls, List(items)) == YearListTransform(List(items));
    DictOfDict(YearListTransform(List(items)).value.entries);
    YearListEntryRows(ColumnsOf(g.cls), items, foreign);
  }

  /** A year list becomes one entry, and so one row. */
  lemma YearListEntryRows(cols: seq<ColName>, items: seq<Value>, foreign: seq<Entry>)
    ensures YearListTransform(List(items)).Success?
    ensures EntryRows(cols, YearListTransform(List(items)).value.entries, 0, foreign)
      == [EntryRow(cols, YearInner(items), foreign)]
  {
    var entries := [Entry("years", Map(YearInner(items)))];
    assert YearListTransform(List(items)).value.entries == entries;
  }

  /**
   * The one row of a year list: the `year_slug` slot holds the LAST element
   * (`None` for an empty list) unless the inherited data has a `year_slug`;
   * every other slot holds the inherited value or `None`.
   */
  lemma YearRow(cols: seq<ColName>, items: seq<Value>, foreign: seq<Entry>)
    ensures var row := EntryRow(cols, YearInner(items), foreign);
            var last := if items == [] then Null else items[|items| - 1];
      forall k :: 0 <= k < |cols| ==>
        row[k] == if HasKey(foreign, ColText(cols[k])) then Get(foreign, ColText(cols[k])).value
                  else if cols[k] == YearSlug then last else Null
  {
    var last := if items == [] then Null else items[|items| - 1];
    forall k | 0 <= k < |cols| && !HasKey(foreign, ColText(cols[k]))
      ensures Get(YearInner(items), ColText(cols[k])).GetOr(Null) == if cols[k] == YearSlug then last else Null
    {
      if items != [] {
        SingleLookup(YearSlug, last, cols[k]);
      }
    }
  }

  /** `make_slug = data_key` fails exactly when some value from entry `i` on is not a mapping. */
  lemma {:induction false} MakeSlugEntriesSucceed(entries: seq<Entry>, i: nat)
    requires i <= |entries|
    ensures MakeSlugEntries(entries, i).Success? <==> forall m :: i <= m < |entries| ==> entries[m].value.Map?
    ensures MakeSlugEntries(entries, i).Success? ==> |MakeSlugEntries(entries, i).value| == |entries| - i
    decreases |entries| - i
  {
    if i < |entries| {
      MakeSlugEntriesSucceed(entries, i + 1);
    }
  }

  /**
   * When `make_slug = data_key` succeeds, entry `m` keeps its key and its
   * position, and its value reads `make_slug` as that key and every other key
   * as before.
   */
  lemma {:induction false} MakeSlugEntriesAt(entries: seq<Entry>, i: nat, m: nat)
    requires i <= m < |entries| && MakeSlugEntries(entries, i).Success?
    ensures |MakeSlugEntries(entries, i).value| == |entries| - i
    ensures var e := MakeSlugEntries(entries, i).value[m - i];
      && e.key == entries[m].key && e.value.Map? && entries[m].value.Map?
      && Get(e.value.entries, "make_slug") == Some(Str(entries[m].key))
      && forall k :: k != "make_slug" ==> Get(e.value.entries, k) == Get(entries[m].value.entries, k)
    decreases |entries| - i
  {
    MakeSlugEntriesSucceed(entries, i);
    if m > i {
      MakeSlugEntriesAt(entries, i + 1, m);
    } else {
      var d := Dict(entries[i].value.entries);
      GetSet(d, "make_slug", Str(entries[i].key), "make_slug");
      forall k | k != "make_slug" ensures Get(Set(d, "make_slug", Str(entries[i].key)), k) == Get(entries[i].value.entries, k) {
        GetSet(d, "make_slug", Str(entries[i].key), k);
        DictGet(entries[i].value.entries, k);
      }
    }
  }

  /**
   * `BuyerMakeSQLGenerator.extract_rows` that raises nothing appends the rows
   * of the mapping given `make_slug = data_key`, one per make (each key of
   * the dict once), in order.
   */
  lemma MakeSlugExtractRows(g: Gen, entries: seq<Entry>, foreign: seq<Entry>)
    requires Shaped(g) && g.cls == BuyerMakeSQLGenerator
    requires Extract(g, Map(entries), foreign).error.None?
    ensures MakeSlugEntries(Dict(entries), 0).Success?
    ensures Extract(g, Map(entries), foreign).gen.rows
      == g.rows + EntryRows(ColumnsOf(g.cls), MakeSlugEntries(Dict(entries), 0).value, 0, foreign)
  {
    ExtractRows(g, Map(entries), foreign);
    assert TransformData(g.cls, Map(entries)) == MakeSlugTransform(Map(entries));
    MakeSlugDistinct(entries);
  }

  /** `make_slug = data_key` keeps the keys of the dict, so its result is a dict already. */
  lemma MakeSlugDistinct(entries: seq<Entry>)
    requires MakeSlugEntries(Dict(entries), 0).Success?
    ensures Dict(MakeSlugEntries(Dict(entries), 0).value) == MakeSlugEntries(Dict(entries), 0).value
  {
    var d := Dict(entries);
    var t := MakeSlugEntries(d, 0).value;
    MakeSlugKeys(d, 0);
    assert forall m :: 0 <= m < |t| ==> t[m].key == d[m].key;
    DictOfDict(t);
  }

  /** `make_slug = data_key` from entry `i` on keeps the keys of those entries, in order. */
  lemma {:induction false} MakeSlugKeys(entries: seq<Entry>, i: nat)
    requires i <= |entries| && MakeSlugEntries(entries, i).Success?
    ensures var t := MakeSlugEntries(entries, i).value;
      |t| == |entries| - i && forall m :: 0 <= m < |t| ==> t[m].key == entries[i + m].key
    decreases |entries| - i
  {
    if i < |entries| {
      MakeSlugKeys(entries, i + 1);
    }
  }

  /**
   * `BuyerMakeSQLGenerator` given an empty list or an empty string iterates
   * nothing: it raises nothing and appends no row.
   */
  lemma MakeSlugEmptyData(g: Gen, data: Value, foreign: seq<Entry>)
    requires Shaped(g) && g.cls == BuyerMakeSQLGenerator
    requires data == List([]) || data == Str("")
    ensures Extract(g, data, foreign) == Outcome(g, None)
  {
    assert Iterated(data).Success? && |Iterated(data).value| == 0;
    assert TransformData(g.cls, data) == Success(Map([]));
    assert Dict([]) == [];
  }

  /**
   * In the rows of a mapping given `make_slug = data_key`, one per make, the
   * `make_slug` slot holds the make's key unless the inherited data has a
   * `make_slug`.
   */
  lemma MakeSlugRows(cols: seq<ColName>, entries: seq<Entry>, foreign: seq<Entry>)
    requires MakeSlugEntries(entries, 0).Success?
    ensures var rows := EntryRows(cols, MakeSlugEntries(entries, 0).value, 0, foreign);
      && |rows| == |entries|
      && forall m, k :: 0 <= m < |entries| && 0 <= k < |cols| && cols[k] == MakeSlug && !HasKey(foreign, "make_slug") ==>
           |rows[m]| == |cols| && rows[m][k] == Str(entries[m].key)
  {
    MakeSlugEntriesSucceed(entries, 0);
    forall m, k | 0 <= m < |entries| && 0 <= k < |cols| && cols[k] == MakeSlug && !HasKey(foreign, "make_slug")
      ensures EntryRows(cols, MakeSlugEntries(entries, 0).value, 0, foreign)[m][k] == Str(entries[m].key)
    {
      MakeSlugRow(cols, entries, foreign, m, k);
    }
  }

  lemma MakeSlugRow(cols: seq<ColName>, entries: seq<Entry>, foreign: seq<Entry>, m: nat, k: nat)
    requires MakeSlugEntries(entries, 0).Success? && m < |entries|
    requires k < |cols| && cols[k] == MakeSlug && !HasKey(foreign, "make_slug")
    ensures |EntryRows(cols, MakeSlugEntries(entries, 0).value, 0, foreign)| == |entries|
    ensures EntryRows(cols, MakeSlugEntries(entries, 0).value, 0, foreign)[m][k] == Str(entries[m].key)
  {
    var t := MakeSlugEntries(entries, 0).value;
    MakeSlugEntriesAt(entries, 0, m);
  }

  /**
   * `LegacyBuyerTierSQLGenerator` fails on data that is not a mapping, then
   * on a missing `id`, then on a missing `name`.
   */
  lemma LegacyErrors(g: Gen, data: Value, foreign: seq<Entry>)
    requires Shaped(g) && g.cls == LegacyBuyerTierSQLGenerator
    ensures !data.Map? ==> Extract(g, data, foreign).error == Some(NotAMapping)
    ensures data.Map? && !HasKey(data.entries, "id") ==> Extract(g, data, foreign).error == Some(MissingKey("id"))
    ensures data.Map? && HasKey(data.entries, "id") && !HasKey(data.entries, "name") ==>
      Extract(g, data, foreign).error == Some(MissingKey("name"))
  {
  }

  /** The mapping the legacy transform puts under `legacy`. */
  function LegacyInner(d: seq<Entry>): seq<Entry> {
    [Entry("legacy_id", Get(d, "id").GetOr(Null)), Entry("legacy_name", Get(d, "name").GetOr(Null))]
  }

  /** `LegacyBuyerTierSQLGenerator` that raises nothing appends exactly one row, built from `LegacyInner`. */
  lemma LegacyExtractRows(g: Gen, data: Value, foreign: seq<Entry>)
    requires Shaped(g) && g.cls == LegacyBuyerTierSQLGenerator
    requires Extract(g, data, foreign).error.None?
    ensures data.Map? && HasKey(data.entries, "id") && HasKey(data.entries, "name")
    ensures Extract(g, data, foreign).gen.rows == g.rows + [EntryRow(ColumnsOf(g.cls), LegacyInner(data.entries), foreign)]
  {
    ExtractRows(g, data, foreign);
    assert TransformData(g.cls, data) == LegacyTransform(data);
    DictOfDict(LegacyTransform(data).value.entries);
    LegacyEntryRows(ColumnsOf(g.cls), data, foreign);
  }

  /** The legacy transform succeeds only on a mapping with `id` and `name`, and yields one row. */
  lemma LegacyEntryRows(cols: seq<ColName>, data: Value, foreign: seq<Entry>)
    requires LegacyTransform(data).Success? && LegacyTransform(data).value.Map?
    ensures data.Map? && HasKey(data.entries, "id") && HasKey(data.entries, "name")
    ensures EntryRows(cols, LegacyTransform(data).value.entries, 0, foreign)
      == [EntryRow(cols, LegacyInner(data.entries), foreign)]
  {
    var entries := [Entry("legacy", Map(LegacyInner(data.entries)))];
    assert LegacyTransform(data).value.entries == entries;
  }

  /**
   * The one legacy row: `legacy_id` and `legacy_name` hold the data's `id`
   * and `name` unless inherited, and every other slot the inherited value or
   * `None`.
   */
  lemma LegacyRow(cols: seq<ColName>, d: seq<Entry>, foreign: seq<Entry>)
    requires HasKey(d, "id") && HasKey(d, "name")
    ensures var row := EntryRow(cols, LegacyInner(d), foreign);
      forall k :: 0 <= k < |cols| ==>
        row[k] == if HasKey(foreign, ColText(cols[k])) then Get(foreign, ColText(cols[k])).value
                  else if cols[k] == LegacyId then Get(d, "id").value
                  else if cols[k] == LegacyName then Get(d, "name").value
                  else Null
  {
    assert LegacyInner(d) == [Entry(ColText(LegacyId), Get(d, "id").value), Entry(ColText(LegacyName), Get(d, "name").value)];
    forall k | 0 <= k < |cols| && !HasKey(foreign, ColText(cols[k]))
      ensures Get(LegacyInner(d), ColText(cols[k])).GetOr(Null)
        == if cols[k] == LegacyId then Get(d, "id").value
           else if cols[k] == LegacyName then Get(d, "name").value else Null
    {
      PairLookup(LegacyId, Get(d, "id").value, LegacyName, Get(d, "name").value, cols[k]);
    }
  }
}
