/**
 * The generator objects of `import_data.py`: each holds its class, its
 * child generators (built once, in `__subgenerators__` order) and the rows it
 * has accumulated. `extract_rows`, `process`, `get_sql` and `get_all_sql`
 * are methods that update or read that state; each is proved to do what the
 * corresponding function of `Extraction` or `Emission` says.
 */
module Importer {
  import opened Wrappers
  import opened PyText
  import opened Schema
  import opened Document
  import opened Generators
  import opened Extraction
  import opened Emission

  class SQLGenerator {
    /** The Python class of this generator object. */
    const cls: GeneratorClass
    /** `self.subgenerators.values()`, in `__subgenerators__` order. */
    const children: seq<SQLGenerator>
    /** `self.rows`. */
    var rows: seq<Row>
    /** This object and every generator below it. */
    ghost const Repr: set<object>

    /** One child per class in `__subgenerators__`, each owning a separate part of the tree. */
    ghost predicate Wired()
      decreases Height(cls)
    {
      && this in Repr
      && |children| == |Subgenerators(cls)|
      && (forall i :: 0 <= i < |children| ==>
            && children[i].cls == Subgenerators(cls)[i]
            && Height(children[i].cls) < Height(cls)
            && children[i].Repr <= Repr
            && this !in children[i].Repr
            && children[i].Wired())
      && forall i, j :: 0 <= i < j < |children| ==> children[i].Repr !! children[j].Repr
    }

    /** The state of this generator and of those below it, as a value. */
    ghost function Model(): (g: Gen)
      requires Wired()
      reads Repr
      ensures g.cls == cls && g.rows == rows
      decreases Height(cls)
    {
      Gen(cls, rows, seq(|children|, i requires 0 <= i < |children| reads Repr => children[i].Model()))
    }

    /** The states of the children in the tree are those of the child generators. */
    lemma ModelChildren()
      requires Wired()
      ensures |Model().children| == |children|
      ensures forall i :: 0 <= i < |children| ==> Model().children[i] == children[i].Model()
    {
    }

    /** Child `i` is a wired generator of a lower class whose state is child `i` of the tree. */
    lemma ChildModel(i: nat)
      requires Wired() && i < |children|
      ensures children[i].Wired() && Height(children[i].cls) < Height(cls)
      ensures |Model().children| == |children| && Model().children[i] == children[i].Model()
    {
    }

    /** A generator without rows whose children are as constructed is itself as constructed. */
    lemma ModelInitial()
      requires Wired() && rows == []
      requires forall i :: 0 <= i < |children| ==> children[i].Model() == Initial(children[i].cls)
      ensures Model() == Initial(cls)
    {
      ModelChildren();
      assert Model().children == Initial(cls).children;
    }

    /** The class invariant: the objects are wired as the tree of classes, and so is the state. */
    ghost predicate Valid()
      reads Repr
    {
      Wired() && Shaped(Model())
    }

    /** The wiring alone already makes the state a tree of the right shape. */
    lemma {:induction false} WiredShaped()
      requires Wired()
      ensures Shaped(Model())
      decreases Height(cls)
    {
      forall i | 0 <= i < |children| ensures Shaped(children[i].Model()) {
        children[i].WiredShaped();
      }
    }

    /** `__init__`: builds the whole tree below the class, every generator without rows. */
    constructor (c: GeneratorClass)
      ensures Valid() && fresh(Repr)
      ensures Model() == Initial(c)
      decreases Height(c), 1
    {
      var subs := Subgenerators(c);
      var made, below := Build(subs, Height(c));
      cls := c;
      children := made;
      rows := [];
      Repr := {this} + below;
      new;
      assert Wired();
      ModelInitial();
    }

    /** Generators `made`, one per class of `subs` in order, each a fresh tree without rows inside `below`. */
    static ghost predicate Built(subs: seq<GeneratorClass>, made: seq<SQLGenerator>, below: set<object>)
      reads below
    {
      && |made| == |subs|
      && (forall k :: 0 <= k < |made| ==> made[k].cls == subs[k] && made[k].Wired() && made[k].Repr <= below)
      && (forall k :: 0 <= k < |made| ==> made[k].Model() == Initial(subs[k]))
      && (forall k, m :: 0 <= k < m < |made| ==> made[k].Repr !! made[m].Repr)
    }

    /** A new generator outside `below` extends what has been built. */
    static lemma BuiltAppend(subs: seq<GeneratorClass>, made: seq<SQLGenerator>, below: set<object>,
                             sub: GeneratorClass, child: SQLGenerator)
      requires Built(subs, made, below)
      requires child.cls == sub && child.Wired() && child.Model() == Initial(sub) && child.Repr !! below
      ensures Built(subs + [sub], made + [child], below + child.Repr)
    {
      var made', below' := made + [child], below + child.Repr;
      forall k | 0 <= k < |made'|
        ensures made'[k].Repr <= below' && made'[k].Model() == Initial((subs + [sub])[k])
      {
        if k < |made| {
          assert made'[k] == made[k];
        }
      }
    }

    /** The dict comprehension of `__init__`: one new generator per class, in order. */
    static method Build(subs: seq<GeneratorClass>, height: nat) returns (made: seq<SQLGenerator>, ghost below: set<object>)
      requires forall k :: 0 <= k < |subs| ==> Height(subs[k]) < height
      ensures fresh(below) && Built(subs, made, below)
      decreases height, 0
    {
      made := [];
      below := {};
      var i := 0;
      while i < |subs|
        invariant 0 <= i <= |subs|
        invariant fresh(below) && Built(subs[..i], made, below)
      {
        var child := new SQLGenerator(subs[i]);
        BuiltAppend(subs[..i], made, below, subs[i], child);
        assert subs[..i] + [subs[i]] == subs[..i + 1];
        made := made + [child];
        below := below + child.Repr;
        i := i + 1;
      }
      assert subs[..i] == subs;
    }

    /**
     * `extract_rows(data, foreign_data)`: walks the entries of the
     * transformed data, appends one row per completed entry and hands the
     * values under child keys down to the children. The error is the
     * exception raised, if any, and the state is the one reached when it was
     * raised.
     */
    method ExtractRows(data: Value, foreign: seq<Entry>) returns (error: Option<ImportError>)
      requires Valid()
      modifies Repr
      ensures Valid()
      ensures Extract(old(Model()), data, foreign) == Outcome(Model(), error)
      decreases Height(cls), 3
    {
      if TableNameOf(cls).None? {
        return Some(NoTable);
      }
      var cols := ColumnsOf(cls);
      var transformed := TransformData(cls, data);
      if transformed.Failure? {
        return Some(transformed.error);
      }
      if !transformed.value.Map? {
        return Some(NotAMapping);
      }
      var entries := Dict(transformed.value.entries);
      ghost var goal := EntriesFrom(Model(), cols, entries, 0, foreign);
      assert Extract(old(Model()), data, foreign) == goal;
      var i := 0;
      while i < |entries|
        invariant i <= |entries| && Valid()
        invariant EntriesFrom(Model(), cols, entries, i, foreign) == goal
      {
        var key, values := entries[i].key, entries[i].value;
        if !values.Map? {
          return Some(NotAMapping);
        }
        var row;
        row, error := FillRow(cols, key, Dict(values.entries), foreign);
        if error.Some? {
          return;
        }
        ghost var before := Model();
        label Appending:
        rows := rows + [row];
        RowsChanged@Appending(before);
        WiredShaped();
        i := i + 1;
      }
      return None;
    }

    /**
     * The inner loop of `extract_rows` for one entry: the items of the
     * entry's dict, then those of the inherited dict; a column fills its slot, a child key sends the
     * value down, anything else raises.
     */
    method FillRow(cols: seq<ColName>, key: string, values: seq<Entry>, foreign: seq<Entry>)
      returns (row: Row, error: Option<ImportError>)
      requires Valid()
      modifies Repr
      ensures Valid()
      ensures ItemsFrom(old(Model()), cols, key, values, values + Dict(foreign), 0, Blank(|cols|), foreign)
        == Step(Model(), row, error)
      decreases Height(cls), 2
    {
      var items := values + Dict(foreign);
      row := Blank(|cols|);
      ghost var goal := ItemsFrom(Model(), cols, key, values, items, 0, row, foreign);
      var j := 0;
      while j < |items|
        invariant j <= |items| && |row| == |cols| && Valid()
        invariant ItemsFrom(Model(), cols, key, values, items, j, row, foreign) == goal
      {
        row, error := PlaceItem(cols, key, values, items, j, row, foreign);
        if error.Some? {
          return;
        }
        j := j + 1;
      }
      return row, None;
    }

    /**
     * One pass of the inner loop of `extract_rows`: item `j` fills its
     * column's slot, or goes down to the child with that `column_key`, or
     * raises.
     */
    method PlaceItem(cols: seq<ColName>, key: string, values: seq<Entry>, items: seq<Entry>, j: nat, row: Row,
                     foreign: seq<Entry>)
      returns (next: Row, error: Option<ImportError>)
      requires Valid() && j < |items| && |row| == |cols|
      modifies Repr
      ensures Valid() && |next| == |cols|
      ensures ItemsFrom(old(Model()), cols, key, values, items, j, row, foreign)
        == if error.Some? then Step(Model(), next, error)
           else ItemsFrom(Model(), cols, key, values, items, j + 1, next, foreign)
      decreases Height(cls), 1
    {
      var column, value := items[j].key, items[j].value;
      var ix := ColumnIndex(cols, column, 0);
      if ix.Some? {
        return row[ix.value := value], None;
      }
      var c := FindChild(Subgenerators(cls), column, 0);
      if c.None? {
        return row, Some(UnknownColumn(cls, column));
      }
      error := SendToChild(c.value, value, Extraction.Identity(values, key), foreign);
      next := row;
    }

    /**
     * `subgenerator.extract_rows(value, dict({subgenerator.foreign_key: id}, **foreign_data))`
     * on child `c`.
     */
    method SendToChild(c: nat, value: Value, id: Value, foreign: seq<Entry>) returns (error: Option<ImportError>)
      requires Valid() && c < |children|
      modifies Repr
      ensures Valid()
      ensures Extraction.SendDown(old(Model()), c, value, id, foreign) == Outcome(Model(), error)
      decreases Height(cls), 0
    {
      var child := children[c];
      var fk := ForeignKeyOf(child.cls);
      if fk.None? {
        return Some(NoForeignKey(child.cls));
      }
      ghost var before := Model();
      assert before.children[c] == child.Model();
      error := child.ExtractRows(value, ChildForeign(fk.value, id, foreign));
      forall k | 0 <= k < |children| && k != c
        ensures children[k].Model() == before.children[k]
      {
        assert children[k].Repr !! child.Repr;
      }
      assert Model().children == before.children[c := child.Model()];
    }

    /** After only `self.rows` has changed, the tree is the old one with the new rows. */
    twostate lemma RowsChanged(before: Gen)
      requires Wired()
      requires before == old(Model())
      requires unchanged(Repr - {this})
      ensures Model() == before.(rows := rows)
    {
      forall k | 0 <= k < |children|
        ensures children[k].Model() == before.children[k]
      {
        assert this !in children[k].Repr;
      }
    }

    /**
     * `process(data)`: each top-level key of the document goes to the child
     * whose `column_key` it is, with no inherited data; an unknown key raises.
     */
    method Process(data: Value) returns (error: Option<ImportError>)
      requires Valid()
      modifies Repr
      ensures Valid()
      ensures Extraction.Process(old(Model()), data) == Outcome(Model(), error)
    {
      if !data.Map? {
        return Some(NotAMapping);
      }
      var entries := Dict(data.entries);
      ghost var goal := ProcessFrom(Model(), entries, 0);
      var i := 0;
      while i < |entries|
        invariant i <= |entries| && Valid()
        invariant ProcessFrom(Model(), entries, i) == goal
      {
        var key := entries[i].key;
        var c := FindChild(Subgenerators(cls), key, 0);
        if c.None? {
          return Some(UnknownTopLevelKey(key));
        }
        error := SendToTop(c.value, entries[i].value);
        if error.Some? {
          return;
        }
        i := i + 1;
      }
      return None;
    }

    /** `generator.extract_rows(_data)` on child `c`, with no inherited data. */
    method SendToTop(c: nat, value: Value) returns (error: Option<ImportError>)
      requires Valid() && c < |children|
      modifies Repr
      ensures Valid()
      ensures SendTop(old(Model()), c, value) == Outcome(Model(), error)
    {
      var child := children[c];
      ghost var before := Model();
      assert before.children[c] == child.Model();
      error := child.ExtractRows(value, []);
      forall k | 0 <= k < |children| && k != c
        ensures children[k].Model() == before.children[k]
      {
        assert children[k].Repr !! child.Repr;
      }
      assert Model().children == before.children[c := child.Model()];
    }

    /**
     * `get_sql()`: nothing for a generator without rows, otherwise the
     * header and one rendered line per row.
     */
    method GetSql() returns (r: Result<string, ImportError>)
      ensures r == RenderSql(cls, rows)
    {
      if rows == [] {
        return Success("");
      }
      if TableNameOf(cls).None? {
        return Failure(NoTable);
      }
      r := CopyStatement(Header(cls), TypesOf(cls), rows);
    }

    /** The loop of `get_sql` over the rows, then the statement around them. */
    static method CopyStatement(header: string, types: seq<ColType>, rows: seq<Row>) returns (r: Result<string, ImportError>)
      ensures r == CopyBlock(header, types, rows)
    {
      var lines: seq<string> := [];
      var n := 0;
      while n < |rows|
        invariant n <= |rows|
        invariant RenderRows(types, rows, n) == Success(lines)
      {
        var line := RenderLine(types, rows[n]);
        if line.Failure? {
          RenderRowsFailureSticks(types, rows, n + 1, |rows|);
          return Failure(line.error);
        }
        lines := lines + [line.value];
        n := n + 1;
      }
      return Success(header + Join("\n", lines) + "\n\n");
    }

    /** The inner loop of `get_sql`: one row rendered by its columns' types. */
    static method RenderLine(types: seq<ColType>, row: Row) returns (r: Result<string, ImportError>)
      ensures r == RenderRow(types, row)
    {
      var parts: seq<string> := [];
      var k := 0;
      while k < |row|
        invariant k <= |row|
        invariant RenderValues(types, row, k) == Success(parts)
      {
        if k >= |types| {
          RenderValuesFailureSticks(types, row, k + 1, |row|);
          return Failure(RowLongerThanColumns);
        }
        var value: string;
        match types[k] {
          case StringType(_) =>
            value := Quote(Text(row[k]));
          case IntegerType =>
            value := Text(row[k]);
          case OtherType(_) =>
            RenderValuesFailureSticks(types, row, k + 1, |row|);
            return Failure(UnsupportedColumnType(types[k]));
        }
        parts := parts + [value];
        k := k + 1;
      }
      return Success("(" + Join(", ", parts) + ")");
    }

    /** `get_all_sql()`: this generator's SQL, then each child's, in `__subgenerators__` order. */
    method GetAllSql() returns (r: Result<string, ImportError>)
      requires Wired()
      ensures r == AllSql(Model())
      decreases Height(cls), 1
    {
      var own := GetSql();
      if own.Failure? {
        return own;
      }
      var rest := ChildrenAllSql();
      if rest.Failure? {
        return rest;
      }
      return Success(own.value + rest.value);
    }

    /** The loop of `get_all_sql`: each child's `get_all_sql()`, concatenated. */
    method ChildrenAllSql() returns (r: Result<string, ImportError>)
      requires Wired()
      ensures r == ChildrenSql(Model(), NodeSql, |children|)
      decreases Height(cls), 0
    {
      ghost var tree := Model();
      var sql := "";
      var i := 0;
      while i < |children|
        invariant i <= |children|
        invariant ChildrenSql(tree, NodeSql, i) == Success(sql)
      {
        var child := children[i];
        ChildModel(i);
        var s := child.GetAllSql();
        ChildrenSqlNext(tree, i, sql);
        if s.Failure? {
          ChildrenSqlFailureSticks(tree, NodeSql, i + 1, |children|);
          return s;
        }
        sql := sql + s.value;
        i := i + 1;
      }
      return Success(sql);
    }
  }

  /**
   * `main(source, output)` between loading the YAML and writing the text:
   * the root generator is built, processes the document and renders every
   * generator's rows. An exception the walk raises ends the run; when the
   * walk raises nothing, rendering never does.
   */
  method Run(data: Value) returns (r: Result<string, ImportError>)
    ensures var out := Extraction.Process(Initial(BaseSQLGenerator), data);
      && (out.error.Some? ==> r == Failure(out.error.value))
      && (out.error.None? ==> r.Success? && r == AllSql(out.gen))
  {
    var root := new SQLGenerator(BaseSQLGenerator);
    var error := root.Process(data);
    if error.Some? {
      return Failure(error.value);
    }
    r := root.GetAllSql();
    RendersAfterProcess(data);
  }
}
