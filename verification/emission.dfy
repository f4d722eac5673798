/**
 * What `get_sql` and `get_all_sql` produce from the rows the generators have
 * accumulated: one `COPY ... FROM STDIN;` block per generator that holds
 * rows, in preorder over the tree.
 */
module Emission {
  import opened Wrappers
  import opened PyText
  import opened Schema
  import opened Document
  import opened Generators
  import opened Extraction
  import Registry

  /** `self.column_types[column]` for each of `self.columns`, in order. */
  function TypesOf(c: GeneratorClass): (ts: seq<ColType>)
    requires TableNameOf(c).Some?
    ensures |ts| == |ColumnsOf(c)|
  {
    ColumnTypeOrder(TableNameOf(c).value)
  }

  /**
   * One value: quoted `str()` for a String column, bare `str()` for an
   * Integer column; a column of any other type raises.
   */
  function RenderValue(t: ColType, v: Value): (r: Result<string, ImportError>)
    ensures r.Success? <==> t.StringType? || t.IntegerType?
    ensures r.Failure? ==> r.error == UnsupportedColumnType(t)
    ensures t.StringType? ==> |r.value| == |Text(v)| + 2 && r.value[1..|r.value| - 1] == Text(v)
  {
    match t
    case StringType(_) => Success(Quote(Text(v)))
    case IntegerType => Success(Text(v))
    case OtherType(_) => Failure(UnsupportedColumnType(t))
  }

  /** The first `n` values of a row, rendered; the first failure is the one raised. */
  function RenderValues(types: seq<ColType>, row: Row, n: nat): Result<seq<string>, ImportError>
    requires n <= |row|
  {
    if n == 0 then Success([])
    else
      var pre :- RenderValues(types, row, n - 1);
      if n - 1 >= |types| then Failure(RowLongerThanColumns)
      else
        var v :- RenderValue(types[n - 1], row[n - 1]);
        Success(pre + [v])
  }

  /** `'(' + ', '.join(row_new) + ')'`. */
  function RenderRow(types: seq<ColType>, row: Row): Result<string, ImportError> {
    var parts :- RenderValues(types, row, |row|);
    Success("(" + Join(", ", parts) + ")")
  }

  /** The first `n` rows, rendered. */
  function RenderRows(types: seq<ColType>, rows: seq<Row>, n: nat): Result<seq<string>, ImportError>
    requires n <= |rows|
  {
    if n == 0 then Success([])
    else
      var pre :- RenderRows(types, rows, n - 1);
      var line :- RenderRow(types, rows[n - 1]);
      Success(pre + [line])
  }

  /** The two header lines; the comment names `self.table_name` literally, as the f-string has no braces there. */
  function Header(c: GeneratorClass): (h: string)
    requires TableNameOf(c).Some?
    ensures var comment := "-- Data from table `self.table_name`\n";
      && comment <= h
      && "COPY " + TableText(TableNameOf(c).value) + " (" <= h[|comment|..]
      && |h| >= |comment| + 14 && h[|h| - 14..] == ") FROM STDIN;\n"
  {
    "-- Data from table `self.table_name`\n"
      + "COPY " + TableText(TableNameOf(c).value) + " (" + Join(", ", Texts(ColumnsOf(c))) + ") FROM STDIN;\n"
  }

  /**
   * `get_sql()` of a generator of class `c` holding `rows`: empty without
   * rows; otherwise a block that opens with the header and ends with a blank
   * line, or the error raised.
   */
  function RenderSql(c: GeneratorClass, rows: seq<Row>): (r: Result<string, ImportError>)
    ensures rows == [] ==> r == Success("")
    ensures rows != [] && TableNameOf(c).None? ==> r == Failure(NoTable)
    ensures rows != [] && r.Success? ==>
      && TableNameOf(c).Some? && Header(c) <= r.value
      && |r.value| >= |Header(c)| + 2 && r.value[|r.value| - 2..] == "\n\n"
  {
    if rows == [] then Success("")
    else if TableNameOf(c).None? then Failure(NoTable)
    else CopyBlock(Header(c), TypesOf(c), rows)
  }

  /** The header, then the rendered rows one per line, then a blank line. */
  function CopyBlock(header: string, types: seq<ColType>, rows: seq<Row>): Result<string, ImportError> {
    var lines :- RenderRows(types, rows, |rows|);
    Success(header + Join("\n", lines) + "\n\n")
  }

  /** `get_sql()` of one node. */
  function NodeSql(g: Gen): Result<string, ImportError> {
    RenderSql(g.cls, g.rows)
  }

  /** `get_all_sql()`: the root's own `get_sql()` comes first, and its error is the one raised. */
  function AllSql(g: Gen): (r: Result<string, ImportError>)
    ensures NodeSql(g).Failure? ==> r == Failure(NodeSql(g).error)
    ensures r.Success? ==> NodeSql(g).Success? && NodeSql(g).value <= r.value
  {
    TreeSql(g, NodeSql)
  }

  /**
   * The walk of `get_all_sql`, for any way `render` of producing one node's
   * SQL: the node's own, then each child's subtree in `__subgenerators__`
   * order; the first failure is the one raised.
   */
  function TreeSql(g: Gen, render: Gen -> Result<string, ImportError>): Result<string, ImportError>
    decreases g, 1
  {
    var own :- render(g);
    var rest :- ChildrenSql(g, render, |g.children|);
    Success(own + rest)
  }

  /** The SQL of the first `n` children's subtrees, concatenated. */
  function ChildrenSql(g: Gen, render: Gen -> Result<string, ImportError>, n: nat): Result<string, ImportError>
    requires n <= |g.children|
    decreases g, 0, n
  {
    if n == 0 then Success("")
    else
      var pre :- ChildrenSql(g, render, n - 1);
      var s :- TreeSql(g.children[n - 1], render);
      Success(pre + s)
  }

  // ---------------------------------------------------------------------------
  // One generator

  /** Rendering succeeds on every row as wide as the columns, and gives one text per value. */
  lemma {:induction false} RenderValuesMeaning(types: seq<ColType>, row: Row, n: nat)
    requires n <= |row| <= |types| && Allowed(types)
    ensures RenderValues(types, row, n) == Success(Cells(types, row, n))
  {
    if n > 0 {
      RenderValuesMeaning(types, row, n - 1);
      RenderValueAllowed(types[n - 1], row[n - 1]);
      assert Cells(types, row, n - 1) + [Cell(types[n - 1], row[n - 1])] == Cells(types, row, n);
    }
  }

  lemma RenderValueAllowed(t: ColType, v: Value)
    requires t.StringType? || t.IntegerType?
    ensures RenderValue(t, v) == Success(Cell(t, v))
  {
  }

  /** Once a value fails to render, the row fails with that error. */
  lemma {:induction false} RenderValuesFailureSticks(types: seq<ColType>, row: Row, m: nat, n: nat)
    requires m <= n <= |row| && RenderValues(types, row, m).Failure?
    ensures RenderValues(types, row, n) == RenderValues(types, row, m)
    decreases n
  {
    if n > m {
      RenderValuesFailureSticks(types, row, m, n - 1);
    }
  }

  /** A column of a type other than String or Integer makes any row that reaches it fail. */
  lemma UnsupportedTypeFails(types: seq<ColType>, row: Row, k: nat)
    requires k < |row| && k < |types| && types[k].OtherType?
    requires RenderValues(types, row, k).Success?
    ensures RenderRow(types, row) == Failure(UnsupportedColumnType(types[k]))
  {
    RenderValuesFailureSticks(types, row, k + 1, |row|);
  }

  /** Once a row fails, rendering more rows raises the same error. */
  lemma {:induction false} RenderRowsFailureSticks(types: seq<ColType>, rows: seq<Row>, m: nat, n: nat)
    requires m <= n <= |rows| && RenderRows(types, rows, m).Failure?
    ensures RenderRows(types, rows, n) == RenderRows(types, rows, m)
    decreases n
  {
    if n > m {
      RenderRowsFailureSticks(types, rows, m, n - 1);
    }
  }

  /** The rows render one line each, in order, when every row renders. */
  lemma {:induction false} RenderRowsMeaning(types: seq<ColType>, rows: seq<Row>, n: nat)
    requires n <= |rows|
    requires forall k :: 0 <= k < |rows| ==> RenderRow(types, rows[k]).Success?
    ensures RenderRows(types, rows, n).Success?
    ensures |RenderRows(types, rows, n).value| == n
    ensures forall k :: 0 <= k < n ==> RenderRows(types, rows, n).value[k] == RenderRow(types, rows[k]).value
  {
    if n > 0 {
      RenderRowsMeaning(types, rows, n - 1);
    }
  }

  /** How a value appears in the output, for a column of an allowed type. */
  function Cell(t: ColType, v: Value): string {
    if t.StringType? then Quote(Text(v)) else Text(v)
  }

  /** The first `n` cells of a row, in column order. */
  function Cells(types: seq<ColType>, row: Row, n: nat): (cs: seq<string>)
    requires n <= |row| <= |types|
    ensures |cs| == n
  {
    seq(n, k requires 0 <= k < n => Cell(types[k], row[k]))
  }

  /** The line a row becomes: its cells in column order, between parentheses. */
  function Line(types: seq<ColType>, row: Row): string
    requires |row| <= |types|
  {
    "(" + Join(", ", Cells(types, row, |row|)) + ")"
  }

  /** Every type is String or Integer. */
  predicate Allowed(types: seq<ColType>) {
    forall k :: 0 <= k < |types| ==> types[k].StringType? || types[k].IntegerType?
  }

  /** A row no wider than the columns renders as its `Line`. */
  lemma RenderRowMeaning(types: seq<ColType>, row: Row)
    requires |row| <= |types| && Allowed(types)
    ensures RenderRow(types, row) == Success(Line(types, row))
  {
    RenderValuesMeaning(types, row, |row|);
    var parts := RenderValues(types, row, |row|).value;
    assert parts == seq(|row|, k requires 0 <= k < |row| => Cell(types[k], row[k]));
  }

  /**
   * A non-empty block of rows no wider than the columns renders as the
   * header, the rows' `Line`s joined by newlines, and a blank line.
   */
  lemma CopyBlockMeaning(header: string, types: seq<ColType>, rows: seq<Row>)
    requires Allowed(types) && forall k :: 0 <= k < |rows| ==> |rows[k]| <= |types|
    ensures CopyBlock(header, types, rows)
      == Success(header + Join("\n", seq(|rows|, k requires 0 <= k < |rows| => Line(types, rows[k]))) + "\n\n")
  {
    forall k | 0 <= k < |rows| ensures RenderRow(types, rows[k]) == Success(Line(types, rows[k])) {
      RenderRowMeaning(types, rows[k]);
    }
    RenderRowsMeaning(types, rows, |rows|);
    var lines := RenderRows(types, rows, |rows|).value;
    assert lines == seq(|rows|, k requires 0 <= k < |rows| => Line(types, rows[k]));
  }

  /** `get_sql` returns the empty text exactly when the generator holds no rows. */
  lemma RenderSqlEmpty(c: GeneratorClass, rows: seq<Row>)
    requires RenderSql(c, rows).Success?
    ensures RenderSql(c, rows).value == "" <==> rows == []
  {
    if rows != [] {
      var h := Header(c);
      CopyBlockLonger(h, TypesOf(c), rows);
    }
  }

  lemma CopyBlockLonger(header: string, types: seq<ColType>, rows: seq<Row>)
    requires CopyBlock(header, types, rows).Success?
    ensures |CopyBlock(header, types, rows).value| >= 2
  {
  }

  /**
   * With the declared column types, `get_sql` of rows as wide as the table
   * never raises and gives one `Line` per row after the header.
   */
  lemma RenderSqlMeaning(c: GeneratorClass, rows: seq<Row>)
    requires TableNameOf(c).Some? && rows != []
    requires forall k :: 0 <= k < |rows| ==> |rows[k]| == |ColumnsOf(c)|
    ensures RenderSql(c, rows)
      == Success(Header(c) + Join("\n", seq(|rows|, k requires 0 <= k < |rows| => Line(TypesOf(c), rows[k]))) + "\n\n")
  {
    TypesAllowed(c);
    CopyBlockMeaning(Header(c), TypesOf(c), rows);
  }

  /** The declared columns are all String or Integer. */
  lemma TypesAllowed(c: GeneratorClass)
    requires TableNameOf(c).Some?
    ensures Allowed(TypesOf(c))
  {
    var n := TableNameOf(c).value;
    var cols := TableOf(n).columns;
    Registry.ColumnTypeOrderDeclared(n);
    Registry.ColumnTypes(n);
    forall k | 0 <= k < |cols| ensures cols[k].colType.StringType? || cols[k].colType.IntegerType? {
      assert cols[k] in cols;
    }
  }

  // ---------------------------------------------------------------------------
  // The whole tree

  /** The nodes of a tree in preorder: the node, then each child's subtree in order. */
  function Nodes(g: Gen): seq<Gen>
    decreases g, 1
  {
    [g] + ChildNodes(g, |g.children|)
  }

  function ChildNodes(g: Gen, n: nat): seq<Gen>
    requires n <= |g.children|
    decreases g, 0, n
  {
    if n == 0 then [] else ChildNodes(g, n - 1) + Nodes(g.children[n - 1])
  }

  /** `render` applied to each node of a list, concatenated; the first failure is the one raised. */
  function ConcatSql(nodes: seq<Gen>, render: Gen -> Result<string, ImportError>): Result<string, ImportError> {
    if nodes == [] then Success("")
    else
      var pre :- ConcatSql(nodes[..|nodes| - 1], render);
      var s :- render(nodes[|nodes| - 1]);
      Success(pre + s)
  }

  /** Concatenating over two lists one after the other. */
  lemma {:induction false} ConcatSqlAppend(a: seq<Gen>, b: seq<Gen>, render: Gen -> Result<string, ImportError>)
    ensures ConcatSql(a + b, render)
      == if ConcatSql(a, render).Failure? then ConcatSql(a, render)
         else if ConcatSql(b, render).Failure? then ConcatSql(b, render)
         else Success(ConcatSql(a, render).value + ConcatSql(b, render).value)
    decreases |b|
  {
    if b == [] {
      assert a + b == a;
      if ConcatSql(a, render).Success? {
        assert ConcatSql(a, render).value + "" == ConcatSql(a, render).value;
      }
    } else {
      var n := |b| - 1;
      assert (a + b)[..|a + b| - 1] == a + b[..n];
      assert (a + b)[|a + b| - 1] == b[n];
      ConcatSqlAppend(a, b[..n], render);
      var last := render(b[n]);
      if ConcatSql(a, render).Success? && ConcatSql(b[..n], render).Success? && last.Success? {
        assert (ConcatSql(a, render).value + ConcatSql(b[..n], render).value) + last.value
          == ConcatSql(a, render).value + (ConcatSql(b[..n], render).value + last.value);
      }
    }
  }

  /**
   * `get_all_sql` is the `get_sql` of every node in preorder, concatenated:
   * the node's own block first, then each child's subtree in
   * `__subgenerators__` order.
   */
  lemma {:induction false} TreeSqlPreorder(g: Gen, render: Gen -> Result<string, ImportError>)
    ensures TreeSql(g, render) == ConcatSql(Nodes(g), render)
    decreases g, 1
  {
    ChildrenSqlPreorder(g, render, |g.children|);
    ConcatSqlAppend([g], ChildNodes(g, |g.children|), render);
    assert [g][..0] == [];
    var own := render(g);
    if own.Success? {
      assert "" + own.value == own.value;
    }
  }

  lemma {:induction false} ChildrenSqlPreorder(g: Gen, render: Gen -> Result<string, ImportError>, n: nat)
    requires n <= |g.children|
    ensures ChildrenSql(g, render, n) == ConcatSql(ChildNodes(g, n), render)
    decreases g, 0, n
  {
    if n > 0 {
      ChildrenSqlPreorder(g, render, n - 1);
      TreeSqlPreorder(g.children[n - 1], render);
      ConcatSqlAppend(ChildNodes(g, n - 1), Nodes(g.children[n - 1]), render);
    }
  }

  lemma AllSqlPreorder(g: Gen)
    ensures AllSql(g) == ConcatSql(Nodes(g), NodeSql)
  {
    TreeSqlPreorder(g, NodeSql);
  }

  /** A node whose rows fit its table renders without raising. */
  lemma NodeSqlSucceeds(g: Gen)
    requires Fits(g)
    ensures NodeSql(g).Success?
  {
    if g.rows != [] {
      assert g.rows[0] in g.rows;
      forall k | 0 <= k < |g.rows| ensures |g.rows[k]| == |ColumnsOf(g.cls)| {
        assert g.rows[k] in g.rows;
      }
      RenderSqlMeaning(g.cls, g.rows);
    }
  }

  /**
   * The first value of row `n` that cannot be rendered is the error `get_sql`
   * raises for the whole table.
   */
  lemma RowFailureRaised(types: seq<ColType>, rows: seq<Row>, n: nat, k: nat)
    requires n < |rows| && k <= |rows[n]|
    requires RenderRows(types, rows, n).Success? && RenderValues(types, rows[n], k).Failure?
    ensures RenderRows(types, rows, |rows|) == Failure(RenderValues(types, rows[n], k).error)
  {
    RenderValuesFailureSticks(types, rows[n], k, |rows[n]|);
    RenderRowsFailureSticks(types, rows, n + 1, |rows|);
  }

  /** Once a child's subtree fails, the walk over the children raises that error. */
  lemma {:induction false} ChildrenSqlFailureSticks(g: Gen, render: Gen -> Result<string, ImportError>, m: nat, n: nat)
    requires m <= n <= |g.children| && ChildrenSql(g, render, m).Failure?
    ensures ChildrenSql(g, render, n) == ChildrenSql(g, render, m)
    decreases n
  {
    if n > m {
      ChildrenSqlFailureSticks(g, render, m, n - 1);
    }
  }

  /** One more child in the walk of `get_all_sql`: its subtree's SQL is appended, or its error raised. */
  lemma ChildrenSqlNext(g: Gen, i: nat, sql: string)
    requires i < |g.children| && ChildrenSql(g, NodeSql, i) == Success(sql)
    ensures AllSql(g.children[i]).Failure? ==> ChildrenSql(g, NodeSql, i + 1) == Failure(AllSql(g.children[i]).error)
    ensures AllSql(g.children[i]).Success? ==> ChildrenSql(g, NodeSql, i + 1) == Success(sql + AllSql(g.children[i]).value)
  {
  }

  /** Every node of the tree renders without raising. */
  predicate EveryNodeRenders(g: Gen, render: Gen -> Result<string, ImportError>)
    decreases g
  {
    && render(g).Success?
    && forall i :: 0 <= i < |g.children| ==> EveryNodeRenders(g.children[i], render)
  }

  /** When every node renders, so does the whole walk. */
  lemma {:induction false} TreeSqlSucceeds(g: Gen, render: Gen -> Result<string, ImportError>)
    requires EveryNodeRenders(g, render)
    ensures TreeSql(g, render).Success?
    decreases g, 1
  {
    ChildrenSqlSucceed(g, render, |g.children|);
  }

  lemma {:induction false} ChildrenSqlSucceed(g: Gen, render: Gen -> Result<string, ImportError>, n: nat)
    requires EveryNodeRenders(g, render) && n <= |g.children|
    ensures ChildrenSql(g, render, n).Success?
    decreases g, 0, n
  {
    if n > 0 {
      ChildrenSqlSucceed(g, render, n - 1);
      TreeSqlSucceeds(g.children[n - 1], render);
    }
  }

  /** In a tree whose rows fit their tables, every node's `get_sql` succeeds. */
  lemma {:induction false} FitsRenders(g: Gen)
    requires Fits(g)
    ensures EveryNodeRenders(g, NodeSql)
    decreases g
  {
    NodeSqlSucceeds(g);
    forall i | 0 <= i < |g.children| ensures EveryNodeRenders(g.children[i], NodeSql) {
      FitsRenders(g.children[i]);
    }
  }

  /** A tree whose rows fit their tables renders without raising. */
  lemma AllSqlSucceeds(g: Gen)
    requires Fits(g)
    ensures AllSql(g).Success?
  {
    FitsRenders(g);
    TreeSqlSucceeds(g, NodeSql);
  }

  /** A freshly constructed tree renders to the empty text. */
  lemma AllSqlOfEmptyTree(c: GeneratorClass)
    ensures AllSql(Initial(c)) == Success("")
  {
    TreeSqlOfEmpty(c, NodeSql);
  }

  lemma {:induction false} TreeSqlOfEmpty(c: GeneratorClass, render: Gen -> Result<string, ImportError>)
    requires forall h: Gen :: h.rows == [] ==> render(h) == Success("")
    ensures TreeSql(Initial(c), render) == Success("")
    decreases Height(c), 1
  {
    InitialChildrenSql(c, render, |Subgenerators(c)|);
    assert "" + "" == "";
  }

  lemma {:induction false} InitialChildrenSql(c: GeneratorClass, render: Gen -> Result<string, ImportError>, n: nat)
    requires n <= |Subgenerators(c)|
    requires forall h: Gen :: h.rows == [] ==> render(h) == Success("")
    ensures ChildrenSql(Initial(c), render, n) == Success("")
    decreases Height(c), 0, n
  {
    if n > 0 {
      var g, sub := Initial(c), Subgenerators(c)[n - 1];
      InitialChildrenSql(c, render, n - 1);
      assert g.children[n - 1] == Initial(sub);
      TreeSqlOfEmpty(sub, render);
      assert TreeSql(g.children[n - 1], render) == Success("");
      assert "" + "" == "";
    }
  }

  /**
   * Whatever the document, and whether or not the walk raised, the rows
   * collected from it fit their tables, so `get_all_sql()` on the root
   * afterwards does not raise.
   */
  lemma RendersAfterProcess(data: Value)
    ensures AllSql(Process(Initial(BaseSQLGenerator), data).gen).Success?
  {
    var g := Initial(BaseSQLGenerator);
    InitialFits(BaseSQLGenerator);
    if data.Map? {
      ProcessFits(g, Dict(data.entries), 0);
    }
    AllSqlSucceeds(Process(g, data).gen);
  }
}
