/** The shapes of the renderings the source's unit tests expect, for any
    clauses in the places the tests use: a filter mixing plain comparisons
    with a nested OR group, and the AND and OR merges of two two-clause
    filters. */
module FilterExamples {
  import opened Text
  import opened Sql
  import opened Filters

  /** A two-clause filter renders as its two clauses around the separator. */
  lemma PairRendering(x: Comparison, y: Comparison, op: JoinOp)
    ensures Filter([x, y], op).ToSql() == x.ToSql() + op.Separator() + y.ToSql()
  {
    var g := Filter([x, y], op);
    g.RenderingCons();
    assert g.clauses[1..] == [y];
  }

  /** A three-clause filter renders as its clauses around two separators. */
  lemma TripleRendering(a: Comparison, b: Comparison, c: Comparison, op: JoinOp)
    ensures Filter([a, b, c], op).ToSql() == a.ToSql() + op.Separator() + (b.ToSql() + op.Separator() + c.ToSql())
  {
    var f := Filter([a, b, c], op);
    f.RenderingCons();
    assert f.clauses[1..] == [b, c];
    PairRendering(b, c, op);
  }

  /** The first test: three clauses joined by AND, the third a nested OR
      group rendered between parentheses. */
  lemma MixedFilterRendering(a: Comparison, b: Comparison, x: Comparison, y: Comparison)
    ensures Filter([a, b, Group(Filter([x, y], Or))], And).ToSql()
      == a.ToSql() + " AND " + (b.ToSql() + " AND " + Parenthesised(x.ToSql() + " OR " + y.ToSql()))
  {
    var g := Filter([x, y], Or);
    PairRendering(x, y, Or);
    TripleRendering(a, b, Group(g), And);
    assert Filter([a, b, Group(g)], And).ToSql() == a.ToSql() + " AND " + (b.ToSql() + " AND " + Group(g).ToSql());
    assert Group(g).ToSql() == Parenthesised(g.ToSql());
  }

  /** The second test: merging parenthesises each side, whatever operator it
      uses inside, and joins the two with the requested operator. */
  lemma MergeRendering(a1: Comparison, a2: Comparison, b1: Comparison, b2: Comparison)
    ensures Filter([a1, a2], Or).And(Filter([b1, b2], And)).ToSql()
      == Parenthesised(a1.ToSql() + " OR " + a2.ToSql()) + " AND " + Parenthesised(b1.ToSql() + " AND " + b2.ToSql())
    ensures Filter([a1, a2], Or).Or(Filter([b1, b2], And)).ToSql()
      == Parenthesised(a1.ToSql() + " OR " + a2.ToSql()) + " OR " + Parenthesised(b1.ToSql() + " AND " + b2.ToSql())
  {
    PairRendering(a1, a2, Or);
    PairRendering(b1, b2, And);
  }

  /** A column qualified by its table renders as both names quoted. */
  lemma QualifiedText(table: string, name: string)
    ensures ColumnSql(Qualified(table, name)) == "\"" + table + "\".\"" + name + "\""
  {
  }

  /** The first clause of the first test, and the last clause of its nested
      group: an equality against a string without single quotes renders the
      string between single quotes, as it is. */
  lemma EqualStringText(table: string, name: string, text: string)
    requires forall i :: 0 <= i < |text| ==> text[i] != '\''
    ensures Equal(Qualified(table, name), String(text)).ToSql()
      == "\"" + table + "\".\"" + name + "\" = '" + text + "'"
  {
    DoubleAbsent(text, '\'');
  }

  /** The second clause of the first test, with its literal text. */
  lemma NotEqualIntegerClauseText()
    ensures NotEqual(Qualified("table_name", "column_b"), Integer(42)).ToSql()
      == "\"table_name\".\"column_b\" <> 42"
  {
    var col, v := ColumnSql(Qualified("table_name", "column_b")), ValueSql(Integer(42));
    assert col == "\"table_name\".\"column_b\"" by { QualifiedText("table_name", "column_b"); }
    assert v == "42" by { assert NatSql(42) == NatSql(4) + "2"; }
    assert NotEqual(Qualified("table_name", "column_b"), Integer(42)).ToSql() == col + " <> " + v;
  }

  /** A list of two integers renders as an array literal of both. */
  lemma IntegerPairText(a: int, b: int)
    ensures ValueSql(List([Integer(a), Integer(b)])) == "{" + IntSql(a) + ", " + IntSql(b) + "}"
  {
    var items := [Integer(a), Integer(b)];
    assert ValuesSql(items) == [IntSql(a), IntSql(b)] by {
      assert ValuesSql(items) == [ValueSql(items[0])] + ValuesSql(items[1..]);
      assert items[1..] == [Integer(b)];
    }
    JoinPair(IntSql(a), IntSql(b), ", ");
  }

  /** The first clause of the first test's nested group: `<> ANY` over an
      array literal of two integers. */
  lemma NotInPairText(table: string, name: string, a: int, b: int)
    ensures NotIn(Qualified(table, name), List([Integer(a), Integer(b)])).ToSql()
      == ColumnSql(Qualified(table, name)) + " <> ANY(" + ("{" + IntSql(a) + ", " + IntSql(b) + "}") + ")"
  {
    IntegerPairText(a, b);
  }
}
