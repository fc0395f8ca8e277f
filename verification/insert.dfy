/** The INSERT statement builder: a table, an ordered column list, the values
    bound to the statement's numbered parameters, and an optional
    conflict policy (do nothing, or update the named columns). */
module Inserts {
  import opened Text
  import opened Sql

  /** `Placeholders::new()` followed by `placeholders.add(&value)` for every
      value in order: the bound values, position by position. */
  method CollectPlaceholders(values: seq<Value>) returns (placeholders: seq<Value>)
    ensures placeholders == values
  {
    placeholders := [];
    for i := 0 to |values|
      invariant placeholders == values[..i]
    {
      placeholders := placeholders + [values[i]];
    }
  }

  /** The rendering of each column, in order. */
  function ColumnTexts(columns: seq<Column>): seq<string>
  {
    seq(|columns|, i requires 0 <= i < |columns| => ColumnSql(columns[i]))
  }

  /** The columns rendered and joined by `, `. */
  function ColumnList(columns: seq<Column>): string
  {
    Join(ColumnTexts(columns), ", ")
  }

  /** The columns with their tables dropped. */
  function Unqualified(columns: seq<Column>): (r: seq<Column>)
    ensures |r| == |columns|
    ensures forall i :: 0 <= i < |r| ==> r[i].table == None && r[i].name == columns[i].name
  {
    seq(|columns|, i requires 0 <= i < |columns| => columns[i].Unqualify())
  }

  /** The parameter marker of 1-based position `k`: `$k`. */
  function Marker(k: nat): string
  {
    "$" + NatSql(k)
  }

  /** The markers `$1` to `$n`, in order. */
  function Markers(n: nat): (r: seq<string>)
    ensures |r| == n
  {
    seq(n, i requires 0 <= i < n => Marker(i + 1))
  }

  /** The marker at 0-based position `i` is a parameter sign followed by the
      decimal text of `i + 1`: the markers count from 1 in column order. */
  lemma MarkersNumbered(n: nat)
    ensures forall i :: 0 <= i < n ==>
      Markers(n)[i][0] == '$' && AllDigits(Markers(n)[i][1..]) && DigitsValue(Markers(n)[i][1..]) == i + 1
  {
    forall i | 0 <= i < n
      ensures Markers(n)[i][0] == '$' && AllDigits(Markers(n)[i][1..]) && DigitsValue(Markers(n)[i][1..]) == i + 1
    {
      assert Markers(n)[i][1..] == NatSql(i + 1);
      NatSqlRoundTrip(i + 1);
    }
  }

  /** No two positions share a marker. */
  lemma MarkersDistinct(n: nat)
    ensures forall i, j :: 0 <= i < j < n ==> Markers(n)[i] != Markers(n)[j]
  {
    forall i, j | 0 <= i < j < n
      ensures Markers(n)[i] != Markers(n)[j]
    {
      var a, b := NatSql(i + 1), NatSql(j + 1);
      assert Markers(n)[i][1..] == a && Markers(n)[j][1..] == b;
      NatSqlInjective(i + 1, j + 1);
    }
  }

  /** The joined marker list holds exactly `n` parameter signs. */
  lemma {:induction false} MarkerCount(n: nat)
    ensures Count(Join(Markers(n), ", "), '$') == n
  {
    if n == 1 {
      assert Markers(1) == [Marker(1)];
      CountAppend("$", NatSql(1), '$');
      CountDigits(NatSql(1), '$');
    } else if n > 1 {
      MarkerCount(n - 1);
      assert Markers(n) == Markers(n - 1) + [Marker(n)];
      JoinAppend(Markers(n - 1), [Marker(n)], ", ");
      CountAppend(Join(Markers(n - 1), ", ") + ", ", Marker(n), '$');
      CountAppend(Join(Markers(n - 1), ", "), ", ", '$');
      CountAppend("$", NatSql(n), '$');
      CountDigits(NatSql(n), '$');
    }
  }

  /** One `col = EXCLUDED.col` assignment per column, in order, each naming
      the column without its table. */
  function Assignments(columns: seq<Column>): (r: seq<string>)
    ensures |r| == |columns|
    ensures forall i :: 0 <= i < |r| ==>
      r[i] == Quote(columns[i].name) + " = EXCLUDED." + Quote(columns[i].name)
  {
    seq(|columns|, i requires 0 <= i < |columns| =>
      ColumnSql(columns[i].Unqualify()) + " = EXCLUDED." + ColumnSql(columns[i].Unqualify()))
  }

  /** The upsert text for a non-empty `unique_by` list. */
  function Upsert(uniqueBy: seq<Column>): string
  {
    "ON CONFLICT (" + ColumnList(Unqualified(uniqueBy)) + ") DO UPDATE SET " + Join(Assignments(uniqueBy), ", ") + " "
  }

  /** The conflict part of the statement: `no_conflict` takes priority over
      `unique_by`, and with neither there is no conflict text at all. */
  function ConflictClause(noConflict: bool, uniqueBy: seq<Column>): (r: string)
    ensures noConflict ==> r == "ON CONFLICT DO NOTHING "
    ensures !noConflict && |uniqueBy| > 0 ==> r == Upsert(uniqueBy)
    ensures r == "" <==> !noConflict && |uniqueBy| == 0
  {
    if noConflict then "ON CONFLICT DO NOTHING "
    else if |uniqueBy| > 0 then Upsert(uniqueBy)
    else ""
  }

  /** Everything before the conflict part: the table, the column list and
      one marker per column. */
  function Head(tableName: string, columns: seq<Column>): string
  {
    "INSERT INTO \"" + EscapeIdentifier(tableName) + "\" (" + ColumnList(columns)
      + ") VALUES (" + Join(Markers(|columns|), ", ") + ") "
  }

  /** `Insert::to_sql` over the builder's fields. */
  function Render(tableName: string, columns: seq<Column>, noConflict: bool, uniqueBy: seq<Column>): (r: string)
    ensures |r| >= 24 && r[..13] == "INSERT INTO \""
    ensures r[|r| - 11..] == "RETURNING *"
  {
    Head(tableName, columns) + ConflictClause(noConflict, uniqueBy) + "RETURNING *"
  }

  /** With `no_conflict` set the statement is the same whatever `unique_by`
      holds, and its conflict part is the DO NOTHING text. */
  lemma NoConflictIgnoresUniqueBy(tableName: string, columns: seq<Column>, u1: seq<Column>, u2: seq<Column>)
    ensures Render(tableName, columns, true, u1) == Render(tableName, columns, true, u2)
    ensures Render(tableName, columns, true, u1)
            == Head(tableName, columns) + "ON CONFLICT DO NOTHING " + "RETURNING *"
  {
  }

  /** The three conflict modes render three different statements for the
      same table and columns: the upsert never reads as DO NOTHING, and
      neither reads as the plain statement. */
  lemma ConflictModesDistinct(tableName: string, columns: seq<Column>, u1: seq<Column>, u2: seq<Column>)
    requires |u1| > 0
    ensures Render(tableName, columns, false, u1) != Render(tableName, columns, true, u2)
    ensures Render(tableName, columns, false, u1) != Render(tableName, columns, false, [])
    ensures Render(tableName, columns, true, u2) != Render(tableName, columns, false, [])
  {
  }

  /** An INSERT statement being built. */
  class Insert {
    var tableName: string
    var columns: seq<Column>
    var placeholders: seq<Value>
    var noConflict: bool
    var uniqueBy: seq<Column>

    /** `Insert::new(model)`: the model type's table and column names, each
        column unqualified, and the model's values bound in the same order. */
    constructor New(tableName: string, columnNames: seq<string>, values: seq<Value>)
      ensures this.tableName == tableName
      ensures |columns| == |columnNames|
      ensures forall i :: 0 <= i < |columns| ==> columns[i] == Named(columnNames[i])
      ensures placeholders == values
      ensures !noConflict && uniqueBy == []
    {
      var bound := CollectPlaceholders(values);
      this.tableName := tableName;
      columns := seq(|columnNames|, i requires 0 <= i < |columnNames| => Named(columnNames[i]));
      placeholders := bound;
      noConflict := false;
      uniqueBy := [];
    }

    /** `Insert::from_columns(columns, values)`: every column unqualified, in
        input order, and the values bound in input order. The two lengths
        are not compared. */
    constructor FromColumns(tableName: string, columns: seq<Column>, values: seq<Value>)
      ensures this.tableName == tableName
      ensures |this.columns| == |columns|
      ensures forall i :: 0 <= i < |columns| ==> this.columns[i] == columns[i].Unqualify()
      ensures placeholders == values
      ensures !noConflict && uniqueBy == []
    {
      var bound := CollectPlaceholders(values);
      this.tableName := tableName;
      this.columns := seq(|columns|, i requires 0 <= i < |columns| => columns[i].Unqualify());
      placeholders := bound;
      noConflict := false;
      uniqueBy := [];
    }

    /** `Insert::no_conflict`: sets the flag and nothing else. */
    method NoConflict()
      modifies this
      ensures noConflict
      ensures tableName == old(tableName) && columns == old(columns)
      ensures placeholders == old(placeholders) && uniqueBy == old(uniqueBy)
    {
      noConflict := true;
    }

    /** `Insert::unique_by`: replaces the upsert columns, as given, and
        nothing else. */
    method UniqueBy(columns: seq<Column>)
      modifies this
      ensures uniqueBy == columns
      ensures tableName == old(tableName) && this.columns == old(this.columns)
      ensures placeholders == old(placeholders) && noConflict == old(noConflict)
    {
      uniqueBy := columns;
    }

    /** `Insert::to_sql`. */
    function ToSql(): string
      reads this
    {
      Render(tableName, columns, noConflict, uniqueBy)
    }
  }
}
