/** The predicate algebra behind a query's WHERE clause: comparisons over a
    column and a value, filters that join an ordered list of comparisons with
    one operator, structural merging of filters, and their rendering to SQL
    text. */
module Filters {
  import opened Text
  import opened Sql

  /** The operator that joins the clauses of one filter. */
  datatype JoinOp = And | Or
  {
    /** `JoinOp::to_sql`. */
    function ToSql(): string
    {
      match this
      case And => "AND"
      case Or => "OR"
    }

    /** What is put between two clause renderings: the keyword with a space
        on each side. */
    function Separator(): (r: string)
      ensures r == (if And? then " AND " else " OR ")
    {
      " " + ToSql() + " "
    }
  }

  /** One predicate, or a nested filter rendered in parentheses. */
  datatype Comparison =
    | Equal(column: Column, value: Value)
    | In(column: Column, value: Value)
    | NotIn(column: Column, value: Value)
    | NotEqual(column: Column, value: Value)
    | Group(filter: Filter)
  {
    /** `Comparison::to_sql`: every clause renders to non-empty text; a
        nested filter is parenthesised. */
    function ToSql(): (r: string)
      decreases this, 1
      ensures r != ""
    {
      match this
      case Equal(c, v) => ColumnSql(c) + " = " + ValueSql(v)
      case In(c, v) => ColumnSql(c) + " = ANY(" + ValueSql(v) + ")"
      case NotIn(c, v) => ColumnSql(c) + " <> ANY(" + ValueSql(v) + ")"
      case NotEqual(c, v) => ColumnSql(c) + " <> " + ValueSql(v)
      case Group(f) => Parenthesised(f.ToSql())
    }
  }

  /** A sub-filter's text between parentheses. */
  function Parenthesised(s: string): string
  {
    "(" + s + ")"
  }

  /** The renderings of a list of clauses, in order. */
  function Renderings(cs: seq<Comparison>): (r: seq<string>)
    decreases cs, 0
    ensures |r| == |cs|
    ensures forall i :: 0 <= i < |cs| ==> r[i] == cs[i].ToSql()
  {
    if cs == [] then [] else [cs[0].ToSql()] + Renderings(cs[1..])
  }

  /** Rendering a list made of two lists renders each of them in turn. */
  lemma RenderingsAppend(a: seq<Comparison>, b: seq<Comparison>)
    ensures Renderings(a + b) == Renderings(a) + Renderings(b)
  {
  }

  /** A filter: clauses joined by one operator. */
  datatype Filter = Filter(clauses: seq<Comparison>, op: JoinOp)
  {
    /** `Filter::to_sql`: the clause renderings joined by ` AND ` or ` OR `.
        No clause renders to nothing and a single clause renders alone. */
    function ToSql(): (r: string)
      decreases this, 2
      ensures |clauses| == 0 ==> r == ""
      ensures |clauses| == 1 ==> r == clauses[0].ToSql()
    {
      Text.Join(Renderings(clauses), op.Separator())
    }

    /** A filter of two or more clauses renders as its first clause, the
        separator, and the rest rendered under the same operator. */
    lemma RenderingCons()
      requires |clauses| >= 2
      ensures ToSql() == clauses[0].ToSql() + op.Separator() + Filter(clauses[1..], op).ToSql()
    {
    }

    /** `Filter::is_empty`: no clauses, which is exactly when the filter
        renders to no text at all. */
    predicate IsEmpty()
      ensures IsEmpty() <==> |clauses| == 0
      ensures IsEmpty() <==> ToSql() == ""
    {
      |clauses| == 0
    }

    /** `Filter::add`: appends one clause and keeps everything else. A
        `Record` value is matched by membership, any other value by
        equality. The new clause is joined to the old ones with the filter's
        own operator. */
    function Add(column: Column, value: Value): (r: Filter)
      ensures r.op == op
      ensures |r.clauses| == |clauses| + 1 && r.clauses[..|clauses|] == clauses
      ensures r.clauses[|clauses|] == if value.Record? then In(column, value.inner) else Equal(column, value)
      ensures r.ToSql() == Appended(r.clauses[|clauses|])
    {
      var c := if value.Record? then In(column, value.inner) else Equal(column, value);
      AppendRendering(c);
      Filter(clauses + [c], op)
    }

    /** `Filter::add_not`: as `Add`, with the negated comparisons. */
    function AddNot(column: Column, value: Value): (r: Filter)
      ensures r.op == op
      ensures |r.clauses| == |clauses| + 1 && r.clauses[..|clauses|] == clauses
      ensures r.clauses[|clauses|] == if value.Record? then NotIn(column, value.inner) else NotEqual(column, value)
      ensures r.ToSql() == Appended(r.clauses[|clauses|])
    {
      var c := if value.Record? then NotIn(column, value.inner) else NotEqual(column, value);
      AppendRendering(c);
      Filter(clauses + [c], op)
    }

    /** The text of this filter once `c` is appended to it. */
    function Appended(c: Comparison): string
    {
      if IsEmpty() then c.ToSql() else ToSql() + op.Separator() + c.ToSql()
    }

    lemma AppendRendering(c: Comparison)
      ensures Filter(clauses + [c], op).ToSql() == Appended(c)
    {
      RenderingsAppend(clauses, [c]);
      if !IsEmpty() {
        JoinAppend(Renderings(clauses), Renderings([c]), op.Separator());
      }
    }

    /** `Filter::concat`: the clauses of both filters under the shared
        operator, with no parentheses added: the result renders as the two
        renderings joined by one separator. Concatenating filters with
        different operators is refused by an assertion in the source. */
    function Concat(other: Filter): (r: Filter)
      requires op == other.op
      ensures r.op == op && r.clauses == clauses + other.clauses
      ensures |r.clauses| == |clauses| + |other.clauses|
      ensures IsEmpty() ==> r == other
      ensures other.IsEmpty() ==> r == this
      ensures !IsEmpty() && !other.IsEmpty() ==> r.ToSql() == ToSql() + op.Separator() + other.ToSql()
    {
      if !IsEmpty() && !other.IsEmpty() then
        ConcatRendering(other);
        Filter(clauses + other.clauses, op)
      else
        assert IsEmpty() ==> clauses + other.clauses == other.clauses;
        assert other.IsEmpty() ==> clauses + other.clauses == clauses;
        Filter(clauses + other.clauses, op)
    }

    lemma ConcatRendering(other: Filter)
      requires !IsEmpty() && !other.IsEmpty()
      ensures Filter(clauses + other.clauses, op).ToSql() == ToSql() + op.Separator() + Filter(other.clauses, op).ToSql()
    {
      RenderingsAppend(clauses, other.clauses);
      JoinAppend(Renderings(clauses), Renderings(other.clauses), op.Separator());
    }

    /** `Filter::join`: merging into an empty filter gives the other filter
        itself; otherwise both sides become parenthesised sub-filters joined
        by `joinOp`, even when the other side is empty. */
    function Join(joinOp: JoinOp, other: Filter): (r: Filter)
      ensures IsEmpty() ==> r == other
      ensures !IsEmpty() ==> r.op == joinOp && r.clauses == [Group(this), Group(other)]
      ensures !IsEmpty() ==> r.ToSql() == Parenthesised(ToSql()) + joinOp.Separator() + Parenthesised(other.ToSql())
    {
      if IsEmpty() then other
      else
        JoinRendering(joinOp, other);
        Filter([Group(this), Group(other)], joinOp)
    }

    lemma JoinRendering(joinOp: JoinOp, other: Filter)
      ensures Filter([Group(this), Group(other)], joinOp).ToSql()
              == Parenthesised(ToSql()) + joinOp.Separator() + Parenthesised(other.ToSql())
    {
      var cs := [Group(this), Group(other)];
      var x, y := Group(this).ToSql(), Group(other).ToSql();
      assert |Renderings(cs)| == 2 && Renderings(cs)[0] == x && Renderings(cs)[1] == y;
      assert Renderings(cs) == [x, y];
      Text.JoinPair(x, y, joinOp.Separator());
      assert Filter(cs, joinOp).ToSql() == Text.Join(Renderings(cs), joinOp.Separator());
    }

    /** `Filter::or`. */
    function Or(other: Filter): (r: Filter)
      ensures IsEmpty() ==> r == other
      ensures !IsEmpty() ==> r.ToSql() == Parenthesised(ToSql()) + " OR " + Parenthesised(other.ToSql())
    {
      Join(JoinOp.Or, other)
    }

    /** `Filter::and`. */
    function And(other: Filter): (r: Filter)
      ensures IsEmpty() ==> r == other
      ensures !IsEmpty() ==> r.ToSql() == Parenthesised(ToSql()) + " AND " + Parenthesised(other.ToSql())
    {
      Join(JoinOp.And, other)
    }
  }

  /** `Filter::default()`. */
  function Empty(): (f: Filter)
    ensures f.IsEmpty() && f.op == And
  {
    Filter([], And)
  }

  /** Merging into the default filter is the identity, for both operators. */
  lemma EmptyIsIdentity(f: Filter)
    ensures Empty().And(f) == f && Empty().Or(f) == f
    ensures Empty().And(f).ToSql() == f.ToSql()
  {
  }

  /** `Add` uses the filter's current operator, not always AND: once a
      non-empty filter has been merged with `Or`, a predicate added to the
      result is joined with ` OR `. */
  lemma AddAfterOrJoinsWithOr(f: Filter, g: Filter, column: Column, value: Value)
    requires !f.IsEmpty()
    ensures f.Or(g).Add(column, value).ToSql()
            == Parenthesised(f.ToSql()) + " OR " + Parenthesised(g.ToSql()) + " OR "
               + f.Or(g).Add(column, value).clauses[2].ToSql()
  {
  }

  /** What a single added predicate renders to, for each kind: a `Record`
      value is matched with `= ANY(..)` (or `<> ANY(..)` by `add_not`) over
      its inner value; any other value with `=` (or `<>`). */
  lemma AddedPredicateRendering(column: Column, value: Value)
    ensures !value.Record? ==> Empty().Add(column, value).ToSql() == ColumnSql(column) + " = " + ValueSql(value)
    ensures value.Record? ==> Empty().Add(column, value).ToSql() == ColumnSql(column) + " = ANY(" + ValueSql(value.inner) + ")"
    ensures !value.Record? ==> Empty().AddNot(column, value).ToSql() == ColumnSql(column) + " <> " + ValueSql(value)
    ensures value.Record? ==> Empty().AddNot(column, value).ToSql() == ColumnSql(column) + " <> ANY(" + ValueSql(value.inner) + ")"
  {
  }

  /** A negated comparison never renders like the comparison it negates:
      `=` against `<>`, and `= ANY(..)` against `<> ANY(..)`. */
  lemma NegationDiffers(column: Column, value: Value)
    ensures Equal(column, value).ToSql() != NotEqual(column, value).ToSql()
    ensures In(column, value).ToSql() != NotIn(column, value).ToSql()
  {
  }

  /** `add` and `add_not` with the same column and value never produce the
      same SQL, whatever the filter they extend. */
  lemma AddNotDiffersFromAdd(f: Filter, column: Column, value: Value)
    ensures f.Add(column, value).ToSql() != f.AddNot(column, value).ToSql()
  {
  }

  /** The WHERE clause of a query: one filter, updated in place. */
  class WhereClause {
    var filter: Filter

    /** `WhereClause::default()`: no predicates, operator AND. */
    constructor ()
      ensures filter == Empty()
    {
      filter := Empty();
    }

    /** `WhereClause::or`: the stored filter becomes its merge with `f` under OR. */
    method Or(f: Filter)
      modifies this
      ensures filter == old(filter).Or(f)
    {
      filter := filter.Or(f);
    }

    /** `WhereClause::and`: the stored filter becomes its merge with `f` under AND. */
    method And(f: Filter)
      modifies this
      ensures filter == old(filter).And(f)
    {
      filter := filter.And(f);
    }

    /** `WhereClause::add`: one predicate appended to the stored filter. */
    method Add(column: Column, value: Value)
      modifies this
      ensures filter == old(filter).Add(column, value)
    {
      filter := filter.Add(column, value);
    }

    /** `WhereClause::concat`: the clauses of `f` appended without grouping. */
    method Concat(f: Filter)
      requires filter.op == f.op
      modifies this
      ensures filter == old(filter).Concat(f)
    {
      filter := filter.Concat(f);
    }

    /** `WhereClause::clear`: every predicate removed, the operator kept. */
    method Clear()
      modifies this
      ensures filter.IsEmpty() && filter.op == old(filter.op)
    {
      filter := Filter([], filter.op);
    }

    /** `WhereClause::filter`: a copy of the stored filter. */
    method CurrentFilter() returns (f: Filter)
      ensures f == filter
    {
      f := filter;
    }

    /** `WhereClause::to_sql`: nothing for an empty filter, otherwise the
        keyword WHERE, with a leading space, before the filter's text. */
    function ToSql(): (r: string)
      reads this
      ensures r == "" <==> filter.IsEmpty()
      ensures !filter.IsEmpty() ==> r == " WHERE " + filter.ToSql()
    {
      if filter.IsEmpty() then "" else " WHERE " + filter.ToSql()
    }
  }
}
