# SQL filter and INSERT builders, modelled in Dafny

This project models two pieces of the query-building layer of the rwf/rum
web framework:

- **Filters** (`rum/src/model/filter.rs`): the predicate algebra behind a
  query's WHERE clause. A `Comparison` is an equality, an inequality, a
  membership test, a negated membership test, or a nested `Filter`. A
  `Filter` is an ordered list of comparisons joined by one `JoinOp`
  (AND or OR). Filters are built by appending predicates (`Add`, `AddNot`),
  merged with `And` / `Or`, which parenthesise both sides unless the
  receiver is empty, or flattened with `Concat` when both use the same
  operator. Every value renders to SQL text. `WhereClause` is a class that
  holds one filter, updates it in place and renders ` WHERE ...` only when
  the filter has clauses.
- **Inserts** (`rwf/src/model/insert.rs`): the `Insert` builder. Its
  constructors store the table, the unqualified columns and the bound
  values (appended one by one, as the source's placeholder list is
  filled). Its rendering is a pure function of its fields:
  `INSERT INTO "<table>" (<cols>) VALUES ($1, ..., $N) <conflict>RETURNING *`.
  The conflict part is chosen by `no_conflict` first, then a non-empty
  `unique_by`, else nothing.

Modules: `Text` (join, decimal formatting, counting), `Sql` (columns,
values and escaping; minimal stand-ins for collaborators whose code is not
part of this model), `Filters`, `FilterExamples` (the source's two unit
tests, in shape form) and `Inserts`.

Notes on behaviour the model follows:

- `Filter::add` joins the new predicate with the filter's *current*
  operator. The doc comments of `Filter::add` and `WhereClause::add` say
  "using the AND operator", but once a non-empty clause has been merged
  with `or`, the stored filter's operator is OR, and later predicates are
  joined with OR. `Filters.AddAfterOrJoinsWithOr` states this.
- Only a `Record` value is classified as membership (`= ANY(...)`). A
  `List` value passed to `add` becomes a plain equality, as the code says,
  although a list is rendered as an array literal.
- `Insert::from_columns` does not compare the number of columns with the
  number of values. The VALUES list always has one marker per *column*.

## Model

| member | source | states |
|---|---|---|
| `Filters.JoinOp.Separator` | rum/src/model/filter.rs:90-99 | the text between two clauses is ` AND ` for AND and ` OR ` for OR; it is built from `Filters.JoinOp.ToSql`, the keyword alone (`JoinOp::to_sql`) |
| `Filters.Comparison.ToSql` | rum/src/model/filter.rs:23-35 | every comparison, nested groups included, renders to non-empty text |
| `Filters.Filter.ToSql` | rum/src/model/filter.rs:193-201 | an empty filter renders to the empty string; a one-clause filter renders as that clause alone |
| `Filters.Filter.RenderingCons` | rum/src/model/filter.rs:193-201 | a filter of two or more clauses renders as its first clause, the separator, then the rest under the same operator |
| `Filters.Filter.IsEmpty` | rum/src/model/filter.rs:132-134 | empty exactly when there are no clauses, and exactly when the filter renders to the empty string |
| `Filters.Filter.Add` | rum/src/model/filter.rs:136-147 | exactly one clause is appended at the end; earlier clauses and the operator are unchanged; the clause is `In(col, inner)` for `Record(inner)`, else `Equal(col, value)`; the new text is the old text, the separator and the clause's text (the clause's text alone when the filter was empty) |
| `Filters.Filter.AddNot` | rum/src/model/filter.rs:149-160 | as `Add`, with `NotIn` / `NotEqual` |
| `Filters.Filter.Concat` | rum/src/model/filter.rs:162-171 | requires equal operators; the result keeps the operator, its clauses are the receiver's followed by the argument's, its length is the sum; concatenating with an empty filter changes nothing; two non-empty filters render as their two texts around one separator, with no parentheses added |
| `Filters.Filter.Join` | rum/src/model/filter.rs:181-190 | an empty receiver returns the argument unchanged; otherwise the result has exactly the two clauses `[Group(self), Group(other)]` under the requested operator (even when the argument is empty) and renders as both texts parenthesised around that operator |
| `Filters.Filter.Or` | rum/src/model/filter.rs:120-124 | identity on an empty receiver; otherwise `(self) OR (other)` |
| `Filters.Filter.And` | rum/src/model/filter.rs:126-130 | identity on an empty receiver; otherwise `(self) AND (other)` |
| `Filters.Empty` | rum/src/model/filter.rs:113-117 | the default filter is empty with operator AND |
| `Filters.EmptyIsIdentity` | rum/src/model/filter.rs:181-184 | `empty.and(f) == f` and `empty.or(f) == f` for every filter `f`, so the renderings agree too |
| `Filters.AddAfterOrJoinsWithOr` | rum/src/model/filter.rs:136-147 | after a non-empty filter is merged with `or`, an added predicate is joined with ` OR `: `(f) OR (g) OR clause` |
| `Filters.AddedPredicateRendering` | rum/src/model/filter.rs:23-35 | the text of each predicate kind, reached through `add` / `add_not` on the default filter: `col = v`, `col = ANY(inner)` for a `Record(inner)`, `col <> v`, `col <> ANY(inner)` |
| `Filters.NegationDiffers` | rum/src/model/filter.rs:23-35 | for the same column and value, `=` and `<>` clauses render differently, and so do `= ANY(..)` and `<> ANY(..)` |
| `Filters.AddNotDiffersFromAdd` | rum/src/model/filter.rs:136-160 | `add` and `add_not` with the same column and value never produce the same SQL, whatever filter they extend |
| `Filters.WhereClause.constructor` | rum/src/model/filter.rs:3-7 | a new WHERE clause holds the default (empty, AND) filter |
| `Filters.WhereClause.Or` | rum/src/model/filter.rs:38-41 | the stored filter becomes the old one merged with the argument under OR |
| `Filters.WhereClause.And` | rum/src/model/filter.rs:43-46 | the stored filter becomes the old one merged with the argument under AND |
| `Filters.WhereClause.Add` | rum/src/model/filter.rs:48-51 | the stored filter becomes `Filter::add` of the old one |
| `Filters.WhereClause.Concat` | rum/src/model/filter.rs:53-57 | requires equal operators; the stored filter becomes the concatenation |
| `Filters.WhereClause.Clear` | rum/src/model/filter.rs:59-62 | the stored filter becomes empty and keeps its operator |
| `Filters.WhereClause.CurrentFilter` | rum/src/model/filter.rs:64-67 | returns the stored filter |
| `Filters.WhereClause.ToSql` | rum/src/model/filter.rs:70-78 | the text is empty exactly when the filter is empty, otherwise it is ` WHERE ` followed by the filter's text |
| `FilterExamples.MixedFilterRendering` | rum/src/model/filter.rs:208-239 | for any clauses `a`, `b`, `x`, `y`: `[a, b, Group([x, y] OR)]` under AND renders as `a AND b AND (x OR y)` |
| `FilterExamples.EqualStringText` | rum/src/model/filter.rs:212-237 | an equality on `"table"."column"` against a string with no single quote renders as `"table"."column" = 'text'`, the first and last clause texts of the first test |
| `FilterExamples.NotEqualIntegerClauseText` | rum/src/model/filter.rs:216-237 | the second clause of the first test renders exactly as `"table_name"."column_b" <> 42` |
| `FilterExamples.NotInPairText` | rum/src/model/filter.rs:219-237 | a negated membership against a two-integer list renders as `"table"."column" <> ANY({a, b})`, the nested clause of the first test |
| `FilterExamples.MergeRendering` | rum/src/model/filter.rs:241-270 | for any clauses: `[a1, a2] OR` merged with `[b1, b2] AND` renders as `(a1 OR a2) AND (b1 AND b2)` with `and` and `(a1 OR a2) OR (b1 AND b2)` with `or` |
| `Inserts.CollectPlaceholders` | rwf/src/model/insert.rs:22-25 | appending the values one at a time to an empty placeholder list yields exactly the values, in order |
| `Inserts.Unqualified` | rwf/src/model/insert.rs:84-89 | same number of columns, each with no table and the same name |
| `Inserts.Markers` | rwf/src/model/insert.rs:73-79 | one marker per column |
| `Inserts.MarkersNumbered` | rwf/src/model/insert.rs:73-79 | the marker at position `i` is `$` followed by the decimal text of `i + 1` |
| `Inserts.MarkersDistinct` | rwf/src/model/insert.rs:73-79 | no two positions share a marker |
| `Inserts.MarkerCount` | rwf/src/model/insert.rs:73-79 | the joined VALUES list holds exactly N `$` signs for N columns |
| `Inserts.Assignments` | rwf/src/model/insert.rs:95-98 | one `"c" = EXCLUDED."c"` assignment per `unique_by` column, in order, each naming the column without its table |
| `Inserts.ConflictClause` | rwf/src/model/insert.rs:81-103 | `no_conflict` gives `ON CONFLICT DO NOTHING ` whatever `unique_by` holds; otherwise a non-empty `unique_by` gives the upsert text; the part is empty exactly when neither applies |
| `Inserts.Render` | rwf/src/model/insert.rs:105-111 | the statement starts with `INSERT INTO "` and always ends with `RETURNING *` |
| `Inserts.NoConflictIgnoresUniqueBy` | rwf/src/model/insert.rs:81-82 | with `no_conflict` set, the statement is the same for every `unique_by`, with `ON CONFLICT DO NOTHING ` before `RETURNING *` |
| `Inserts.ConflictModesDistinct` | rwf/src/model/insert.rs:81-103 | for the same table and columns, the upsert, DO NOTHING and plain statements are pairwise different |
| `Inserts.Insert.New` | rwf/src/model/insert.rs:16-35 | columns are the model's column names in order, each unqualified; the placeholders are the model's values in order; no conflict flag and no `unique_by` |
| `Inserts.Insert.FromColumns` | rwf/src/model/insert.rs:37-52 | every given column unqualified, in input order; the placeholders are the given values in order; lengths are not compared |
| `Inserts.Insert.NoConflict` | rwf/src/model/insert.rs:54-57 | sets the flag and changes nothing else |
| `Inserts.Insert.UniqueBy` | rwf/src/model/insert.rs:59-62 | replaces `unique_by` with the given columns, in order, and changes nothing else |

## Left out

- `Value::to_sql`, `Column::to_sql`, `Column::unqualify` and `String::escape` are not part of this model. The `Sql` module gives minimal stand-ins: `"t"."c"` or `"c"` for columns, quoted strings with doubled quotes, decimal integers and `{a, b}` arrays. Escaping is not verified.
- `Value` has only the variants this core distinguishes (`String`, `Integer`, `List`, `Record`). The 64-bit range of `Integer` is not modelled; nothing here does arithmetic on values.
- `Filters.Filter.Add` and `Filters.Filter.AddNot` return the extended filter instead of pushing onto `self.clauses` in place. A `Filter` is an owned value with no sharing, so replacing it with the result is the same update. `WhereClause`, which the source mutates through `&mut self`, is a class.
- `Filters.Filter.Concat` and `Filters.WhereClause.Concat`: the source's `assert_eq!` on the operators is a precondition here. The panic itself is not modelled.
- `Filters.Comparison.ToSql` states only that a clause's text is non-empty in its own contract. The text of each kind is stated outside the body by `Filters.AddedPredicateRendering` for the four predicate kinds and by `Filters.Filter.Join` for a parenthesised group.
- `FilterExamples.MixedFilterRendering` and `FilterExamples.MergeRendering` prove the layout of the two unit tests for any clauses, not the two whole expected strings as literals. The clause texts of the first test are stated with the stand-in renderers: `FilterExamples.NotEqualIntegerClauseText` literally, and `FilterExamples.EqualStringText` and `FilterExamples.NotInPairText` for any table, column, string or integers, of which the test's texts are instances. The clauses of the second test are of the same kinds.
- `Inserts.NoConflictIgnoresUniqueBy` and `Inserts.ConflictModesDistinct` do not claim that the whole statement never contains `DO UPDATE` (or `DO NOTHING`). Table and column names are arbitrary text and could contain those words. They state what the conflict part is, and that the three modes differ.
- `Insert<T>`'s type parameter, `PhantomData` marker and the `Model` / `FromRow` traits: the table name, column names and values are parameters of the constructors.
- `Insert::no_conflict` and `Insert::unique_by` take `self` by value and return it. They are modelled as in-place updates of the builder, which is the same since ownership moves.
- `Insert::to_sql` is the function `Inserts.Render` over the builder's fields. `Inserts.Insert.ToSql` only delegates to it.
- The commented-out `rewrite_placeholders` in filter.rs is dead code.
- rwf/src/http/request.rs, rum/src/http/head.rs and rum/src/config.rs are not part of this model: they are async I/O, header parsing fused with stream reads, and process-wide configuration.
