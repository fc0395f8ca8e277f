/** The collaborators the query builders render through: columns, values
    and the escaping of names and literals. Their Rust definitions are not
    part of this model; these are minimal concrete stand-ins that produce
    the texts the source's own tests expect (`"t"."c"`, `'value'`, `42`,
    `{56, 67}`). Nothing is proved about escaping. */
module Sql {
  import opened Text

  datatype Option<T> = None | Some(value: T)

  /** A column, optionally qualified by its table. */
  datatype Column = Column(table: Option<string>, name: string)
  {
    /** The same column with its table dropped. */
    function Unqualify(): (r: Column)
      ensures r.table == None && r.name == name
    {
      Column(None, name)
    }
  }

  /** `Column::new(table, name)`. */
  function Qualified(table: string, name: string): Column
  {
    Column(Some(table), name)
  }

  /** `Column::name(name)`: a column with no table. */
  function Named(name: string): Column
  {
    Column(None, name)
  }

  /** A double-quoted identifier. */
  function Quote(name: string): string
  {
    "\"" + name + "\""
  }

  /** `Column::to_sql`: `"table"."name"` or `"name"`. */
  function ColumnSql(c: Column): (r: string)
    ensures c.table == None ==> r == Quote(c.name)
  {
    match c.table
    case Some(t) => Quote(t) + "." + Quote(c.name)
    case None => Quote(c.name)
  }

  /** A value bound into a query. `Record` marks a value that stands for a
      set of rows and is matched by membership. */
  datatype Value =
    | String(text: string)
    | Integer(number: int)
    | List(items: seq<Value>)
    | Record(inner: Value)

  /** `Value::to_sql`: the literal text of a value. */
  function ValueSql(v: Value): string
    decreases v
  {
    match v
    case String(s) => "'" + Double(s, '\'') + "'"
    case Integer(i) => IntSql(i)
    case List(items) => "{" + Join(ValuesSql(items), ", ") + "}"
    case Record(inner) => ValueSql(inner)
  }

  function ValuesSql(vs: seq<Value>): seq<string>
    decreases vs
  {
    if vs == [] then [] else [ValueSql(vs[0])] + ValuesSql(vs[1..])
  }

  /** `String::escape` applied to a table name before it is put between
      double quotes. */
  function EscapeIdentifier(s: string): string
  {
    Double(s, '"')
  }
}
