/**
 * The tables the flattener produces (pandas DataFrames without dtypes): named
 * columns in order, one cell sequence per column, and a row count.
 */
module Tables {
  import opened Wrappers
  import opened Dicts

  /** A table cell; `None` is pandas' missing value. */
  type Cell = Option<string>

  /** The exceptions the core can raise. */
  datatype Error =
    | MissingAttribute(name: string)   // KeyError from `element.attrib[name]`
    | NoObjectsToConcatenate           // ValueError from `pd.concat([])`

  datatype Table = Table(columns: seq<string>, data: map<string, seq<Cell>>, rows: nat)

  /** Column names are distinct, each has cells, and every column has one cell per row. */
  ghost predicate Valid(t: Table) {
    Distinct(t.columns) &&
    (forall c :: c in t.data <==> c in t.columns) &&
    forall c :: c in t.columns ==> |t.data[c]| == t.rows
  }

  /** `[x] * n` */
  function Repeat(x: Cell, n: nat): (r: seq<Cell>)
    ensures |r| == n
    ensures forall i :: 0 <= i < n ==> r[i] == x
  {
    if n == 0 then [] else [x] + Repeat(x, n - 1)
  }

  /** `pd.DataFrame(columns=cols)`: every named column, no rows. */
  function EmptyTable(cols: seq<string>): (t: Table)
    ensures Valid(t)
    ensures forall c :: c in t.columns <==> c in cols
    ensures t.rows == 0
  {
    var names := Dedup(cols);
    Table(names, map c | c in names :: [], 0)
  }

  /** The cells of column `c`, or nulls when `t` has no such column. */
  function ColumnOf(t: Table, c: string): seq<Cell> {
    if c in t.data then t.data[c] else Repeat(None, t.rows)
  }

  /**
   * `pd.concat([a, b])`: the rows of `a` followed by the rows of `b`, over the union
   * of their columns; a column one side lacks is null on that side's rows.
   */
  function Append(a: Table, b: Table): (r: Table)
    requires Valid(a) && Valid(b)
    ensures Valid(r)
    ensures forall c :: c in r.columns <==> c in a.columns || c in b.columns
    ensures r.rows == a.rows + b.rows
  {
    var names := Dedup(a.columns + b.columns);
    Table(names, map c | c in names :: ColumnOf(a, c) + ColumnOf(b, c), a.rows + b.rows)
  }

  /** Every column of `Append(a, b)`, present or not, is `a`'s cells over `b`'s. */
  lemma ColumnOfAppend(a: Table, b: Table, c: string)
    requires Valid(a) && Valid(b)
    ensures ColumnOf(Append(a, b), c) == ColumnOf(a, c) + ColumnOf(b, c)
  {
    if c !in Append(a, b).columns {
      RepeatAdd(None, a.rows, b.rows);
    }
  }

  lemma RepeatAdd(x: Cell, m: nat, n: nat)
    ensures Repeat(x, m + n) == Repeat(x, m) + Repeat(x, n)
  {
  }

  /** `pd.concat(ts)`: the tables' rows one table after the other; raises on an empty list. */
  function Concat(ts: seq<Table>): (r: Result<Table, Error>)
    requires forall i :: 0 <= i < |ts| ==> Valid(ts[i])
    ensures ts == [] <==> r == Err(NoObjectsToConcatenate)
  {
    if ts == [] then Err(NoObjectsToConcatenate) else Ok(AppendAll(ts))
  }

  function AppendAll(ts: seq<Table>): (r: Table)
    requires ts != []
    requires forall i :: 0 <= i < |ts| ==> Valid(ts[i])
    ensures Valid(r)
  {
    if |ts| == 1 then ts[0] else Append(AppendAll(ts[..|ts| - 1]), ts[|ts| - 1])
  }

  /** Total number of rows of `ts`. */
  function SumRows(ts: seq<Table>): nat {
    if ts == [] then 0 else SumRows(ts[..|ts| - 1]) + ts[|ts| - 1].rows
  }

  /** Column `c` of every table of `ts`, one under the other, null where a table lacks it. */
  function Stacked(ts: seq<Table>, c: string): seq<Cell> {
    if ts == [] then [] else Stacked(ts[..|ts| - 1], c) + ColumnOf(ts[|ts| - 1], c)
  }

  /** Some table of `ts` has column `c`. */
  predicate SomeHas(ts: seq<Table>, c: string) {
    exists i :: 0 <= i < |ts| && c in ts[i].columns
  }

  /**
   * Concatenation keeps every row and every column: it has the rows of all tables,
   * a column exactly when some table has it, and each column is the tables' cells
   * stacked in order, null-filled where a table lacks the column.
   */
  lemma {:induction false} ConcatShape(ts: seq<Table>)
    requires ts != []
    requires forall i :: 0 <= i < |ts| ==> Valid(ts[i])
    ensures Concat(ts).Ok?
    ensures Concat(ts).value.rows == SumRows(ts)
    ensures forall c :: c in Concat(ts).value.columns <==> SomeHas(ts, c)
    ensures forall c :: ColumnOf(Concat(ts).value, c) == Stacked(ts, c)
  {
    var n := |ts|;
    if n == 1 {
      assert ts[..0] == [];
      forall c ensures c in ts[0].columns <==> SomeHas(ts, c) {
      }
    } else {
      var init := ts[..n - 1];
      ConcatShape(init);
      var a := AppendAll(init);
      forall c ensures ColumnOf(AppendAll(ts), c) == Stacked(ts, c) {
        ColumnOfAppend(a, ts[n - 1], c);
      }
      forall c ensures c in AppendAll(ts).columns <==> SomeHas(ts, c) {
        SomeHasSnoc(ts, c);
      }
    }
  }

  lemma SomeHasSnoc(ts: seq<Table>, c: string)
    requires ts != []
    ensures SomeHas(ts, c) <==> SomeHas(ts[..|ts| - 1], c) || c in ts[|ts| - 1].columns
  {
    if SomeHas(ts, c) && !(c in ts[|ts| - 1].columns) {
      var i :| 0 <= i < |ts| && c in ts[i].columns;
      assert ts[..|ts| - 1][i].columns == ts[i].columns;
    }
  }

  /** `df[name] = v`: set (or add, at the end) a column holding `v` on every row. */
  function SetColumn(t: Table, name: string, v: string): (r: Table)
    requires Valid(t)
    ensures Valid(r)
    ensures r.columns == if name in t.columns then t.columns else t.columns + [name]
    ensures r.rows == t.rows
    ensures r.data[name] == Repeat(Some(v), t.rows)
    ensures forall c :: c in t.columns && c != name ==> r.data[c] == t.data[c]
  {
    var cols := if name in t.columns then t.columns else t.columns + [name];
    Table(cols, t.data[name := Repeat(Some(v), t.rows)], t.rows)
  }

  /** Some cell of the column is not null. */
  predicate HasValue(col: seq<Cell>) {
    exists i :: 0 <= i < |col| && col[i].Some?
  }

  /** The columns of `cols` that hold some value, in order. */
  function NonNullColumns(cols: seq<string>, data: map<string, seq<Cell>>): (r: seq<string>)
    requires forall c :: c in cols ==> c in data
    ensures forall c :: c in r <==> c in cols && HasValue(data[c])
    ensures Distinct(cols) ==> Distinct(r)
  {
    if cols == [] then []
    else
      var init := NonNullColumns(cols[..|cols| - 1], data);
      var last := cols[|cols| - 1];
      if HasValue(data[last]) then
        assert Distinct(cols) ==> Distinct(cols[..|cols| - 1]) && last !in cols[..|cols| - 1];
        init + [last]
      else init
  }

  /**
   * `df.dropna(axis=1, how='all')`: drop every column without a value, which
   * includes every column of a table with no rows; rows and kept cells stay.
   */
  function DropAllNullColumns(t: Table): (r: Table)
    requires Valid(t)
    ensures Valid(r)
    ensures forall c :: c in r.columns <==> c in t.columns && HasValue(t.data[c])
    ensures forall c :: c in r.columns ==> r.data[c] == t.data[c]
    ensures r.rows == t.rows
  {
    var cols := NonNullColumns(t.columns, t.data);
    Table(cols, map c | c in cols :: t.data[c], t.rows)
  }
}
