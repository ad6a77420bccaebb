/**
 * DataFrames as values: a row count and a map from column name to the
 * column's cells. Because a Frame is a value, an operation can never change
 * the frame its caller holds, which is what the source's df.copy() ensures.
 */
module Frames {
  import opened Wrappers

  /** One cell of a column: a number, a string, or a missing value (NaN/None). */
  datatype Cell = Num(x: real) | Text(s: string) | NA

  datatype Frame = Frame(rows: nat, columns: map<string, seq<Cell>>)

  /** Every column has one cell per row, as in any DataFrame. */
  predicate WellFormed(df: Frame) {
    forall c :: c in df.columns ==> |df.columns[c]| == df.rows
  }

  predicate RowComplete(df: Frame, i: nat)
    requires WellFormed(df) && i < df.rows
  {
    forall c :: c in df.columns ==> df.columns[c][i] != NA
  }

  /** The indices below n of the rows without a missing value, in increasing order. */
  function CompleteRows(df: Frame, n: nat): (kept: seq<nat>)
    requires WellFormed(df) && n <= df.rows
    ensures forall k :: 0 <= k < |kept| ==> kept[k] < n
    ensures forall k, l :: 0 <= k < l < |kept| ==> kept[k] < kept[l]
    ensures forall i :: 0 <= i < n ==> (i in kept <==> RowComplete(df, i))
  {
    if n == 0 then [] else CompleteRows(df, n - 1) + (if RowComplete(df, n - 1) then [n - 1] else [])
  }

  /** dropna(): keeps, in their order, exactly the rows with no missing cell. */
  function DropNa(df: Frame): (r: Frame)
    requires WellFormed(df)
    ensures WellFormed(r) && r.columns.Keys == df.columns.Keys
    ensures r.rows == |CompleteRows(df, df.rows)|
    ensures forall c, j :: c in r.columns && 0 <= j < r.rows ==> r.columns[c][j] != NA
    ensures forall c, j :: c in r.columns && 0 <= j < r.rows ==>
              r.columns[c][j] == df.columns[c][CompleteRows(df, df.rows)[j]]
  {
    var kept := CompleteRows(df, df.rows);
    assert forall j :: 0 <= j < |kept| ==> kept[j] in kept && RowComplete(df, kept[j]);
    Frame(|kept|, map c | c in df.columns :: seq(|kept|, j requires 0 <= j < |kept| => df.columns[c][kept[j]]))
  }

  /** df[names]: the named columns in order; a KeyError names every column that is absent. */
  function Select(df: Frame, names: seq<string>): (r: Result<seq<seq<Cell>>, set<string>>)
    ensures r.Success? <==> forall k :: 0 <= k < |names| ==> names[k] in df.columns
    ensures r.Success? ==> |r.value| == |names|
    ensures r.Success? ==> forall k :: 0 <= k < |names| ==> r.value[k] == df.columns[names[k]]
    ensures r.Failure? ==> r.error != {} && forall n :: n in r.error ==> n in names && n !in df.columns
    ensures r.Failure? ==> forall k :: 0 <= k < |names| && names[k] !in df.columns ==> names[k] in r.error
  {
    var absent := set n | n in names && n !in df.columns;
    assert forall k :: 0 <= k < |names| ==> names[k] in df.columns || names[k] in absent;
    if absent != {} then
      Failure(absent)
    else
      Success(seq(|names|, k requires 0 <= k < |names| => df.columns[names[k]]))
  }

  /** str() of one cell; render stands for Python's formatting of a number. */
  function CellText(render: real -> string, c: Cell): string {
    match c
    case Num(x) => render(x)
    case Text(s) => s
    case NA => "nan"
  }

  /** astype(str) of a column. */
  function AsText(render: real -> string, col: seq<Cell>): seq<string> {
    seq(|col|, i requires 0 <= i < |col| => CellText(render, col[i]))
  }

  function TextCells(texts: seq<string>): seq<Cell> {
    seq(|texts|, i requires 0 <= i < |texts| => Text(texts[i]))
  }

  function Codes(codes: seq<nat>): seq<Cell> {
    seq(|codes|, i requires 0 <= i < |codes| => Num(codes[i] as real))
  }

  function Nums(xs: seq<real>): seq<Cell> {
    seq(|xs|, i requires 0 <= i < |xs| => Num(xs[i]))
  }

  /** Converting a column that already holds strings changes nothing. */
  lemma AsTextOfTextCells(render: real -> string, texts: seq<string>)
    ensures AsText(render, TextCells(texts)) == texts
  {
  }
}
