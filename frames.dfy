/** The part of a pandas table the record normalisers rely on: a table is a
    list of columns and a list of rows, each row a map from column to cell
    (the column type `K` is each normaliser's own set of headers); and the
    numeric coercion `pd.to_numeric(col, errors='coerce').fillna(0)` applied
    column by column. */
module Frames {
  import opened Json
  import opened Seqs

  type Row<K> = map<K, Value>

  datatype Frame<K> = Frame(columns: seq<K>, rows: seq<Row<K>>)

  /** `pd.DataFrame()`: no columns and no rows. */
  function Empty<K>(): (f: Frame<K>)
    ensures f.columns == [] && f.rows == []
  {
    Frame([], [])
  }

  /** One cell through `to_numeric(errors='coerce')` and `fillna(0)`: a
      number stays as it is, a missing value becomes 0, and anything else
      is parsed by `parse` (pandas' own parsing of strings and other
      objects), 0 when it does not parse. */
  function ToNumeric(v: Value, parse: Value -> Option<real>): (r: Value)
    ensures r.Num?
    ensures v.Num? ==> r == v
    ensures v.Null? ==> r == Num(0.0)
    ensures !v.Num? && !v.Null? && parse(v).None? ==> r == Num(0.0)
    ensures !v.Num? && !v.Null? && parse(v).Some? ==> r == Num(parse(v).value)
  {
    match v
    case Num(_) => v
    case Null => Num(0.0)
    case _ => Num(parse(v).GetOr(0.0))
  }

  /** Coercing a column twice is the same as coercing it once. */
  lemma ToNumericIdempotent(v: Value, parse: Value -> Option<real>)
    ensures ToNumeric(ToNumeric(v, parse), parse) == ToNumeric(v, parse)
  {
  }

  /** A row once the columns in `numeric` are coerced: those cells through
      `ToNumeric`, every other cell as it was, and the same columns. */
  function CoerceRow<K>(row: Row<K>, numeric: set<K>, parse: Value -> Option<real>): (r: Row<K>) {
    map c | c in row.Keys :: if c in numeric then ToNumeric(row[c], parse) else row[c]
  }

  lemma CoerceRowShape<K>(row: Row<K>, numeric: set<K>, parse: Value -> Option<real>)
    ensures CoerceRow(row, numeric, parse).Keys == row.Keys
    ensures forall c :: c in row && c in numeric ==> CoerceRow(row, numeric, parse)[c] == ToNumeric(row[c], parse)
    ensures forall c :: c in row && c !in numeric ==> CoerceRow(row, numeric, parse)[c] == row[c]
  {
  }

  /** `df[col] = pd.to_numeric(df[col], errors='coerce').fillna(0)`. */
  function CoerceColumn<K>(rows: seq<Row<K>>, col: K, parse: Value -> Option<real>): (r: seq<Row<K>>)
    requires forall i :: 0 <= i < |rows| ==> col in rows[i]
  {
    seq(|rows|, i requires 0 <= i < |rows| => rows[i][col := ToNumeric(rows[i][col], parse)])
  }

  /** Coercing one more column of a partly coerced row. */
  lemma CoerceRowStep<K>(row: Row<K>, done: set<K>, col: K, parse: Value -> Option<real>)
    requires col in row
    ensures var r := CoerceRow(row, done, parse);
      col in r && r[col := ToNumeric(r[col], parse)] == CoerceRow(row, done + {col}, parse)
  {
    var r := CoerceRow(row, done, parse);
    var s := CoerceRow(row, done + {col}, parse);
    assert r[col] == if col in done then ToNumeric(row[col], parse) else row[col];
    ToNumericIdempotent(row[col], parse);
    assert r[col := ToNumeric(r[col], parse)].Keys == s.Keys;
  }

  /** The column loop of both normalisers: every column named in `numeric`
      is coerced in every row, and nothing else changes. */
  method CoerceColumns<K>(df: Frame<K>, numeric: seq<K>, parse: Value -> Option<real>) returns (out: Frame<K>)
    requires forall i :: 0 <= i < |df.rows| ==> Elems(numeric) <= df.rows[i].Keys
    ensures out.columns == df.columns && |out.rows| == |df.rows|
    ensures forall i :: 0 <= i < |out.rows| ==> out.rows[i] == CoerceRow(df.rows[i], Elems(numeric), parse)
  {
    var rows := df.rows;
    for k := 0 to |numeric|
      invariant |rows| == |df.rows|
      invariant forall i :: 0 <= i < |rows| ==> rows[i] == CoerceRow(df.rows[i], Elems(numeric[..k]), parse)
    {
      var col := numeric[k];
      assert col in Elems(numeric);
      forall i | 0 <= i < |rows|
        ensures col in rows[i]
        ensures rows[i][col := ToNumeric(rows[i][col], parse)] == CoerceRow(df.rows[i], Elems(numeric[..k + 1]), parse)
      {
        CoerceRowStep(df.rows[i], Elems(numeric[..k]), col, parse);
        assert numeric[..k + 1] == numeric[..k] + [col];
        ElemsSnoc(numeric[..k], col);
      }
      rows := CoerceColumn(rows, col, parse);
    }
    assert numeric[..|numeric|] == numeric;
    out := Frame(df.columns, rows);
  }
}
