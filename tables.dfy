/** The data frames the fetchers return, reduced to what the collectors do
    with them: set a constant column, reorder the columns, write CSV lines. */
module Tables {
  import opened Text
  import opened Seqs

  /** A frame with named columns and rows of cells, row-major. */
  datatype Frame = Frame(columns: seq<string>, rows: seq<seq<string>>)

  /** No name occurs twice. */
  ghost predicate Distinct(s: seq<string>)
  {
    forall x :: multiset(s)[x] <= 1
  }

  /** A fresh name can be added at either end. */
  lemma DistinctWith(s: seq<string>, x: string)
    requires Distinct(s) && x !in s
    ensures Distinct(s + [x]) && Distinct([x] + s)
  {
    assert multiset(s)[x] == 0;
  }

  predicate WellFormed(f: Frame)
  {
    forall i :: 0 <= i < |f.rows| ==> |f.rows[i]| == |f.columns|
  }

  /** What pd.DataFrame builds: every row as wide as the header. */
  type Table = f: Frame | WellFormed(f) witness Frame([], [])

  const SymbolColumn: string := "symbol"

  /** Position of the column called `x`. */
  function IndexOf(s: seq<string>, x: string): (k: nat)
    requires x in s
    ensures k < |s| && s[k] == x
    ensures forall j :: 0 <= j < k ==> s[j] != x
  {
    if s[0] == x then 0 else 1 + IndexOf(s[1..], x)
  }

  lemma IndexOfExtended(s: seq<string>, y: string, x: string)
    requires x in s
    ensures IndexOf(s + [y], x) == IndexOf(s, x)
  {
    var k := IndexOf(s, x);
    var k' := IndexOf(s + [y], x);
    assert (s + [y])[k] == x;
  }

  /** `df[name][i]`: the cell of row i under the column called `name`. */
  function Cell(t: Table, i: nat, name: string): string
    requires i < |t.rows| && name in t.columns
  {
    t.rows[i][IndexOf(t.columns, name)]
  }

  /** `df[name] = value`: the column `name` is overwritten in place, or
      appended as the last column when the frame lacks it. */
  function WithColumn(t: Table, name: string, value: string): (r: Table)
    ensures r.columns == if name in t.columns then t.columns else t.columns + [name]
    ensures |r.rows| == |t.rows|
  {
    if name in t.columns then
      var k := IndexOf(t.columns, name);
      Frame(t.columns, seq(|t.rows|, i requires 0 <= i < |t.rows| => t.rows[i][k := value]))
    else
      Frame(t.columns + [name], seq(|t.rows|, i requires 0 <= i < |t.rows| => t.rows[i] + [value]))
  }

  /** After `df[name] = value` every row holds `value` under `name`, and
      every other column keeps its cells. */
  lemma WithColumnCell(t: Table, name: string, value: string, i: nat, c: string)
    requires i < |t.rows| && (c == name || c in t.columns)
    ensures c in WithColumn(t, name, value).columns
    ensures Cell(WithColumn(t, name, value), i, c) == if c == name then value else Cell(t, i, c)
  {
    var r := WithColumn(t, name, value);
    if name !in t.columns {
      if c == name {
        assert IndexOf(r.columns, c) == |t.columns|;
      } else {
        IndexOfExtended(t.columns, name, c);
      }
    }
  }

  /** The column list without `x`, the others in their order. */
  function Without(s: seq<string>, x: string): (r: seq<string>)
    ensures x !in r
    ensures forall y :: y in r <==> y in s && y != x
    ensures IsSubsequence(r, s)
  {
    var r := Filter(s, y => y != x);
    assert forall y :: (y in r <==> y in multiset(r)) && (y in s <==> y in multiset(s));
    r
  }

  /** The column list of `cols = ['symbol'] + [c for c in df.columns if c != 'symbol']`. */
  function SymbolFirst(columns: seq<string>): seq<string>
  {
    [SymbolColumn] + Without(columns, SymbolColumn)
  }

  lemma WithoutDistinct(s: seq<string>, x: string)
    requires Distinct(s)
    ensures Distinct(Without(s, x))
  {
    var r := Without(s, x);
    assert r == Filter(s, y => y != x);
    forall y
      ensures multiset(r)[y] <= 1
    {
      assert multiset(r)[y] == if y != x then multiset(s)[y] else 0;
    }
  }

  lemma WithoutExtended(s: seq<string>, x: string)
    ensures Without(s + [x], x) == Without(s, x)
  {
    WithoutOfSnoc(s, x);
  }

  lemma {:induction false} WithoutOfSnoc(s: seq<string>, x: string)
    ensures Filter(s + [x], y => y != x) == Filter(s, y => y != x)
  {
    if |s| == 0 {
      assert Filter([x], y => y != x) == Filter([x][1..], y => y != x);
    } else {
      assert (s + [x])[1..] == s[1..] + [x];
      WithoutOfSnoc(s[1..], x);
    }
  }

  /** The cells of `row` (laid out by `columns`) picked by the names `cols`. */
  function Pick(row: seq<string>, columns: seq<string>, cols: seq<string>): (r: seq<string>)
    requires |row| == |columns|
    requires forall c :: c in cols ==> c in columns
    ensures |r| == |cols|
    ensures forall j :: 0 <= j < |cols| ==> r[j] == row[IndexOf(columns, cols[j])]
  {
    seq(|cols|, j requires 0 <= j < |cols| => row[IndexOf(columns, cols[j])])
  }

  /** `df[cols]`: the columns named by `cols`, in that order. */
  function Select(t: Table, cols: seq<string>): (r: Table)
    requires forall c :: c in cols ==> c in t.columns
    ensures r.columns == cols && |r.rows| == |t.rows|
  {
    Frame(cols, seq(|t.rows|, i requires 0 <= i < |t.rows| => Pick(t.rows[i], t.columns, cols)))
  }

  /** Under each selected name the selection holds that column's cells. */
  lemma SelectCell(t: Table, cols: seq<string>, i: nat, c: string)
    requires forall c :: c in cols ==> c in t.columns
    requires i < |t.rows| && c in cols
    ensures Cell(Select(t, cols), i, c) == Cell(t, i, c)
  {
  }

  /** src/data_utils.py:152-154: tag every row with the symbol and move
      that column to the front. */
  function TagSymbol(t: Table, symbol: string): Table
  {
    var tagged := WithColumn(t, SymbolColumn, symbol);
    Select(tagged, SymbolFirst(tagged.columns))
  }

  /** After tagging, "symbol" is the first column and nowhere else, the other
      columns follow in their original order, every row starts with the
      symbol, and every other column keeps its cells. */
  lemma TagSymbolShape(t: Table, symbol: string)
    ensures var r := TagSymbol(t, symbol);
      && r.columns == [SymbolColumn] + Without(t.columns, SymbolColumn)
      && SymbolColumn !in r.columns[1..]
      && IsSubsequence(r.columns[1..], t.columns)
      && |r.rows| == |t.rows|
      && (forall i :: 0 <= i < |r.rows| ==> r.rows[i][0] == symbol)
      && (forall i, c :: 0 <= i < |t.rows| && c in t.columns && c != SymbolColumn ==>
            c in r.columns && Cell(r, i, c) == Cell(t, i, c))
  {
    TagSymbolColumns(t, symbol);
    var r := TagSymbol(t, symbol);
    assert r.columns[1..] == Without(t.columns, SymbolColumn);
    forall i | 0 <= i < |r.rows|
      ensures r.rows[i][0] == symbol
    {
      TagSymbolFirst(t, symbol, i);
    }
    forall i, c | 0 <= i < |t.rows| && c in t.columns && c != SymbolColumn
      ensures c in r.columns && Cell(r, i, c) == Cell(t, i, c)
    {
      TagSymbolCell(t, symbol, i, c);
    }
  }

  lemma TagSymbolColumns(t: Table, symbol: string)
    ensures TagSymbol(t, symbol).columns == [SymbolColumn] + Without(t.columns, SymbolColumn)
  {
    if SymbolColumn !in t.columns {
      WithoutExtended(t.columns, SymbolColumn);
    }
  }

  lemma TagSymbolFirst(t: Table, symbol: string, i: nat)
    requires i < |t.rows|
    ensures |TagSymbol(t, symbol).rows[i]| > 0 && TagSymbol(t, symbol).rows[i][0] == symbol
  {
    var tagged := WithColumn(t, SymbolColumn, symbol);
    var cols := SymbolFirst(tagged.columns);
    WithColumnCell(t, SymbolColumn, symbol, i, SymbolColumn);
    assert Select(tagged, cols).rows[i][0] == tagged.rows[i][IndexOf(tagged.columns, SymbolColumn)];
  }

  lemma TagSymbolCell(t: Table, symbol: string, i: nat, c: string)
    requires i < |t.rows| && c in t.columns && c != SymbolColumn
    ensures c in TagSymbol(t, symbol).columns
    ensures Cell(TagSymbol(t, symbol), i, c) == Cell(t, i, c)
  {
    var tagged := WithColumn(t, SymbolColumn, symbol);
    var cols := SymbolFirst(tagged.columns);
    WithColumnCell(t, SymbolColumn, symbol, i, c);
    assert c in cols[1..];
    SelectCell(tagged, cols, i, c);
  }

  /** A frame whose column names are distinct keeps them distinct. */
  lemma TagSymbolDistinct(t: Table, symbol: string)
    requires Distinct(t.columns)
    ensures Distinct(TagSymbol(t, symbol).columns)
  {
    var tagged := WithColumn(t, SymbolColumn, symbol);
    if SymbolColumn !in t.columns {
      DistinctWith(t.columns, SymbolColumn);
    }
    WithoutDistinct(tagged.columns, SymbolColumn);
    DistinctWith(Without(tagged.columns, SymbolColumn), SymbolColumn);
  }

  /** One CSV line: the cells separated by commas. */
  function CsvLine(cells: seq<string>): string
  {
    Join(cells, ",")
  }

  function CsvHeader(t: Table): string
  {
    CsvLine(t.columns)
  }

  function CsvRows(t: Table): (r: seq<string>)
    ensures |r| == |t.rows|
    ensures forall i :: 0 <= i < |r| ==> r[i] == CsvLine(t.rows[i])
  {
    seq(|t.rows|, i requires 0 <= i < |t.rows| => CsvLine(t.rows[i]))
  }
}
