/** An optional value: a cell or a group that may be absent (pandas' NaN). */
module Wrappers {

  datatype Option<+T> = None | Some(value: T) {

    /** The wrapped value, or `default` when there is none. */
    function GetOr(default: T): T {
      match this
      case Some(v) => v
      case None => default
    }
  }
}

/**
 The rows of the bike-sharing tables as the dashboard sees them once loaded,
 with the two generic table operations every view is built from: summing a
 count column and keeping the rows a boolean mask selects.
 */
module Table {
  import opened Wrappers

  /** A calendar date, already parsed from `dteday`. */
  datatype Date = Date(year: int, month: int, day: int)

  /** Date comparison: lexicographic on (year, month, day). */
  predicate DateLe(a: Date, b: Date) {
    || a.year < b.year
    || (a.year == b.year && (a.month < b.month || (a.month == b.month && a.day <= b.day)))
  }

  /** `DateLe` is a total order, so date-range filtering is meaningful. */
  lemma DateLeIsTotalOrder(a: Date, b: Date, c: Date)
    ensures DateLe(a, a)
    ensures DateLe(a, b) && DateLe(b, a) ==> a == b
    ensures DateLe(a, b) && DateLe(b, c) ==> DateLe(a, c)
    ensures DateLe(a, b) || DateLe(b, a)
  {
  }

  /**
   The `season` column. It holds numeric codes as loaded and labels once the
   season view has relabelled it in place; a code the label map does not know
   becomes missing.
   */
  datatype SeasonCell = Code(code: int) | Label(name: string) | Missing

  /** One row of the daily table (`day.csv`), restricted to the columns the views read. */
  datatype Record = Record(date: Date, season: SeasonCell, month: int, casual: int, registered: int, cnt: int)

  /** One row of the hourly table (`hour.csv`): the daily columns plus the hour `hr`. */
  datatype HourRecord = HourRecord(rec: Record, hr: int)

  /** The three count columns that the views sum. */
  datatype Column = Casual | Registered | Cnt

  function Field(r: Record, c: Column): int {
    match c
    case Casual => r.casual
    case Registered => r.registered
    case Cnt => r.cnt
  }

  /** `df[c].sum()`. */
  function Sum(rows: seq<Record>, c: Column): int {
    if rows == [] then 0 else Field(rows[0], c) + Sum(rows[1..], c)
  }

  /** `df[mask]`: the rows the mask keeps, in their original order. */
  function Filter(rows: seq<Record>, keep: Record -> bool): (r: seq<Record>)
    ensures |r| <= |rows|
    ensures forall x :: x in r <==> x in rows && keep(x)
  {
    if rows == [] then []
    else if keep(rows[0]) then [rows[0]] + Filter(rows[1..], keep)
    else Filter(rows[1..], keep)
  }

  /** Summing a column distributes over concatenation. */
  lemma {:induction false} SumAppend(a: seq<Record>, b: seq<Record>, c: Column)
    ensures Sum(a + b, c) == Sum(a, c) + Sum(b, c)
  {
    if a == [] {
      assert a + b == b;
    } else {
      assert (a + b)[1..] == a[1..] + b;
      SumAppend(a[1..], b, c);
    }
  }

  /** Filtering distributes over concatenation: it never reorders rows. */
  lemma {:induction false} FilterAppend(a: seq<Record>, b: seq<Record>, keep: Record -> bool)
    ensures Filter(a + b, keep) == Filter(a, keep) + Filter(b, keep)
  {
    if a == [] {
      assert a + b == b;
    } else {
      assert (a + b)[1..] == a[1..] + b;
      FilterAppend(a[1..], b, keep);
    }
  }

  /** A mask keeps the whole table, unchanged and in order, exactly when it accepts every row. */
  lemma {:induction false} FilterKeepsAll(rows: seq<Record>, keep: Record -> bool)
    ensures Filter(rows, keep) == rows <==> forall x :: x in rows ==> keep(x)
  {
    if rows != [] {
      FilterKeepsAll(rows[1..], keep);
      if !keep(rows[0]) {
        assert rows[0] !in Filter(rows, keep);
      }
    }
  }

  /** What a mask keeps plus what it drops adds up to the whole column: nothing is lost or counted twice. */
  lemma {:induction false} FilterSplitsSum(rows: seq<Record>, keep: Record -> bool, c: Column)
    ensures Sum(rows, c) == Sum(Filter(rows, keep), c) + Sum(Filter(rows, x => !keep(x)), c)
  {
    if rows != [] {
      FilterSplitsSum(rows[1..], keep, c);
    }
  }

  /** On rows where `cnt == casual + registered`, the column totals keep that identity. */
  lemma {:induction false} SumCntSplits(rows: seq<Record>)
    requires forall x :: x in rows ==> x.cnt == x.casual + x.registered
    ensures Sum(rows, Cnt) == Sum(rows, Casual) + Sum(rows, Registered)
  {
    if rows != [] {
      assert rows[0] in rows;
      SumCntSplits(rows[1..]);
    }
  }
}
