/**
 The casual-versus-registered view: keep the days of a closed date range and
 total `casual`, `registered` and `cnt` per month.
 */
module Monthly {
  import opened Wrappers
  import opened Table

  /** The mask `(dteday >= start) & (dteday <= end)`. */
  function InRange(start: Date, end: Date): Record -> bool {
    (x: Record) => DateLe(start, x.date) && DateLe(x.date, end)
  }

  /** Line 79: the rows dated within [start, end], both ends included. */
  function DateFilter(rows: seq<Record>, start: Date, end: Date): (r: seq<Record>)
    ensures forall x :: x in r <==> x in rows && DateLe(start, x.date) && DateLe(x.date, end)
  {
    Filter(rows, InRange(start, end))
  }

  /** A start after the end selects nothing. */
  lemma DateFilterEmptyWhenReversed(rows: seq<Record>, start: Date, end: Date)
    requires !DateLe(start, end)
    ensures DateFilter(rows, start, end) == []
  {
    var r := DateFilter(rows, start, end);
    if r != [] {
      assert r[0] in r;
      DateLeIsTotalOrder(start, r[0].date, end);
    }
  }

  /** The date filter keeps rows in their input order: it commutes with concatenation. */
  lemma DateFilterKeepsOrder(a: seq<Record>, b: seq<Record>, start: Date, end: Date)
    ensures DateFilter(a + b, start, end) == DateFilter(a, start, end) + DateFilter(b, start, end)
  {
    FilterAppend(a, b, InRange(start, end));
  }

  /** One row of `groupby('mnth').agg({'casual': 'sum', 'registered': 'sum', 'cnt': 'sum'})`. */
  datatype MonthTotal = MonthTotal(month: int, casual: int, registered: int, cnt: int)

  function Get(t: MonthTotal, c: Column): int {
    match c
    case Casual => t.casual
    case Registered => t.registered
    case Cnt => t.cnt
  }

  /** The group holding one row. */
  function Single(x: Record): MonthTotal {
    MonthTotal(x.month, x.casual, x.registered, x.cnt)
  }

  /** A group with one more row added to it, each column summed on its own. */
  function Plus(t: MonthTotal, x: Record): MonthTotal {
    MonthTotal(t.month, t.casual + x.casual, t.registered + x.registered, t.cnt + x.cnt)
  }

  /** The group of `rows`, all of month `m`, summed column by column. */
  function TotalsOf(m: int, rows: seq<Record>): MonthTotal {
    MonthTotal(m, Sum(rows, Casual), Sum(rows, Registered), Sum(rows, Cnt))
  }

  function Keys(g: seq<MonthTotal>): set<int> {
    if g == [] then {} else {g[0].month} + Keys(g[1..])
  }

  /** Every key of `g` is larger than `k`. */
  predicate Above(k: int, g: seq<MonthTotal>) {
    forall m :: m in Keys(g) ==> k < m
  }

  /** Months strictly ascending, as `groupby` sorts them. */
  predicate Ascending(g: seq<MonthTotal>) {
    g == [] || (Above(g[0].month, g[1..]) && Ascending(g[1..]))
  }

  /** The group of month `m`, if there is one. */
  function Lookup(g: seq<MonthTotal>, m: int): Option<MonthTotal> {
    if g == [] then None
    else if g[0].month == m then Some(g[0])
    else Lookup(g[1..], m)
  }

  /** Column `c` summed over all groups. */
  function TotalOf(g: seq<MonthTotal>, c: Column): int {
    if g == [] then 0 else Get(g[0], c) + TotalOf(g[1..], c)
  }

  lemma {:induction false} LookupFindsKeys(g: seq<MonthTotal>, m: int)
    ensures Lookup(g, m).Some? <==> m in Keys(g)
  {
    if g != [] {
      LookupFindsKeys(g[1..], m);
    }
  }

  lemma {:induction false} KeysHoldMonths(g: seq<MonthTotal>, i: nat)
    requires i < |g|
    ensures g[i].month in Keys(g)
  {
    if i > 0 {
      KeysHoldMonths(g[1..], i - 1);
    }
  }

  /** Ascending groups have one entry per key. */
  lemma {:induction false} AscendingSize(g: seq<MonthTotal>)
    requires Ascending(g)
    ensures |g| == |Keys(g)|
  {
    if g != [] {
      AscendingSize(g[1..]);
      assert g[0].month !in Keys(g[1..]);
    }
  }

  lemma {:induction false} AscendingOrdered(g: seq<MonthTotal>, i: nat, j: nat)
    requires Ascending(g) && i < j < |g|
    ensures g[i].month < g[j].month
  {
    if i == 0 {
      KeysHoldMonths(g[1..], j - 1);
    } else {
      AscendingOrdered(g[1..], i - 1, j - 1);
    }
  }

  /** Add one row to its month's group, opening the group in month order if it is new. */
  function AddRow(g: seq<MonthTotal>, x: Record): seq<MonthTotal> {
    if g == [] then [Single(x)]
    else if g[0].month == x.month then [Plus(g[0], x)] + g[1..]
    else if x.month < g[0].month then [Single(x)] + g
    else [g[0]] + AddRow(g[1..], x)
  }

  /** The group a row lands in, given what its month held before. */
  function Merge(before: Option<MonthTotal>, x: Record): MonthTotal {
    match before
    case None => Single(x)
    case Some(t) => Plus(t, x)
  }

  /** Adding a row keeps the months ascending, changes only its month's group, and adds its counts to every column total. */
  lemma {:induction false} AddRowSpec(g: seq<MonthTotal>, x: Record)
    requires Ascending(g)
    ensures Ascending(AddRow(g, x))
    ensures Keys(AddRow(g, x)) == Keys(g) + {x.month}
    ensures forall m :: Lookup(AddRow(g, x), m) == if m == x.month then Some(Merge(Lookup(g, m), x)) else Lookup(g, m)
    ensures forall c :: TotalOf(AddRow(g, x), c) == TotalOf(g, c) + Field(x, c)
  {
    var r := AddRow(g, x);
    if g == [] {
    } else if g[0].month == x.month {
      assert r[1..] == g[1..];
    } else if x.month < g[0].month {
      assert r[1..] == g;
      LookupFindsKeys(g, x.month);
    } else {
      AddRowSpec(g[1..], x);
      assert r[1..] == AddRow(g[1..], x);
    }
  }

  /** `groupby('mnth')` summing `casual`, `registered` and `cnt` independently. */
  function MonthlyTotals(rows: seq<Record>): seq<MonthTotal> {
    if rows == [] then [] else AddRow(MonthlyTotals(rows[1..]), rows[0])
  }

  lemma {:induction false} MonthlyTotalsAscending(rows: seq<Record>)
    ensures Ascending(MonthlyTotals(rows))
  {
    if rows != [] {
      MonthlyTotalsAscending(rows[1..]);
      AddRowSpec(MonthlyTotals(rows[1..]), rows[0]);
    }
  }

  /** The set of months present. */
  function Months(rows: seq<Record>): set<int> {
    set x | x in rows :: x.month
  }

  lemma {:induction false} MonthlyTotalsKeys(rows: seq<Record>)
    ensures Keys(MonthlyTotals(rows)) == Months(rows)
  {
    if rows != [] {
      MonthlyTotalsAscending(rows[1..]);
      MonthlyTotalsKeys(rows[1..]);
      AddRowSpec(MonthlyTotals(rows[1..]), rows[0]);
      assert Months(rows) == {rows[0].month} + Months(rows[1..]) by {
        assert forall x :: x in rows <==> x == rows[0] || x in rows[1..];
      }
    }
  }

  /** One output row per distinct month present, months ascending. */
  lemma MonthlyTotalsShape(rows: seq<Record>)
    ensures |MonthlyTotals(rows)| == |Months(rows)|
    ensures forall i, j :: 0 <= i < j < |MonthlyTotals(rows)| ==> MonthlyTotals(rows)[i].month < MonthlyTotals(rows)[j].month
    ensures forall i :: 0 <= i < |MonthlyTotals(rows)| ==> MonthlyTotals(rows)[i].month in Months(rows)
  {
    var g := MonthlyTotals(rows);
    MonthlyTotalsAscending(rows);
    MonthlyTotalsKeys(rows);
    AscendingSize(g);
    forall i, j | 0 <= i < j < |g|
      ensures g[i].month < g[j].month
    {
      AscendingOrdered(g, i, j);
    }
    forall i | 0 <= i < |g|
      ensures g[i].month in Months(rows)
    {
      KeysHoldMonths(g, i);
    }
  }

  /** The mask `df['mnth'] == m`. */
  function MonthMask(m: int): Record -> bool {
    (x: Record) => x.month == m
  }

  /**
   A month has a group exactly when some row falls in it, and the group holds
   the three columns of those rows, each summed directly.
   */
  lemma {:induction false} MonthlyTotalsLookup(rows: seq<Record>, m: int)
    ensures Lookup(MonthlyTotals(rows), m) ==
      var f := Filter(rows, MonthMask(m));
      if f == [] then None else Some(TotalsOf(m, f))
  {
    if rows != [] {
      MonthlyTotalsAscending(rows[1..]);
      MonthlyTotalsLookup(rows[1..], m);
      AddRowSpec(MonthlyTotals(rows[1..]), rows[0]);
      if rows[0].month == m {
        var rest := Filter(rows[1..], MonthMask(m));
        assert Filter(rows, MonthMask(m)) == [rows[0]] + rest;
        assert ([rows[0]] + rest)[1..] == rest;
        assert Sum([rows[0]] + rest, Casual) == rows[0].casual + Sum(rest, Casual);
        assert Sum([rows[0]] + rest, Registered) == rows[0].registered + Sum(rest, Registered);
        assert Sum([rows[0]] + rest, Cnt) == rows[0].cnt + Sum(rest, Cnt);
      }
    }
  }

  /** Summed over all months, each column equals the same column summed over the input rows. */
  lemma {:induction false} MonthlyTotalsConserve(rows: seq<Record>, c: Column)
    ensures TotalOf(MonthlyTotals(rows), c) == Sum(rows, c)
  {
    if rows != [] {
      MonthlyTotalsAscending(rows[1..]);
      MonthlyTotalsConserve(rows[1..], c);
      AddRowSpec(MonthlyTotals(rows[1..]), rows[0]);
    }
  }

  /** A row, or a group, whose `cnt` is its `casual` plus its `registered`. */
  predicate RowConsistent(x: Record) {
    x.cnt == x.casual + x.registered
  }

  predicate GroupConsistent(t: MonthTotal) {
    t.cnt == t.casual + t.registered
  }

  /** If every day has `cnt == casual + registered`, so does every monthly group. */
  lemma {:induction false} MonthlyTotalsConsistent(rows: seq<Record>)
    requires forall x :: x in rows ==> RowConsistent(x)
    ensures forall i :: 0 <= i < |MonthlyTotals(rows)| ==> GroupConsistent(MonthlyTotals(rows)[i])
  {
    if rows != [] {
      assert rows[0] in rows;
      MonthlyTotalsConsistent(rows[1..]);
      AddRowConsistent(MonthlyTotals(rows[1..]), rows[0]);
    }
  }

  lemma {:induction false} AddRowConsistent(g: seq<MonthTotal>, x: Record)
    requires RowConsistent(x)
    requires forall i :: 0 <= i < |g| ==> GroupConsistent(g[i])
    ensures forall i :: 0 <= i < |AddRow(g, x)| ==> GroupConsistent(AddRow(g, x)[i])
  {
    if g != [] && g[0].month != x.month && x.month >= g[0].month {
      AddRowConsistent(g[1..], x);
      assert AddRow(g, x)[1..] == AddRow(g[1..], x);
    }
  }

  /** Lines 79-86: the date-range filter followed by the monthly group-sum. */
  function MonthlyUsage(day: seq<Record>, start: Date, end: Date): seq<MonthTotal> {
    MonthlyTotals(DateFilter(day, start, end))
  }

  /** A start after the end gives no months at all. */
  lemma MonthlyUsageEmptyWhenReversed(day: seq<Record>, start: Date, end: Date)
    requires !DateLe(start, end)
    ensures MonthlyUsage(day, start, end) == []
  {
    DateFilterEmptyWhenReversed(day, start, end);
  }

  /** The monthly totals of every column add up to the same column over the days in range. */
  lemma MonthlyUsageConserves(day: seq<Record>, start: Date, end: Date)
    ensures forall c :: TotalOf(MonthlyUsage(day, start, end), c) == Sum(DateFilter(day, start, end), c)
  {
    forall c {
      MonthlyTotalsConserve(DateFilter(day, start, end), c);
    }
  }
}
