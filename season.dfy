/**
 The season view: relabel the numeric season codes, keep the rows of the
 selected season (or all of them), and total `cnt` per season label.
 */
module Season {
  import opened Wrappers
  import opened Table

  /** The selector value that keeps every row. */
  const All := "All"

  /** The fixed label map `{1: 'Spring', 2: 'Summer', 3: 'Fall', 4: 'Winter'}`. */
  function SeasonLabel(code: int): (l: Option<string>)
    ensures l.Some? <==> 1 <= code <= 4
  {
    if code == 1 then Some("Spring")
    else if code == 2 then Some("Summer")
    else if code == 3 then Some("Fall")
    else if code == 4 then Some("Winter")
    else None
  }

  /** The code a label stands for: the label map read backwards. */
  function SeasonCode(name: string): (c: Option<int>)
    ensures c.Some? ==> 1 <= c.value <= 4
  {
    if name == "Spring" then Some(1)
    else if name == "Summer" then Some(2)
    else if name == "Fall" then Some(3)
    else if name == "Winter" then Some(4)
    else None
  }

  /** The label map is one-to-one: `SeasonCode` inverts `SeasonLabel` exactly. */
  lemma LabelCodeInverse(code: int, name: string)
    ensures SeasonLabel(code) == Some(name) <==> SeasonCode(name) == Some(code)
  {
  }

  /**
   `Series.map(season_labels)` on one cell: a known code becomes its label;
   any other code, a missing cell and a cell that already holds a label
   (it is not a key of the map) all become missing.
   */
  function MapCell(c: SeasonCell): (r: SeasonCell)
    ensures !r.Code?
    ensures r.Label? <==> c.Code? && 1 <= c.code <= 4
    ensures r.Label? ==> c.Code? && SeasonLabel(c.code) == Some(r.name)
  {
    match c
    case Code(k) => (match SeasonLabel(k) case Some(l) => Label(l) case None => Missing)
    case _ => Missing
  }

  function RelabelRow(x: Record): Record {
    x.(season := MapCell(x.season))
  }

  /** `day_df['season'] = day_df['season'].map(season_labels)`, as a new table. */
  function Relabel(rows: seq<Record>): (r: seq<Record>)
    ensures |r| == |rows|
    ensures forall i :: 0 <= i < |rows| ==> r[i] == RelabelRow(rows[i])
  {
    if rows == [] then [] else [RelabelRow(rows[0])] + Relabel(rows[1..])
  }

  /** The same column assignment, done in place on the shared table. */
  method RelabelColumn(a: array<Record>)
    modifies a
    ensures a[..] == Relabel(old(a[..]))
  {
    for i := 0 to a.Length
      invariant forall k :: 0 <= k < i ==> a[k] == RelabelRow(old(a[k]))
      invariant forall k :: i <= k < a.Length ==> a[k] == old(a[k])
    {
      a[i] := RelabelRow(a[i]);
    }
  }

  /** A row whose code the label map knows. */
  predicate ValidCode(x: Record) {
    x.season.Code? && 1 <= x.season.code <= 4
  }

  /** A row gets a label exactly when its code is one of 1..4; any other row is left without one. */
  lemma RelabelLabels(rows: seq<Record>)
    ensures forall i :: 0 <= i < |rows| ==> (Relabel(rows)[i].season.Label? <==> ValidCode(rows[i]))
  {
  }

  /** Relabelling is not idempotent: mapping labels through the code map again erases every label. */
  lemma RelabelTwiceErases(rows: seq<Record>)
    ensures forall i :: 0 <= i < |rows| ==> Relabel(Relabel(rows))[i].season == Missing
  {
  }

  /** Relabelling leaves every count column as it was. */
  lemma {:induction false} RelabelKeepsSums(rows: seq<Record>, c: Column)
    ensures Sum(Relabel(rows), c) == Sum(rows, c)
  {
    if rows != [] {
      assert Relabel(rows)[1..] == Relabel(rows[1..]);
      RelabelKeepsSums(rows[1..], c);
    }
  }

  /**
   Filtering the relabelled table with `keep` is relabelling the rows of the
   original table that `pre` keeps, when `pre` asks of a row what `keep` asks
   of its relabelled form.
   */
  lemma {:induction false} RelabelFilter(rows: seq<Record>, keep: Record -> bool, pre: Record -> bool)
    requires forall x :: pre(x) == keep(RelabelRow(x))
    ensures Filter(Relabel(rows), keep) == Relabel(Filter(rows, pre))
  {
    if rows != [] {
      assert Relabel(rows) == [RelabelRow(rows[0])] + Relabel(rows[1..]);
      assert Relabel(rows)[1..] == Relabel(rows[1..]);
      RelabelFilter(rows[1..], keep, pre);
    }
  }

  /** The boolean mask `day_df['season'] == season_filter`. */
  function SeasonMask(selector: string): Record -> bool {
    (x: Record) => x.season == Label(selector)
  }

  /** Lines 54-55: keep the rows of the selected season, or every row for `'All'`. */
  function SelectSeason(rows: seq<Record>, selector: string): (r: seq<Record>)
    ensures selector == All ==> r == rows
    ensures selector != All ==> forall x :: x in r <==> x in rows && x.season == Label(selector)
  {
    if selector == All then rows else Filter(rows, SeasonMask(selector))
  }

  /** Python's ordering of strings: lexicographic on code points. */
  predicate LexLess(a: string, b: string) {
    |b| > 0 && (|a| == 0 || a[0] < b[0] || (a[0] == b[0] && LexLess(a[1..], b[1..])))
  }

  lemma {:induction false} LexLessIrreflexive(a: string)
    ensures !LexLess(a, a)
  {
    if |a| > 0 {
      LexLessIrreflexive(a[1..]);
    }
  }

  lemma {:induction false} LexLessTransitive(a: string, b: string, c: string)
    requires LexLess(a, b) && LexLess(b, c)
    ensures LexLess(a, c)
  {
    if |a| > 0 && a[0] == b[0] && b[0] == c[0] {
      LexLessTransitive(a[1..], b[1..], c[1..]);
    }
  }

  lemma {:induction false} LexLessTotal(a: string, b: string)
    requires a != b
    ensures LexLess(a, b) || LexLess(b, a)
  {
    if |a| > 0 && |b| > 0 && a[0] == b[0] {
      assert a == [a[0]] + a[1..] && b == [b[0]] + b[1..];
      LexLessTotal(a[1..], b[1..]);
    }
  }

  /** In the key order `groupby` uses, the four labels come as Fall, Spring, Summer, Winter. */
  lemma LabelOrder()
    ensures LexLess("Fall", "Spring") && LexLess("Spring", "Summer") && LexLess("Summer", "Winter")
  {
    assert "Spring"[1..] == "pring" && "Summer"[1..] == "ummer";
  }

  /** One row of `groupby('season')['cnt'].sum()`. */
  datatype SeasonTotal = SeasonTotal(name: string, cnt: int)

  function Keys(g: seq<SeasonTotal>): set<string> {
    if g == [] then {} else {g[0].name} + Keys(g[1..])
  }

  /** Every key of `g` comes after `k`. */
  predicate Above(k: string, g: seq<SeasonTotal>) {
    forall x :: x in Keys(g) ==> LexLess(k, x)
  }

  /** Keys strictly ascending, as `groupby` sorts them. */
  predicate Ascending(g: seq<SeasonTotal>) {
    g == [] || (Above(g[0].name, g[1..]) && Ascending(g[1..]))
  }

  /** The total of the group labelled `name`, if there is one. */
  function Lookup(g: seq<SeasonTotal>, name: string): Option<int> {
    if g == [] then None
    else if g[0].name == name then Some(g[0].cnt)
    else Lookup(g[1..], name)
  }

  /** The sum of every group's total. */
  function Total(g: seq<SeasonTotal>): int {
    if g == [] then 0 else g[0].cnt + Total(g[1..])
  }

  lemma {:induction false} LookupFindsKeys(g: seq<SeasonTotal>, name: string)
    ensures Lookup(g, name).Some? <==> name in Keys(g)
  {
    if g != [] {
      LookupFindsKeys(g[1..], name);
    }
  }

  lemma {:induction false} KeysHoldLabels(g: seq<SeasonTotal>, i: nat)
    requires i < |g|
    ensures g[i].name in Keys(g)
  {
    if i > 0 {
      KeysHoldLabels(g[1..], i - 1);
    }
  }

  /** Add `n` to the group `name`, opening it in key order if it is new. */
  function AddCnt(g: seq<SeasonTotal>, name: string, n: int): seq<SeasonTotal> {
    if g == [] then [SeasonTotal(name, n)]
    else if g[0].name == name then [g[0].(cnt := g[0].cnt + n)] + g[1..]
    else if LexLess(name, g[0].name) then [SeasonTotal(name, n)] + g
    else [g[0]] + AddCnt(g[1..], name, n)
  }

  /** Adding to a group keeps the keys ascending, changes only that group, and adds `n` to the grand total. */
  lemma {:induction false} AddCntSpec(g: seq<SeasonTotal>, name: string, n: int)
    requires Ascending(g)
    ensures Ascending(AddCnt(g, name, n))
    ensures Keys(AddCnt(g, name, n)) == Keys(g) + {name}
    ensures forall k :: Lookup(AddCnt(g, name, n), k) == if k == name then Some(Lookup(g, name).GetOr(0) + n) else Lookup(g, k)
    ensures Total(AddCnt(g, name, n)) == Total(g) + n
  {
    var r := AddCnt(g, name, n);
    if g == [] {
    } else if g[0].name == name {
      assert r[1..] == g[1..];
    } else if LexLess(name, g[0].name) {
      assert r[1..] == g;
      forall x | x in Keys(g)
        ensures LexLess(name, x)
      {
        if x != g[0].name {
          LexLessTransitive(name, g[0].name, x);
        }
      }
      LexLessIrreflexive(name);
      LookupFindsKeys(g, name);
    } else {
      LexLessTotal(name, g[0].name);
      AddCntSpec(g[1..], name, n);
      assert r[1..] == AddCnt(g[1..], name, n);
    }
  }

  /** `groupby('season')['cnt'].sum()`: rows without a label join no group. */
  function SeasonCounts(rows: seq<Record>): seq<SeasonTotal> {
    if rows == [] then []
    else
      var rest := SeasonCounts(rows[1..]);
      match rows[0].season
      case Label(l) => AddCnt(rest, l, rows[0].cnt)
      case _ => rest
  }

  lemma {:induction false} SeasonCountsAscending(rows: seq<Record>)
    ensures Ascending(SeasonCounts(rows))
  {
    if rows != [] {
      SeasonCountsAscending(rows[1..]);
      if rows[0].season.Label? {
        AddCntSpec(SeasonCounts(rows[1..]), rows[0].season.name, rows[0].cnt);
      }
    }
  }

  /** The season group-sum has at most one group per label, in ascending label order. */
  lemma SeasonCountsDistinct(rows: seq<Record>)
    ensures forall i, j :: 0 <= i < j < |SeasonCounts(rows)| ==>
      LexLess(SeasonCounts(rows)[i].name, SeasonCounts(rows)[j].name)
      && SeasonCounts(rows)[i].name != SeasonCounts(rows)[j].name
  {
    var g := SeasonCounts(rows);
    SeasonCountsAscending(rows);
    forall i, j | 0 <= i < j < |g|
      ensures LexLess(g[i].name, g[j].name) && g[i].name != g[j].name
    {
      AscendingOrdered(g, i, j);
      LexLessIrreflexive(g[i].name);
    }
  }

  lemma {:induction false} AscendingOrdered(g: seq<SeasonTotal>, i: nat, j: nat)
    requires Ascending(g) && i < j < |g|
    ensures LexLess(g[i].name, g[j].name)
  {
    if i == 0 {
      KeysHoldLabels(g[1..], j - 1);
    } else {
      AscendingOrdered(g[1..], i - 1, j - 1);
    }
  }

  /**
   A name has a group exactly when some row carries it, and that group's
   total is the `cnt` of those rows summed directly.
   */
  lemma {:induction false} SeasonCountsLookup(rows: seq<Record>, name: string)
    ensures Lookup(SeasonCounts(rows), name) ==
      var f := Filter(rows, SeasonMask(name));
      if f == [] then None else Some(Sum(f, Cnt))
  {
    if rows != [] {
      SeasonCountsAscending(rows[1..]);
      SeasonCountsLookup(rows[1..], name);
      if rows[0].season.Label? {
        AddCntSpec(SeasonCounts(rows[1..]), rows[0].season.name, rows[0].cnt);
      }
    }
  }

  /** The group totals add up to the `cnt` of the labelled rows: nothing lost or counted twice. */
  lemma {:induction false} SeasonCountsTotal(rows: seq<Record>)
    ensures Total(SeasonCounts(rows)) == Sum(Filter(rows, (x: Record) => x.season.Label?), Cnt)
  {
    if rows != [] {
      SeasonCountsAscending(rows[1..]);
      SeasonCountsTotal(rows[1..]);
      if rows[0].season.Label? {
        AddCntSpec(SeasonCounts(rows[1..]), rows[0].season.name, rows[0].cnt);
      }
    }
  }

  /** Rows that all carry one label make a single group holding their whole `cnt`, or none if there are no rows. */
  lemma {:induction false} SeasonCountsSingle(rows: seq<Record>, name: string)
    requires forall x :: x in rows ==> x.season == Label(name)
    ensures SeasonCounts(rows) == if rows == [] then [] else [SeasonTotal(name, Sum(rows, Cnt))]
  {
    if rows != [] {
      assert rows[0] in rows;
      SeasonCountsSingle(rows[1..], name);
    }
  }

  /** Lines 50-58: relabel, select, group-sum. */
  function SeasonView(day: seq<Record>, selector: string): seq<SeasonTotal> {
    SeasonCounts(SelectSeason(Relabel(day), selector))
  }

  /** The mask that keeps the rows of one season code. */
  function CodeMask(code: int): Record -> bool {
    (x: Record) => x.season == Code(code)
  }

  /**
   For one selected season the view holds at most one group: the selected
   name with the `cnt` of the rows carrying its code, summed directly on the
   original table; it is empty when no row has that code, and for a selector
   that is no name at all.
   */
  lemma SeasonViewOneSeason(day: seq<Record>, selector: string)
    requires selector != All
    ensures SeasonCode(selector).None? ==> SeasonView(day, selector) == []
    ensures SeasonCode(selector).Some? ==>
      var f := Filter(day, CodeMask(SeasonCode(selector).value));
      SeasonView(day, selector) == if f == [] then [] else [SeasonTotal(selector, Sum(f, Cnt))]
  {
    var kept := Filter(Relabel(day), SeasonMask(selector));
    SeasonCountsSingle(kept, selector);
    match SeasonCode(selector)
    case Some(c) =>
      forall x: Record ensures CodeMask(c)(x) == SeasonMask(selector)(RelabelRow(x)) {
        if x.season.Code? {
          LabelCodeInverse(x.season.code, selector);
        }
      }
      RelabelFilter(day, SeasonMask(selector), CodeMask(c));
      RelabelKeepsSums(Filter(day, CodeMask(c)), Cnt);
    case None =>
      forall x: Record ensures (y => false)(x) == SeasonMask(selector)(RelabelRow(x)) {
        if x.season.Code? {
          LabelCodeInverse(x.season.code, selector);
        }
      }
      RelabelFilter(day, SeasonMask(selector), y => false);
  }

  /**
   With `'All'` the group totals add up to the `cnt` of the rows with a known
   code, and to the whole table's `cnt` when every code is known.
   */
  lemma SeasonViewAll(day: seq<Record>)
    ensures SeasonView(day, All) == SeasonCounts(Relabel(day))
    ensures Total(SeasonView(day, All)) == Sum(Filter(day, ValidCode), Cnt)
    ensures (forall x :: x in day ==> ValidCode(x)) ==> Total(SeasonView(day, All)) == Sum(day, Cnt)
  {
    SeasonCountsTotal(Relabel(day));
    RelabelFilter(day, (x: Record) => x.season.Label?, ValidCode);
    RelabelKeepsSums(Filter(day, ValidCode), Cnt);
    FilterKeepsAll(day, ValidCode);
  }

  /** The view for one season is that label's entry in the view over `'All'`, or nothing when it has none. */
  lemma SeasonViewIsEntryOfAll(day: seq<Record>, selector: string)
    requires selector != All
    ensures SeasonView(day, selector) ==
      match Lookup(SeasonView(day, All), selector)
      case Some(n) => [SeasonTotal(selector, n)]
      case None => []
  {
    SeasonViewAll(day);
    SeasonCountsLookup(Relabel(day), selector);
    SeasonCountsSingle(Filter(Relabel(day), SeasonMask(selector)), selector);
  }
}
