/**
 The overview metrics, and how the totals of the other views agree with them.
 */
module Overview {
  import opened Table
  import Season
  import Monthly
  import Export

  /** The three overview figures: days, hours, renters. */
  datatype Metrics = Metrics(days: nat, hours: nat, renters: int)

  /** Lines 35-37: `day_df.shape[0]`, `hour_df.shape[0]` and `day_df['cnt'].sum()`. */
  function OverviewMetrics(day: seq<Record>, hour: seq<HourRecord>): Metrics {
    Metrics(|day|, |hour|, Sum(day, Cnt))
  }

  /** When every season code is known, the season view over `'All'` accounts for every renter. */
  lemma RentersBySeason(day: seq<Record>, hour: seq<HourRecord>)
    requires forall x :: x in day ==> Season.ValidCode(x)
    ensures Season.Total(Season.SeasonView(day, Season.All)) == OverviewMetrics(day, hour).renters
  {
    Season.SeasonViewAll(day);
  }

  /** A date range that covers every day makes the monthly view account for every renter. */
  lemma RentersByMonth(day: seq<Record>, hour: seq<HourRecord>, start: Date, end: Date)
    requires forall x :: x in day ==> DateLe(start, x.date) && DateLe(x.date, end)
    ensures Monthly.TotalOf(Monthly.MonthlyUsage(day, start, end), Cnt) == OverviewMetrics(day, hour).renters
  {
    FilterKeepsAll(day, Monthly.InRange(start, end));
    Monthly.MonthlyUsageConserves(day, start, end);
  }

  /**
   The export holds as many rows as the two row counts together, and when
   every day has `cnt == casual + registered` the renters are the casual plus
   the registered renters.
   */
  lemma OverviewFigures(day: seq<Record>, hour: seq<HourRecord>)
    ensures |Export.Concat(day, hour)| == OverviewMetrics(day, hour).days + OverviewMetrics(day, hour).hours
    ensures (forall x :: x in day ==> x.cnt == x.casual + x.registered) ==>
      OverviewMetrics(day, hour).renters == Sum(day, Casual) + Sum(day, Registered)
  {
    Export.ConcatShape(day, hour);
    if forall x :: x in day ==> x.cnt == x.casual + x.registered {
      SumCntSplits(day);
    }
  }
}
