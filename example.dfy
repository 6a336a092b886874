/** A two-day table worked through the season and monthly views. */
module Example {
  import opened Table
  import Season
  import Monthly

  function TwoDays(): seq<Record> {
    [ Record(Date(2011, 1, 1), Code(1), 1, 50, 200, 250),
      Record(Date(2011, 2, 1), Code(1), 2, 30, 100, 130) ]
  }

  /** Both days are spring: one group, 250 + 130 renters. */
  lemma SpringTotal()
    ensures Season.SeasonView(TwoDays(), "Spring") == [Season.SeasonTotal("Spring", 380)]
  {
    Season.SeasonViewOneSeason(TwoDays(), "Spring");
    assert Filter(TwoDays(), Season.CodeMask(1)) == TwoDays();
  }

  /** January alone keeps only the first day, as one month group. */
  lemma JanuaryTotals()
    ensures Monthly.MonthlyUsage(TwoDays(), Date(2011, 1, 1), Date(2011, 1, 31)) == [Monthly.MonthTotal(1, 50, 200, 250)]
  {
    var jan := Filter(TwoDays(), Monthly.InRange(Date(2011, 1, 1), Date(2011, 1, 31)));
    assert jan == [TwoDays()[0]];
  }
}
