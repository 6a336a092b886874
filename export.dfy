/**
 The export view: the daily rows followed by the hourly rows in one table.
 The hourly-only column `hr` is missing on the daily rows.
 */
module Export {
  import opened Wrappers
  import opened Table

  /** One row of the unioned table. */
  datatype ExportRow = ExportRow(rec: Record, hr: Option<int>)

  /** The daily rows in the unioned schema: `hr` missing. */
  function FromDaily(day: seq<Record>): (e: seq<ExportRow>)
    ensures |e| == |day|
    ensures forall i :: 0 <= i < |day| ==> e[i] == ExportRow(day[i], None)
  {
    if day == [] then [] else [ExportRow(day[0], None)] + FromDaily(day[1..])
  }

  /** The hourly rows in the unioned schema: `hr` kept. */
  function FromHourly(hour: seq<HourRecord>): (e: seq<ExportRow>)
    ensures |e| == |hour|
    ensures forall i :: 0 <= i < |hour| ==> e[i] == ExportRow(hour[i].rec, Some(hour[i].hr))
  {
    if hour == [] then [] else [ExportRow(hour[0].rec, Some(hour[0].hr))] + FromHourly(hour[1..])
  }

  /** `pd.concat([day_df, hour_df], ignore_index=True)`. */
  function Concat(day: seq<Record>, hour: seq<HourRecord>): seq<ExportRow> {
    FromDaily(day) + FromHourly(hour)
  }

  /**
   The export has exactly `len(day) + len(hour)` rows: first the daily rows
   in order with `hr` missing, then the hourly rows in order with their hour.
   */
  lemma ConcatShape(day: seq<Record>, hour: seq<HourRecord>)
    ensures |Concat(day, hour)| == |day| + |hour|
    ensures forall i :: 0 <= i < |day| ==> Concat(day, hour)[i] == ExportRow(day[i], None)
    ensures forall j :: 0 <= j < |hour| ==> Concat(day, hour)[|day| + j] == ExportRow(hour[j].rec, Some(hour[j].hr))
  {
  }

  /** The hourly rows back from their exported form, if every row has an hour. */
  function ToHourly(e: seq<ExportRow>): Option<seq<HourRecord>> {
    if e == [] then Some([])
    else match (e[0].hr, ToHourly(e[1..]))
      case (Some(h), Some(rest)) => Some([HourRecord(e[0].rec, h)] + rest)
      case _ => None
  }

  /**
   Split an exported table back into its daily and hourly parts: the leading
   rows without an hour are daily, all the rest must be hourly.
   */
  function Unconcat(e: seq<ExportRow>): Option<(seq<Record>, seq<HourRecord>)> {
    if e == [] then Some(([], []))
    else if e[0].hr.None? then
      match Unconcat(e[1..])
      case Some(p) => Some(([e[0].rec] + p.0, p.1))
      case None => None
    else
      match ToHourly(e)
      case Some(h) => Some(([], h))
      case None => None
  }

  lemma {:induction false} HourlyRoundTrip(hour: seq<HourRecord>)
    ensures ToHourly(FromHourly(hour)) == Some(hour)
  {
    if hour != [] {
      assert FromHourly(hour) == [ExportRow(hour[0].rec, Some(hour[0].hr))] + FromHourly(hour[1..]);
      HourlyRoundTrip(hour[1..]);
      assert hour == [HourRecord(hour[0].rec, hour[0].hr)] + hour[1..];
    }
  }

  lemma {:induction false} HourlyRoundTripBack(e: seq<ExportRow>, hour: seq<HourRecord>)
    requires ToHourly(e) == Some(hour)
    ensures FromHourly(hour) == e
  {
    if e != [] {
      var rest := ToHourly(e[1..]).value;
      HourlyRoundTripBack(e[1..], rest);
      assert hour[1..] == rest;
    }
  }

  lemma ConcatCons(day: seq<Record>, hour: seq<HourRecord>)
    requires day != []
    ensures Concat(day, hour) == [ExportRow(day[0], None)] + Concat(day[1..], hour)
  {
    assert FromDaily(day) == [ExportRow(day[0], None)] + FromDaily(day[1..]);
  }

  lemma UnconcatHourly(hour: seq<HourRecord>)
    ensures Unconcat(FromHourly(hour)) == Some(([], hour))
  {
    HourlyRoundTrip(hour);
  }

  /** Splitting the export recovers both tables exactly. */
  lemma {:induction false} ExportRoundTrip(day: seq<Record>, hour: seq<HourRecord>)
    ensures Unconcat(Concat(day, hour)) == Some((day, hour))
  {
    if day == [] {
      assert Concat(day, hour) == FromHourly(hour);
      UnconcatHourly(hour);
    } else {
      ConcatCons(day, hour);
      ExportRoundTrip(day[1..], hour);
      assert day == [day[0]] + day[1..];
    }
  }

  /** Every table the split accepts is the export of what it returns. */
  lemma {:induction false} UnconcatRoundTrip(e: seq<ExportRow>, day: seq<Record>, hour: seq<HourRecord>)
    requires Unconcat(e) == Some((day, hour))
    ensures Concat(day, hour) == e
  {
    if e != [] {
      if e[0].hr.None? {
        var p := Unconcat(e[1..]).value;
        UnconcatRoundTrip(e[1..], p.0, p.1);
        assert day[1..] == p.0;
        assert Concat(day, hour) == [ExportRow(day[0], None)] + Concat(p.0, p.1);
      } else {
        HourlyRoundTripBack(e, hour);
        assert Concat(day, hour) == FromHourly(hour);
      }
    }
  }
}
