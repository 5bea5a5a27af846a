/** Small concrete inputs and what the pipeline makes of them. */
module Scenarios {
  import opened Wrappers
  import opened Records
  import opened Filters
  import opened Metrics
  import opened Hourly

  /** The day ordinal of 2011-01-01 (day 1 is 0001-01-01). */
  const NewYear2011: int := 734138

  /** One day of 100 rides (80 registered, 20 casual), filtered to that very
      day, gives the four tiles 100, 100.00, 80 and 20. */
  lemma SingleDaySummary()
    ensures var days := [DayRecord(NewYear2011, 1, 100, 80, 20)];
      Summarize(Apply(Criteria(NewYear2011, NewYear2011, [], []), days, []).days)
        == Summary(100, Some(100.0), 80, 20)
  {
    var days := [DayRecord(NewYear2011, 1, 100, 80, 20)];
    var v := Apply(Criteria(NewYear2011, NewYear2011, [], []), days, []);
    FilterKeepsAllDays(days, NewYear2011);
    assert v.days == days;
    assert days[1..] == [];
    assert Seqs.Sum(days, Rides) == 100;
    assert Seqs.Sum(days, RegisteredRides) == 80;
    assert Seqs.Sum(days, CasualRides) == 20;
    assert Seqs.RealSum(days, RidesReal) == 100.0;
  }

  lemma FilterKeepsAllDays(days: seq<DayRecord>, day: int)
    requires forall i :: 0 <= i < |days| ==> days[i].dteday == day
    ensures DaysInRange(days, day, day) == days
  {
    Seqs.FilterKeepsAll(days, DayInRange(day, day));
  }

  /** Three Monday rows of one day: two at 08:00 (50 and 70 rides) and one at 17:00 (30 rides). */
  function MondayRows(day: int): seq<HourRecord>
  {
    [HourRecord(day, 8, 1, 1, 50), HourRecord(day, 8, 1, 1, 70),
     HourRecord(day, 17, 1, 1, 30)]
  }

  lemma MondayRowsGroups(day: int)
    ensures Seqs.Filter(MondayRows(day), InCell(8, 1)) == MondayRows(day)[..2]
    ensures Seqs.Filter(MondayRows(day), InCell(17, 1)) == MondayRows(day)[2..]
  {
    var hours := MondayRows(day);
    var last := hours[2..];
    assert hours[1..][1..] == last;
    assert last[1..] == [];
    assert Seqs.Filter(last, InCell(8, 1)) == [];
    assert Seqs.Filter(last, InCell(17, 1)) == last;
    assert Seqs.Filter(hours[1..], InCell(8, 1)) == [hours[1]];
    assert Seqs.Filter(hours[1..], InCell(17, 1)) == last;
  }

  /** The 08:00 cell averages 50 and 70. */
  lemma MondayMorningCell(day: int)
    ensures (8, 1) in HourlyTable(MondayRows(day))
    ensures HourlyTable(MondayRows(day))[(8, 1)] == 60.0
  {
    var hours := MondayRows(day);
    MondayRowsGroups(day);
    var rows := hours[..2];
    assert (hours[0].hr, hours[0].weekday) == (8, 1);
    assert rows[1..] == [hours[1]] && rows[1..][1..] == [];
    assert Seqs.RealSum(rows[1..], HourRides) == 70.0;
    assert Seqs.RealSum(rows, HourRides) == 120.0;
    HourlyTableCellMeans(hours, (8, 1));
  }

  /** The 17:00 cell holds the one row of 30 rides. */
  lemma MondayEveningCell(day: int)
    ensures (17, 1) in HourlyTable(MondayRows(day))
    ensures HourlyTable(MondayRows(day))[(17, 1)] == 30.0
  {
    var hours := MondayRows(day);
    MondayRowsGroups(day);
    var rows := hours[2..];
    assert (hours[2].hr, hours[2].weekday) == (17, 1);
    assert rows[1..] == [];
    assert Seqs.RealSum(rows, HourRides) == 30.0;
    HourlyTableCellMeans(hours, (17, 1));
  }

  /** Their table has a cell for the two pairs that occur and no other. */
  lemma MondayRowsKeys(day: int)
    ensures HourlyTable(MondayRows(day)).Keys == {(8, 1), (17, 1)}
  {
    var hours := MondayRows(day);
    var t := HourlyTable(hours);
    assert (hours[0].hr, hours[0].weekday) == (8, 1);
    assert (hours[2].hr, hours[2].weekday) == (17, 1);
    forall k | k in t ensures k in {(8, 1), (17, 1)} {
      var i :| 0 <= i < |hours| && (hours[i].hr, hours[i].weekday) == k;
    }
  }

  /** Their table holds exactly the cells (8, 1) = 60 and (17, 1) = 30. */
  lemma MondayRowsTable(day: int)
    ensures HourlyTable(MondayRows(day)).Keys == {(8, 1), (17, 1)}
    ensures HourlyTable(MondayRows(day))[(8, 1)] == 60.0
    ensures HourlyTable(MondayRows(day))[(17, 1)] == 30.0
  {
    MondayRowsKeys(day);
    MondayMorningCell(day);
    MondayEveningCell(day);
  }

  /** A table with the cells (8, 1) = 60 and (17, 1) = 30 has one column,
      Monday's, whose peak is 08:00 with 60 rides. */
  lemma MondayWeekdayPeaks(t: map<(int, int), real>)
    requires t.Keys == {(8, 1), (17, 1)} && t[(8, 1)] == 60.0 && t[(17, 1)] == 30.0
    ensures WeekdayPeaks(t) == [None, Some(Peak(1, 8, 60.0)), None, None, None, None, None]
  {
    PeakIsFirstMaximum(t, 1);
    var p := PeakOf(t, 1).value;
    assert (p.hour, 1) in t;
    assert t[(8, 1)] <= p.usage;
    forall d: Weekday | d != 1 ensures PeakOf(t, d).None? {
      assert forall h :: (h, d) !in t.Keys;
    }
  }

  /** Listing a single peak on the second weekday. */
  lemma OnePeakListed(a: Peak)
    ensures PeaksFrom([None, Some(a), None, None, None, None, None], 0) == [a]
  {
    var os := [None, Some(a), None, None, None, None, None];
    NoPeakListed(os, 2);
  }

  lemma MondayTablePeaks(t: map<(int, int), real>)
    requires t.Keys == {(8, 1), (17, 1)} && t[(8, 1)] == 60.0 && t[(17, 1)] == 30.0
    ensures Peaks(t) == [Peak(1, 8, 60.0)]
  {
    MondayWeekdayPeaks(t);
    OnePeakListed(Peak(1, 8, 60.0));
  }

  /** The report drawn from the single Monday peak. */
  lemma MondayReport()
    ensures ReportOf([Peak(1, 8, 60.0)]) == PeakReport(Some(8), Some(60.0))
  {
    var ps := [Peak(1, 8, 60.0)];
    assert PeakHours(ps) == [8];
    assert Seqs.RealSum(ps, PeakUsage) == 60.0;
  }

  /** The insight on the three rows reports hour 8 with a peak usage of 60. */
  lemma MondayRowsInsight(day: int)
    ensures PeakInsight(MondayRows(day)) == PeakReport(Some(8), Some(60.0))
  {
    MondayRowsTable(day);
    MondayTablePeaks(HourlyTable(MondayRows(day)));
    MondayReport();
  }

  /** Sunday's only cell is 17:00 and Monday's cells at 08:00 and 17:00
      tie at 40 rides: `idxmax` gives Monday the smaller hour, 8. */
  lemma TiedColumnPeaks(t: map<(int, int), real>)
    requires t.Keys == {(17, 0), (8, 1), (17, 1)}
    requires t[(17, 0)] == 40.0 && t[(8, 1)] == 40.0 && t[(17, 1)] == 40.0
    ensures PeakOf(t, 0) == Some(Peak(0, 17, 40.0))
    ensures PeakOf(t, 1) == Some(Peak(1, 8, 40.0))
    ensures forall d: Weekday :: d > 1 ==> PeakOf(t, d).None?
  {
    PeakIsFirstMaximum(t, 0);
    PeakIsFirstMaximum(t, 1);
    var p0 := PeakOf(t, 0).value;
    var p1 := PeakOf(t, 1).value;
    assert (p0.hour, 0) in t;
    assert (p1.hour, 1) in t;
    assert p1.hour == 8;
    forall d: Weekday | d > 1 ensures PeakOf(t, d).None? {
      assert forall h :: (h, d) !in t.Keys;
    }
  }

  /** The two peak hours 17 and 8 are equally frequent: `mode()[0]` reports
      the smaller, 8. */
  lemma TiedModeIsSmaller()
    ensures Mode([17, 8]) == Some(8)
  {
    var hs: seq<Hour> := [17, 8];
    assert multiset(hs)[8] == 1 && multiset(hs)[17] == 1;
  }

  /** On that table Sunday peaks at 17:00 and Monday at 08:00, both with
      40 rides, and the reported hour is 8. */
  lemma TiedWeekdayPeaks(t: map<(int, int), real>)
    requires t.Keys == {(17, 0), (8, 1), (17, 1)}
    requires t[(17, 0)] == 40.0 && t[(8, 1)] == 40.0 && t[(17, 1)] == 40.0
    ensures WeekdayPeaks(t) == [Some(Peak(0, 17, 40.0)), Some(Peak(1, 8, 40.0)), None, None, None, None, None]
  {
    TiedColumnPeaks(t);
  }

  /** Listing two leading peaks followed by five empty weekdays. */
  lemma TwoPeaksListed(a: Peak, b: Peak)
    ensures PeaksFrom([Some(a), Some(b), None, None, None, None, None], 0) == [a, b]
  {
    var os := [Some(a), Some(b), None, None, None, None, None];
    NoPeakListed(os, 2);
  }

  lemma TiesGoToTheSmallerHour(t: map<(int, int), real>)
    requires t.Keys == {(17, 0), (8, 1), (17, 1)}
    requires t[(17, 0)] == 40.0 && t[(8, 1)] == 40.0 && t[(17, 1)] == 40.0
    ensures Peaks(t) == [Peak(0, 17, 40.0), Peak(1, 8, 40.0)]
    ensures Mode(PeakHours(Peaks(t))) == Some(8)
  {
    TiedWeekdayPeaks(t);
    TwoPeaksListed(Peak(0, 17, 40.0), Peak(1, 8, 40.0));
    assert PeakHours([Peak(0, 17, 40.0), Peak(1, 8, 40.0)]) == [17, 8];
    TiedModeIsSmaller();
  }
}
