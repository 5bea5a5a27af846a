/**
 * The hourly heat-map table `groupby(['hr', 'weekday'])['cnt'].mean().unstack()`
 * and the peak-hour insight drawn from it: the per-weekday `idxmax` and
 * `max`, the `mode` of the peak hours and the mean of the maxima.
 */
module Hourly {
  import opened Wrappers
  import opened Seqs
  import opened Records

  /** The rows of one (hour, weekday) group. */
  function InCell(hr: int, wd: int): HourRecord -> bool
  {
    (h: HourRecord) => h.hr == hr && h.weekday == wd
  }

  /** The (hour, weekday) pairs that occur in the hour table. */
  function Cells(hours: seq<HourRecord>): set<(int, int)>
  {
    set h | h in hours :: (h.hr, h.weekday)
  }

  lemma CellsOccur(hours: seq<HourRecord>)
    ensures forall k :: k in Cells(hours) <==> exists i :: 0 <= i < |hours| && (hours[i].hr, hours[i].weekday) == k
  {
  }

  lemma CellNonEmpty(hours: seq<HourRecord>, k: (int, int))
    requires k in Cells(hours)
    ensures |Filter(hours, InCell(k.0, k.1))| > 0
  {
  }

  /** The mean `cnt` of one non-empty group. */
  function CellMean(hours: seq<HourRecord>, k: (int, int)): (r: real)
    requires k in Cells(hours)
    ensures |Filter(hours, InCell(k.0, k.1))| > 0
    ensures r == RealSum(Filter(hours, InCell(k.0, k.1)), HourRides) / |Filter(hours, InCell(k.0, k.1))| as real
  {
    CellNonEmpty(hours, k);
    Mean(Filter(hours, InCell(k.0, k.1)), HourRides).value
  }

  /** The group-by mean table: a cell for exactly the pairs that occur (no
      zero-filled cells), each holding the mean `cnt` of its group. */
  function HourlyTable(hours: seq<HourRecord>): (t: map<(int, int), real>)
    ensures forall k :: k in t <==> exists i :: 0 <= i < |hours| && (hours[i].hr, hours[i].weekday) == k
    ensures forall k :: k in t ==> 0 <= k.0 < 24 && 0 <= k.1 < 7
  {
    CellsOccur(hours);
    map k | k in Cells(hours) :: CellMean(hours, k)
  }

  /** Each cell of the table is the sum of `cnt` over its group divided by
      the size of the group. */
  lemma HourlyTableCellMeans(hours: seq<HourRecord>, k: (int, int))
    requires k in HourlyTable(hours)
    ensures var rows := Filter(hours, InCell(k.0, k.1));
      |rows| > 0 && HourlyTable(hours)[k] == RealSum(rows, HourRides) / |rows| as real
  {
    CellNonEmpty(hours, k);
  }

  /** The column of weekday `wd` in the unstacked table: one entry per hour,
      NaN (`None`) where the pair does not occur. */
  function Column(t: map<(int, int), real>, wd: int): (col: seq<Option<real>>)
    ensures |col| == 24
    ensures forall h :: 0 <= h < 24 ==> col[h] == if (h, wd) in t then Some(t[(h, wd)]) else None
  {
    seq(24, h requires 0 <= h < 24 => if (h, wd) in t then Some(t[(h, wd)]) else None)
  }

  /** A weekday column's `idxmax` (its peak hour) and `max` (its peak usage). */
  datatype Peak = Peak(weekday: Weekday, hour: Hour, usage: real)

  /** The peak of one weekday column; `None` when the weekday has no column. */
  function PeakOf(t: map<(int, int), real>, wd: Weekday): (p: Option<Peak>)
    ensures p.None? <==> forall h :: 0 <= h < 24 ==> (h, wd) !in t
    ensures p.Some? ==> p.value.weekday == wd
  {
    var r := FirstArgMax(Column(t, wd), 0);
    if r.None? then None else Some(Peak(wd, r.value, t[(r.value, wd)]))
  }

  /** A column's peak hour is the smallest hour holding the column's maximum,
      and its usage is that maximum. */
  lemma PeakIsFirstMaximum(t: map<(int, int), real>, wd: Weekday)
    requires PeakOf(t, wd).Some?
    ensures var p := PeakOf(t, wd).value;
      && (p.hour, wd) in t && p.usage == t[(p.hour, wd)]
      && (forall h :: 0 <= h < 24 && (h, wd) in t ==> t[(h, wd)] <= p.usage)
      && (forall h :: 0 <= h < p.hour && (h, wd) in t ==> t[(h, wd)] < p.usage)
  {
  }

  /** The peaks present in `os` from position `wd` on, in position order;
      position `d` of `os` holds the peak of weekday `d`, if any. */
  function PeaksFrom(os: seq<Option<Peak>>, wd: nat): seq<Peak>
    requires wd <= |os|
    decreases |os| - wd
  {
    if wd == |os| then []
    else if os[wd].None? then PeaksFrom(os, wd + 1)
    else [os[wd].value] + PeaksFrom(os, wd + 1)
  }

  /** Every peak listed is the one at its own weekday's position, at or
      after `wd`, in strictly ascending weekday order. */
  lemma {:induction false} PeaksFromSound(os: seq<Option<Peak>>, wd: nat)
    requires wd <= |os|
    requires forall d :: 0 <= d < |os| && os[d].Some? ==> os[d].value.weekday == d
    decreases |os| - wd
    ensures forall i :: 0 <= i < |PeaksFrom(os, wd)| ==>
      wd <= PeaksFrom(os, wd)[i].weekday < |os| && os[PeaksFrom(os, wd)[i].weekday] == Some(PeaksFrom(os, wd)[i])
    ensures forall i, j :: 0 <= i < j < |PeaksFrom(os, wd)| ==> PeaksFrom(os, wd)[i].weekday < PeaksFrom(os, wd)[j].weekday
  {
    if wd < |os| {
      PeaksFromSound(os, wd + 1);
      var rest := PeaksFrom(os, wd + 1);
      if os[wd].Some? {
        var ps := [os[wd].value] + rest;
        assert PeaksFrom(os, wd) == ps;
        assert forall i :: 0 < i < |ps| ==> ps[i] == rest[i - 1];
      }
    }
  }

  /** A peak at position `wd` heads the list from `wd` on. */
  lemma PeaksFromHead(os: seq<Option<Peak>>, wd: nat)
    requires wd < |os| && os[wd].Some?
    ensures PeaksFrom(os, wd) == [os[wd].value] + PeaksFrom(os, wd + 1)
  {
  }

  /** An empty position `wd` adds nothing to the list from `wd` on. */
  lemma PeaksFromSkip(os: seq<Option<Peak>>, wd: nat)
    requires wd < |os| && os[wd].None?
    ensures PeaksFrom(os, wd) == PeaksFrom(os, wd + 1)
  {
  }

  /** A peak at position `d` appears in the list from any `wd <= d` on. */
  lemma {:induction false} PeakListed(os: seq<Option<Peak>>, wd: nat, d: nat)
    requires wd <= d < |os| && os[d].Some?
    requires forall e :: 0 <= e < |os| && os[e].Some? ==> os[e].value.weekday == e
    decreases d - wd
    ensures exists i :: 0 <= i < |PeaksFrom(os, wd)| && PeaksFrom(os, wd)[i].weekday == d
  {
    if d == wd {
      PeaksFromHead(os, wd);
      assert PeaksFrom(os, wd)[0] == os[d].value;
    } else {
      PeakListed(os, wd + 1, d);
      var rest := PeaksFrom(os, wd + 1);
      var i :| 0 <= i < |rest| && rest[i].weekday == d;
      if os[wd].Some? {
        PeaksFromHead(os, wd);
        assert PeaksFrom(os, wd)[i + 1] == rest[i];
      } else {
        PeaksFromSkip(os, wd);
        assert PeaksFrom(os, wd)[i] == rest[i];
      }
    }
  }

  /** A weekday from `wd` on is listed exactly when it has a peak. */
  lemma PeaksFromComplete(os: seq<Option<Peak>>, wd: nat, d: nat)
    requires wd <= d < |os|
    requires forall e :: 0 <= e < |os| && os[e].Some? ==> os[e].value.weekday == e
    ensures os[d].Some? <==> exists i :: 0 <= i < |PeaksFrom(os, wd)| && PeaksFrom(os, wd)[i].weekday == d
  {
    var ps := PeaksFrom(os, wd);
    if os[d].Some? {
      PeakListed(os, wd, d);
    } else {
      PeaksFromSound(os, wd);
      forall i | 0 <= i < |ps| ensures ps[i].weekday != d {
        assert os[ps[i].weekday] == Some(ps[i]);
      }
    }
  }

  /** Where no position holds a peak, none is listed. */
  lemma {:induction false} NoPeakListed(os: seq<Option<Peak>>, wd: nat)
    requires wd <= |os|
    requires forall d :: wd <= d < |os| ==> os[d].None?
    decreases |os| - wd
    ensures PeaksFrom(os, wd) == []
  {
    if wd < |os| {
      NoPeakListed(os, wd + 1);
    }
  }

  /** Peaks in strictly ascending weekday order, all within `[lo, hi)`,
      number at most `hi - lo`. */
  lemma {:induction false} AscendingPeaksFit(ps: seq<Peak>, lo: int, hi: int)
    requires lo <= hi
    requires forall i :: 0 <= i < |ps| ==> lo <= ps[i].weekday < hi
    requires forall i, j :: 0 <= i < j < |ps| ==> ps[i].weekday < ps[j].weekday
    ensures |ps| <= hi - lo
  {
    if |ps| > 0 {
      AscendingPeaksFit(ps[1..], ps[0].weekday + 1, hi);
    }
  }

  /** The peak of every weekday, by weekday. */
  function WeekdayPeaks(t: map<(int, int), real>): (os: seq<Option<Peak>>)
    ensures |os| == 7
    ensures forall d: Weekday :: os[d] == PeakOf(t, d)
    ensures forall d :: 0 <= d < 7 && os[d].Some? ==> os[d].value.weekday == d
  {
    seq(7, d requires 0 <= d < 7 => PeakOf(t, d))
  }

  /** `idxmax(axis=0)` together with `max()`: one peak per weekday column,
      in ascending weekday order, for exactly the weekdays that have a column. */
  function Peaks(t: map<(int, int), real>): (ps: seq<Peak>)
    ensures forall i :: 0 <= i < |ps| ==> PeakOf(t, ps[i].weekday) == Some(ps[i])
    ensures forall i, j :: 0 <= i < j < |ps| ==> ps[i].weekday < ps[j].weekday
    ensures forall d: Weekday :: PeakOf(t, d).Some? <==> exists i :: 0 <= i < |ps| && ps[i].weekday == d
  {
    var os := WeekdayPeaks(t);
    PeaksFromSound(os, 0);
    forall d: Weekday
      ensures os[d].Some? <==> exists i :: 0 <= i < |PeaksFrom(os, 0)| && PeaksFrom(os, 0)[i].weekday == d
    {
      PeaksFromComplete(os, 0, d);
    }
    PeaksFrom(os, 0)
  }

  /** The peak series has at most one entry per weekday column, so at most 7. */
  lemma PeaksAtMostSeven(t: map<(int, int), real>)
    ensures |Peaks(t)| <= 7
  {
    AscendingPeaksFit(Peaks(t), 0, 7);
  }

  function PeakUsage(p: Peak): real { p.usage }

  /** The `peak_hours` series: the peak hour of each weekday column. */
  function PeakHours(ps: seq<Peak>): (hs: seq<Hour>)
    ensures |hs| == |ps| && forall i :: 0 <= i < |ps| ==> hs[i] == ps[i].hour
  {
    seq(|ps|, i requires 0 <= i < |ps| => ps[i].hour)
  }


  /** The value counts of a series of hours, one entry per hour, `None`
      for an hour that does not occur. */
  function Counts(s: seq<Hour>): (col: seq<Option<real>>)
    ensures |col| == 24
    ensures forall h: Hour :: col[h] == if multiset(s)[h] > 0 then Some(multiset(s)[h] as real) else None
  {
    seq(24, h requires 0 <= h < 24 => if multiset(s)[h] > 0 then Some(multiset(s)[h] as real) else None)
  }

  /** `Series.mode()[0]`: the most frequent value, the smallest of them on a
      tie; `None` for an empty series. */
  function Mode(s: seq<Hour>): (r: Option<Hour>)
    ensures r.None? <==> |s| == 0
    ensures r.Some? ==> r.value in s
    ensures r.Some? ==> forall h: Hour :: multiset(s)[h] <= multiset(s)[r.value]
    ensures r.Some? ==> forall h: Hour :: h < r.value ==> multiset(s)[h] < multiset(s)[r.value]
  {
    var counts := Counts(s);
    if |s| == 0 then None
    else
      assert counts[s[0]].Some?;
      Some(FirstArgMax(counts, 0).value)
  }

  /** What the hourly paragraph reports: `peak_hours.mode()[0]` and `peak_usage`. */
  datatype PeakReport = PeakReport(hour: Option<Hour>, usage: Option<real>)

  /** There is a weekday column, and so a peak, exactly when some hour row is left. */
  lemma PeaksExistIffRows(hours: seq<HourRecord>)
    ensures |Peaks(HourlyTable(hours))| == 0 <==> |hours| == 0
  {
    if |hours| > 0 {
      RowGivesPeak(hours);
    } else {
      NoRowNoPeak(HourlyTable(hours));
    }
  }

  lemma RowGivesPeak(hours: seq<HourRecord>)
    requires |hours| > 0
    ensures |Peaks(HourlyTable(hours))| > 0
  {
    var t := HourlyTable(hours);
    var wd := hours[0].weekday;
    assert (hours[0].hr, wd) in t;
    assert PeakOf(t, wd).Some?;
  }

  lemma NoRowNoPeak(t: map<(int, int), real>)
    requires |t| == 0
    ensures |Peaks(t)| == 0
  {
    var os := WeekdayPeaks(t);
    forall d | 0 <= d < 7 ensures os[d].None? {
      assert forall h :: (h, d) !in t;
    }
    NoPeakListed(os, 0);
  }

  /** The report drawn from the weekday peaks: `mode()[0]` of the peak
      hours and the mean of the weekday maxima, both missing without a peak. */
  function ReportOf(ps: seq<Peak>): (r: PeakReport)
    ensures r.hour.None? <==> |ps| == 0
    ensures r.usage.None? <==> |ps| == 0
  {
    PeakReport(Mode(PeakHours(ps)), Mean(ps, PeakUsage))
  }

  /** The reported hour is a most frequent weekday peak hour, the smallest
      of them on a tie. */
  lemma ReportedHourIsModal(ps: seq<Peak>)
    requires |ps| > 0
    ensures ReportOf(ps).hour.Some? && ReportOf(ps).hour.value in PeakHours(ps)
    ensures forall h: Hour :: multiset(PeakHours(ps))[h] <= multiset(PeakHours(ps))[ReportOf(ps).hour.value]
    ensures forall h: Hour :: h < ReportOf(ps).hour.value ==>
      multiset(PeakHours(ps))[h] < multiset(PeakHours(ps))[ReportOf(ps).hour.value]
  {
    assert ReportOf(ps).hour == Mode(PeakHours(ps));
  }

  /** The reported usage is the mean of the weekday maxima. */
  lemma ReportedUsageIsMeanOfMaxima(ps: seq<Peak>)
    requires |ps| > 0
    ensures ReportOf(ps).usage.Some?
    ensures ReportOf(ps).usage.value == RealSum(ps, PeakUsage) / |ps| as real
  {
  }

  /** The peak-hour insight over the filtered hour table. Both parts are
      missing exactly when no hour row is left. */
  function PeakInsight(hours: seq<HourRecord>): (r: PeakReport)
    ensures r.hour.None? <==> |hours| == 0
    ensures r.usage.None? <==> |hours| == 0
    ensures r == ReportOf(Peaks(HourlyTable(hours)))
  {
    PeaksExistIffRows(hours);
    ReportOf(Peaks(HourlyTable(hours)))
  }

  /** Every cell mean lies within the range of the hourly counts. */
  lemma CellWithinCounts(hours: seq<HourRecord>, k: (int, int), lo: real, hi: real)
    requires k in HourlyTable(hours)
    requires forall i :: 0 <= i < |hours| ==> lo <= hours[i].cnt as real <= hi
    ensures lo <= HourlyTable(hours)[k] <= hi
  {
    var rows := Filter(hours, InCell(k.0, k.1));
    HourlyTableCellMeans(hours, k);
    forall i | 0 <= i < |rows| ensures lo <= HourRides(rows[i]) <= hi {
      assert rows[i] in hours;
    }
    MeanBetween(rows, HourRides, lo, hi);
  }

  /** `peak_usage` lies within the range of the hourly counts. */
  lemma PeakUsageWithinCounts(hours: seq<HourRecord>, lo: real, hi: real)
    requires |hours| > 0
    requires forall i :: 0 <= i < |hours| ==> lo <= hours[i].cnt as real <= hi
    ensures PeakInsight(hours).usage.Some?
    ensures lo <= PeakInsight(hours).usage.value <= hi
  {
    var t := HourlyTable(hours);
    var ps := Peaks(t);
    PeaksExistIffRows(hours);
    forall i | 0 <= i < |ps| ensures lo <= PeakUsage(ps[i]) <= hi {
      PeakIsFirstMaximum(t, ps[i].weekday);
      CellWithinCounts(hours, (ps[i].hour, ps[i].weekday), lo, hi);
    }
    MeanBetween(ps, PeakUsage, lo, hi);
  }
}
