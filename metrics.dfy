/**
 * The summary metrics over the filtered day table (the four metric tiles)
 * and the predicates that choose the narrative messages built from them.
 */
module Metrics {
  import opened Wrappers
  import opened Seqs
  import opened Records
  import opened Filters

  /** `total_rides`, `avg_daily_rides`, `total_registered`, `total_casual`. */
  datatype Summary = Summary(totalRides: int, avgDailyRides: Option<real>, totalRegistered: int, totalCasual: int)

  /** Column sums and the daily mean of the filtered day table; the sums are
      0 and the mean is NaN (`None`) when no day is left. */
  function Summarize(days: seq<DayRecord>): (m: Summary)
    ensures m.totalRides >= 0 && m.totalRegistered >= 0 && m.totalCasual >= 0
    ensures |days| == 0 ==> m.totalRides == 0 && m.totalRegistered == 0 && m.totalCasual == 0
    ensures m.avgDailyRides.None? <==> |days| == 0
    ensures m.avgDailyRides.Some? ==> m.avgDailyRides.value * |days| as real == m.totalRides as real
  {
    NonNegativeSum(days, Rides);
    NonNegativeSum(days, RegisteredRides);
    NonNegativeSum(days, CasualRides);
    RealSumOfInts(days, Rides, RidesReal);
    Summary(Sum(days, Rides), Mean(days, RidesReal), Sum(days, RegisteredRides), Sum(days, CasualRides))
  }

  /** The totals of a single day are its own counts, and the totals of two
      day tables stacked one above the other add up: together with the empty
      table's zeros, this fixes every total as the column sum. */
  lemma {:induction false} TotalsAreColumnSums(a: seq<DayRecord>, b: seq<DayRecord>, d: DayRecord)
    ensures Summarize([d]).totalRides == d.cnt
    ensures Summarize([d]).totalRegistered == d.registered
    ensures Summarize([d]).totalCasual == d.casual
    ensures Summarize(a + b).totalRides == Summarize(a).totalRides + Summarize(b).totalRides
    ensures Summarize(a + b).totalRegistered == Summarize(a).totalRegistered + Summarize(b).totalRegistered
    ensures Summarize(a + b).totalCasual == Summarize(a).totalCasual + Summarize(b).totalCasual
  {
    assert [d][1..] == [];
    assert Sum([d], Rides) == d.cnt + Sum([], Rides);
    assert Sum([d], RegisteredRides) == d.registered + Sum([], RegisteredRides);
    assert Sum([d], CasualRides) == d.casual + Sum([], CasualRides);
    SumAppend(a, b, Rides);
    SumAppend(a, b, RegisteredRides);
    SumAppend(a, b, CasualRides);
  }

  /** On a table whose every day satisfies `cnt == registered + casual`, the
      total splits into the registered and the casual total. */
  lemma ConsistentTotals(days: seq<DayRecord>)
    requires forall i :: 0 <= i < |days| ==> days[i].cnt == days[i].registered + days[i].casual
    ensures Summarize(days).totalRides == Summarize(days).totalRegistered + Summarize(days).totalCasual
  {
    SumSplit(days, RegisteredRides, CasualRides, Rides);
  }

  /** Widening the date range, or moving from some seasons to more of them
      or to none, never lowers any of the three totals. */
  lemma WiderFilterNeverLowersTotals(c: Criteria, c': Criteria, days: seq<DayRecord>, hours: seq<HourRecord>)
    requires c'.start <= c.start && c.end <= c'.end
    requires |c'.season| == 0 || (|c.season| > 0 && forall s :: s in c.season ==> s in c'.season)
    ensures Summarize(Apply(c, days, hours).days).totalRides <= Summarize(Apply(c', days, hours).days).totalRides
    ensures Summarize(Apply(c, days, hours).days).totalRegistered <= Summarize(Apply(c', days, hours).days).totalRegistered
    ensures Summarize(Apply(c, days, hours).days).totalCasual <= Summarize(Apply(c', days, hours).days).totalCasual
  {
    ApplyIsSingleMask(c, days, hours);
    ApplyIsSingleMask(c', days, hours);
    forall d | DayMatches(c)(d) ensures DayMatches(c')(d) {
      if |c'.season| > 0 {
        assert SeasonOfCode(d.season) in c.season;
      }
    }
    SumFilterMonotone(days, DayMatches(c), DayMatches(c'), Rides);
    SumFilterMonotone(days, DayMatches(c), DayMatches(c'), RegisteredRides);
    SumFilterMonotone(days, DayMatches(c), DayMatches(c'), CasualRides);
  }

  datatype Usage = HighUsage | ModerateUsage
  datatype Trend = AboveDailyAverage | BelowDailyAverage
  datatype Riders = SubscriptionDependent | CasualHeavy

  /** Which of each pair of narrative messages is shown. */
  datatype Takeaways = Takeaways(usage: Usage, trend: Trend, riders: Riders)

  /** The three branch conditions, given the metrics and the number of
      filtered days. A NaN mean makes the trend comparison false. */
  function Narrate(m: Summary, dayCount: nat): (t: Takeaways)
    ensures t.usage == HighUsage <==> m.totalRides > 10000
    ensures t.trend == AboveDailyAverage <==> m.avgDailyRides.Some? && m.totalRides as real > m.avgDailyRides.value * dayCount as real
    ensures t.riders == SubscriptionDependent <==> m.totalRegistered > m.totalCasual
  {
    Takeaways(
      if m.totalRides > 10000 then HighUsage else ModerateUsage,
      match m.avgDailyRides
      case None => BelowDailyAverage
      case Some(avg) => if m.totalRides as real > avg * dayCount as real then AboveDailyAverage else BelowDailyAverage,
      if m.totalRegistered > m.totalCasual then SubscriptionDependent else CasualHeavy)
  }

  /** The messages chosen for a filtered day table. Under exact arithmetic the
      total equals the mean times the day count, so the "higher than the
      daily average" message is never chosen. A tie between registered and
      casual riders chooses the casual message. */
  function TakeawaysOf(days: seq<DayRecord>): (t: Takeaways)
    ensures t.trend == BelowDailyAverage
    ensures t.usage == HighUsage <==> Sum(days, Rides) > 10000
    ensures t.riders == SubscriptionDependent <==> Sum(days, RegisteredRides) > Sum(days, CasualRides)
  {
    Narrate(Summarize(days), |days|)
  }

  /** Once the high-usage message is shown, widening the filter keeps it. */
  lemma HighUsageSurvivesWiderFilter(c: Criteria, c': Criteria, days: seq<DayRecord>, hours: seq<HourRecord>)
    requires c'.start <= c.start && c.end <= c'.end
    requires |c'.season| == 0 || (|c.season| > 0 && forall s :: s in c.season ==> s in c'.season)
    requires TakeawaysOf(Apply(c, days, hours).days).usage == HighUsage
    ensures TakeawaysOf(Apply(c', days, hours).days).usage == HighUsage
  {
    WiderFilterNeverLowersTotals(c, c', days, hours);
  }
}
