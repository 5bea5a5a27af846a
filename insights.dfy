/**
 * The per-category means printed in the narrative: the mean hourly rides
 * for each selected weather label and the mean daily rides for each
 * selected season label.
 */
module Insights {
  import opened Wrappers
  import opened Seqs
  import opened Records
  import opened Filters

  function IsWeather(code: int): HourRecord -> bool
  {
    (h: HourRecord) => h.weathersit == code
  }

  function IsSeason(code: int): DayRecord -> bool
  {
    (d: DayRecord) => d.season == code
  }

  /** Mean `cnt` of the hour rows with weather `w`; NaN (`None`) when there is none. */
  function WeatherMean(hours: seq<HourRecord>, w: Weather): (r: Option<real>)
    ensures r.None? <==> forall i :: 0 <= i < |hours| ==> WeatherOfCode(hours[i].weathersit) != w
    ensures r.Some? ==> |Filter(hours, IsWeather(WeatherCode(w)))| > 0
    ensures r.Some? ==>
      r.value == RealSum(Filter(hours, IsWeather(WeatherCode(w))), HourRides) / |Filter(hours, IsWeather(WeatherCode(w)))| as real
  {
    var rows := Filter(hours, IsWeather(WeatherCode(w)));
    assert |rows| == 0 ==> forall i :: 0 <= i < |hours| ==> hours[i] !in rows;
    Mean(rows, HourRides)
  }

  /** Mean `cnt` of the day rows in season `s`; NaN (`None`) when there is none. */
  function SeasonMean(days: seq<DayRecord>, s: Season): (r: Option<real>)
    ensures r.None? <==> forall i :: 0 <= i < |days| ==> SeasonOfCode(days[i].season) != s
    ensures r.Some? ==> |Filter(days, IsSeason(SeasonCode(s)))| > 0
    ensures r.Some? ==>
      r.value == RealSum(Filter(days, IsSeason(SeasonCode(s))), RidesReal) / |Filter(days, IsSeason(SeasonCode(s)))| as real
  {
    var rows := Filter(days, IsSeason(SeasonCode(s)));
    assert |rows| == 0 ==> forall i :: 0 <= i < |days| ==> days[i] !in rows;
    Mean(rows, RidesReal)
  }

  /** One weather mean per selected label, in selection order, over the
      filtered hour table. */
  function WeatherMeans(hours: seq<HourRecord>, sel: seq<Weather>): (r: seq<Option<real>>)
    ensures |r| == |sel|
    ensures forall i :: 0 <= i < |sel| ==> r[i] == WeatherMean(hours, sel[i])
    ensures forall i :: 0 <= i < |sel| ==>
      (r[i].None? <==> forall j :: 0 <= j < |hours| ==> WeatherOfCode(hours[j].weathersit) != sel[i])
  {
    seq(|sel|, i requires 0 <= i < |sel| => WeatherMean(hours, sel[i]))
  }

  /** One season mean per selected label, in selection order, over the
      filtered day table. */
  function SeasonMeans(days: seq<DayRecord>, sel: seq<Season>): (r: seq<Option<real>>)
    ensures |r| == |sel|
    ensures forall i :: 0 <= i < |sel| ==> r[i] == SeasonMean(days, sel[i])
    ensures forall i :: 0 <= i < |sel| ==>
      (r[i].None? <==> forall j :: 0 <= j < |days| ==> SeasonOfCode(days[j].season) != sel[i])
  {
    seq(|sel|, i requires 0 <= i < |sel| => SeasonMean(days, sel[i]))
  }

  /** For a selected weather label, the weather filter removes none of the
      rows its mean is taken over: the mean is that of the date-filtered table. */
  lemma WeatherMeanIgnoresWeatherFilter(c: Criteria, days: seq<DayRecord>, hours: seq<HourRecord>, w: Weather)
    requires w in c.weather
    ensures WeatherMean(Apply(c, days, hours).hours, w) == WeatherMean(HoursInRange(hours, c.start, c.end), w)
  {
    var inRange := HoursInRange(hours, c.start, c.end);
    var codes := WeatherCodes(c.weather);
    assert WeatherOfCode(WeatherCode(w)) == w;
    FilterOfFilter(inRange, HasWeather(codes), IsWeather(WeatherCode(w)), IsWeather(WeatherCode(w)));
  }

  /** For a selected season label, the season filter removes none of the
      rows its mean is taken over: the mean is that of the date-filtered table. */
  lemma SeasonMeanIgnoresSeasonFilter(c: Criteria, days: seq<DayRecord>, hours: seq<HourRecord>, s: Season)
    requires s in c.season
    ensures SeasonMean(Apply(c, days, hours).days, s) == SeasonMean(DaysInRange(days, c.start, c.end), s)
  {
    var inRange := DaysInRange(days, c.start, c.end);
    var codes := SeasonCodes(c.season);
    assert SeasonOfCode(SeasonCode(s)) == s;
    FilterOfFilter(inRange, HasSeason(codes), IsSeason(SeasonCode(s)), IsSeason(SeasonCode(s)));
  }
}
