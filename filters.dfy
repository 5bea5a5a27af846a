/**
 * The sidebar filters of the dashboard: the date bounds of the day table,
 * the inclusive date-range filter applied to both tables, the weather
 * filter (hour table only) and the season filter (day table only).
 */
module Filters {
  import opened Wrappers
  import opened Seqs
  import opened Records

  /** `day_df["dteday"].min()`; `None` for an empty table. */
  function MinDate(days: seq<DayRecord>): (r: Option<int>)
    ensures r.None? <==> |days| == 0
    ensures r.Some? ==> exists i :: 0 <= i < |days| && days[i].dteday == r.value
    ensures r.Some? ==> forall i :: 0 <= i < |days| ==> r.value <= days[i].dteday
  {
    if |days| == 0 then None
    else
      match MinDate(days[1..])
      case None => Some(days[0].dteday)
      case Some(m) => Some(if days[0].dteday <= m then days[0].dteday else m)
  }

  /** `day_df["dteday"].max()`; `None` for an empty table. */
  function MaxDate(days: seq<DayRecord>): (r: Option<int>)
    ensures r.None? <==> |days| == 0
    ensures r.Some? ==> exists i :: 0 <= i < |days| && days[i].dteday == r.value
    ensures r.Some? ==> forall i :: 0 <= i < |days| ==> days[i].dteday <= r.value
  {
    if |days| == 0 then None
    else
      match MaxDate(days[1..])
      case None => Some(days[0].dteday)
      case Some(m) => Some(if days[0].dteday >= m then days[0].dteday else m)
  }

  /** What the sidebar holds: an inclusive date range and two multiselects. */
  datatype Criteria = Criteria(start: int, end: int, weather: seq<Weather>, season: seq<Season>)

  /** `filtered_day_df` and `filtered_hour_df`. */
  datatype View = View(days: seq<DayRecord>, hours: seq<HourRecord>)

  /** The initial sidebar state: the full date range of the day table and
      both multiselects empty; `None` when the day table has no rows. */
  function DefaultCriteria(days: seq<DayRecord>): (c: Option<Criteria>)
    ensures c.None? <==> |days| == 0
    ensures c.Some? ==> c.value.weather == [] && c.value.season == []
    ensures c.Some? ==> forall i :: 0 <= i < |days| ==> c.value.start <= days[i].dteday <= c.value.end
    ensures c.Some? ==> exists i :: 0 <= i < |days| && days[i].dteday == c.value.start
    ensures c.Some? ==> exists i :: 0 <= i < |days| && days[i].dteday == c.value.end
  {
    if |days| == 0 then None
    else Some(Criteria(MinDate(days).value, MaxDate(days).value, [], []))
  }

  function DayInRange(start: int, end: int): DayRecord -> bool
  {
    (d: DayRecord) => start <= d.dteday <= end
  }

  function HourInRange(start: int, end: int): HourRecord -> bool
  {
    (h: HourRecord) => start <= h.dteday <= end
  }

  function HasWeather(codes: set<int>): HourRecord -> bool
  {
    (h: HourRecord) => h.weathersit in codes
  }

  function HasSeason(codes: set<int>): DayRecord -> bool
  {
    (d: DayRecord) => d.season in codes
  }

  /** The date mask on the day table, inclusive on both ends. */
  function DaysInRange(days: seq<DayRecord>, start: int, end: int): (r: seq<DayRecord>)
    ensures forall d :: d in r <==> d in days && start <= d.dteday <= end
  {
    Filter(days, DayInRange(start, end))
  }

  /** The same date mask on the hour table. */
  function HoursInRange(hours: seq<HourRecord>, start: int, end: int): (r: seq<HourRecord>)
    ensures forall h :: h in r <==> h in hours && start <= h.dteday <= end
  {
    Filter(hours, HourInRange(start, end))
  }

  /** The weather filter: no filtering for an empty selection, otherwise an
      `isin` over the codes of the selected labels. */
  function FilterWeather(hours: seq<HourRecord>, sel: seq<Weather>): (r: seq<HourRecord>)
    ensures |sel| == 0 ==> r == hours
    ensures |sel| > 0 ==> forall h :: h in r <==> h in hours && WeatherOfCode(h.weathersit) in sel
  {
    if |sel| == 0 then hours else Filter(hours, HasWeather(WeatherCodes(sel)))
  }

  /** The season filter: no filtering for an empty selection, otherwise an
      `isin` over the codes of the selected labels. */
  function FilterSeason(days: seq<DayRecord>, sel: seq<Season>): (r: seq<DayRecord>)
    ensures |sel| == 0 ==> r == days
    ensures |sel| > 0 ==> forall d :: d in r <==> d in days && SeasonOfCode(d.season) in sel
  {
    if |sel| == 0 then days else Filter(days, HasSeason(SeasonCodes(sel)))
  }

  /** The whole filter stage: dates on both tables, then weather on the
      hour table and season on the day table. */
  function Apply(c: Criteria, days: seq<DayRecord>, hours: seq<HourRecord>): (v: View)
    ensures forall d :: d in v.days <==>
      d in days && c.start <= d.dteday <= c.end && (|c.season| == 0 || SeasonOfCode(d.season) in c.season)
    ensures forall h :: h in v.hours <==>
      h in hours && c.start <= h.dteday <= c.end && (|c.weather| == 0 || WeatherOfCode(h.weathersit) in c.weather)
  {
    View(FilterSeason(DaysInRange(days, c.start, c.end), c.season),
         FilterWeather(HoursInRange(hours, c.start, c.end), c.weather))
  }

  /** The criteria as one row mask on the day table. */
  function DayMatches(c: Criteria): DayRecord -> bool
  {
    (d: DayRecord) => c.start <= d.dteday <= c.end && (|c.season| == 0 || d.season in SeasonCodes(c.season))
  }

  /** The criteria as one row mask on the hour table. */
  function HourMatches(c: Criteria): HourRecord -> bool
  {
    (h: HourRecord) => c.start <= h.dteday <= c.end && (|c.weather| == 0 || h.weathersit in WeatherCodes(c.weather))
  }

  /** The staged, conditionally rebound filters equal one mask per table. */
  lemma ApplyIsSingleMask(c: Criteria, days: seq<DayRecord>, hours: seq<HourRecord>)
    ensures Apply(c, days, hours).days == Filter(days, DayMatches(c))
    ensures Apply(c, days, hours).hours == Filter(hours, HourMatches(c))
  {
    if |c.season| == 0 {
      FilterExtensional(days, DayInRange(c.start, c.end), DayMatches(c));
    } else {
      FilterOfFilter(days, DayInRange(c.start, c.end), HasSeason(SeasonCodes(c.season)), DayMatches(c));
    }
    if |c.weather| == 0 {
      FilterExtensional(hours, HourInRange(c.start, c.end), HourMatches(c));
    } else {
      FilterOfFilter(hours, HourInRange(c.start, c.end), HasWeather(WeatherCodes(c.weather)), HourMatches(c));
    }
  }

  /** Each filtered table is a subsequence of its input (original order kept)
      holding every matching row as often as the input holds it, and no other. */
  lemma ApplyKeepsExactlyMatchingRows(c: Criteria, days: seq<DayRecord>, hours: seq<HourRecord>)
    ensures IsSubsequence(Apply(c, days, hours).days, days)
    ensures IsSubsequence(Apply(c, days, hours).hours, hours)
    ensures forall d ::
      multiset(Apply(c, days, hours).days)[d] == (if DayMatches(c)(d) then multiset(days)[d] else 0)
    ensures forall h ::
      multiset(Apply(c, days, hours).hours)[h] == (if HourMatches(c)(h) then multiset(hours)[h] else 0)
  {
    ApplyIsSingleMask(c, days, hours);
    FilterIsSubsequence(days, DayMatches(c));
    FilterIsSubsequence(hours, HourMatches(c));
    FilterCounts(days, DayMatches(c));
    FilterCounts(hours, HourMatches(c));
  }

  /** Filtering an already filtered view with the same criteria changes nothing. */
  lemma ApplyIdempotent(c: Criteria, days: seq<DayRecord>, hours: seq<HourRecord>)
    ensures var v := Apply(c, days, hours); Apply(c, v.days, v.hours) == v
  {
    var v := Apply(c, days, hours);
    ApplyIsSingleMask(c, days, hours);
    ApplyIsSingleMask(c, v.days, v.hours);
    FilterOfFilter(days, DayMatches(c), DayMatches(c), DayMatches(c));
    FilterOfFilter(hours, HourMatches(c), HourMatches(c), HourMatches(c));
  }

  /** The weather selection never touches the day table, and the season
      selection never touches the hour table. */
  lemma SelectionsActOnOneTableEach(c: Criteria, days: seq<DayRecord>, hours: seq<HourRecord>,
                                    w: seq<Weather>, s: seq<Season>)
    ensures Apply(c.(weather := w), days, hours).days == Apply(c, days, hours).days
    ensures Apply(c.(season := s), days, hours).hours == Apply(c, days, hours).hours
  {
  }

  /** With the initial sidebar state the day table is shown unfiltered, and
      so is every hour row dated within the day table's range. */
  lemma DefaultCriteriaKeepsEverything(days: seq<DayRecord>, hours: seq<HourRecord>)
    requires |days| > 0
    ensures Apply(DefaultCriteria(days).value, days, hours).days == days
    ensures (forall i :: 0 <= i < |hours| ==> MinDate(days).value <= hours[i].dteday <= MaxDate(days).value)
        ==> Apply(DefaultCriteria(days).value, days, hours).hours == hours
  {
    var lo, hi := MinDate(days).value, MaxDate(days).value;
    DaysAllInRange(days, lo, hi);
    if forall i :: 0 <= i < |hours| ==> lo <= hours[i].dteday <= hi {
      HoursAllInRange(hours, lo, hi);
    }
  }

  /** A date range holding every day keeps the whole day table. */
  lemma DaysAllInRange(days: seq<DayRecord>, lo: int, hi: int)
    requires forall i :: 0 <= i < |days| ==> lo <= days[i].dteday <= hi
    ensures DaysInRange(days, lo, hi) == days
  {
    FilterKeepsAll(days, DayInRange(lo, hi));
  }

  /** A date range holding every hour row keeps the whole hour table. */
  lemma HoursAllInRange(hours: seq<HourRecord>, lo: int, hi: int)
    requires forall i :: 0 <= i < |hours| ==> lo <= hours[i].dteday <= hi
    ensures HoursInRange(hours, lo, hi) == hours
  {
    FilterKeepsAll(hours, HourInRange(lo, hi));
  }

  /** Selecting all four weather labels drops no hour row. */
  lemma AllWeatherSelected(hours: seq<HourRecord>, sel: seq<Weather>)
    requires Clear in sel && Misty in sel && LightRain in sel && HeavyRain in sel
    ensures FilterWeather(hours, sel) == hours
  {
    var codes := WeatherCodes(sel);
    forall i | 0 <= i < |hours| ensures HasWeather(codes)(hours[i]) {
      assert WeatherOfCode(hours[i].weathersit) in sel;
    }
    FilterKeepsAll(hours, HasWeather(codes));
  }

  /** Selecting all four season labels drops no day row. */
  lemma AllSeasonsSelected(days: seq<DayRecord>, sel: seq<Season>)
    requires Spring in sel && Summer in sel && Fall in sel && Winter in sel
    ensures FilterSeason(days, sel) == days
  {
    var codes := SeasonCodes(sel);
    forall i | 0 <= i < |days| ensures HasSeason(codes)(days[i]) {
      assert SeasonOfCode(days[i].season) in sel;
    }
    FilterKeepsAll(days, HasSeason(codes));
  }
}
