/**
 * The two tables the dashboard reads (`day.csv` and `hour.csv`), reduced to
 * the columns the pipeline uses, and the sidebar's label-to-code maps.
 * A calendar date `dteday` is an integer day ordinal.
 */
module Records {
  /** Hour of day, the `hr` column. */
  type Hour = h: int | 0 <= h < 24
  /** Day of week, the `weekday` column (0 is Sunday). */
  type Weekday = d: int | 0 <= d < 7
  /** A `weathersit` or `season` category code. */
  type Code = c: int | 1 <= c <= 4 witness 1

  /** One row of the day table. */
  datatype DayRecord = DayRecord(dteday: int, season: Code, cnt: nat, registered: nat, casual: nat)

  /** One row of the hour table. */
  datatype HourRecord = HourRecord(dteday: int, hr: Hour, weekday: Weekday, weathersit: Code, cnt: nat)

  /** Column accessors handed to the generic sums and means. */
  function Rides(d: DayRecord): int { d.cnt }
  function RidesReal(d: DayRecord): real { d.cnt as real }
  function RegisteredRides(d: DayRecord): int { d.registered }
  function CasualRides(d: DayRecord): int { d.casual }
  function HourRides(h: HourRecord): real { h.cnt as real }

  /** The options of the weather multiselect. */
  datatype Weather = Clear | Misty | LightRain | HeavyRain

  /** The options of the season multiselect. */
  datatype Season = Spring | Summer | Fall | Winter

  /** `weather_map`: the stored `weathersit` code of a weather label. */
  function WeatherCode(w: Weather): Code
  {
    match w
    case Clear => 1
    case Misty => 2
    case LightRain => 3
    case HeavyRain => 4
  }

  /** The weather label of a stored code: the inverse of `weather_map`. */
  function WeatherOfCode(c: Code): (w: Weather)
    ensures WeatherCode(w) == c
  {
    if c == 1 then Clear else if c == 2 then Misty else if c == 3 then LightRain else HeavyRain
  }

  lemma WeatherCodeRoundTrip(w: Weather)
    ensures WeatherOfCode(WeatherCode(w)) == w
  {
  }

  /** `weather_map` pairs the four labels one-to-one with the codes 1..4. */
  lemma WeatherCodeBijective(w: Weather, c: Code)
    ensures WeatherCode(w) == c <==> WeatherOfCode(c) == w
  {
  }

  /** `season_map`: the stored `season` code of a season label. */
  function SeasonCode(s: Season): Code
  {
    match s
    case Spring => 1
    case Summer => 2
    case Fall => 3
    case Winter => 4
  }

  /** The season label of a stored code: the inverse of `season_map`. */
  function SeasonOfCode(c: Code): (s: Season)
    ensures SeasonCode(s) == c
  {
    if c == 1 then Spring else if c == 2 then Summer else if c == 3 then Fall else Winter
  }

  lemma SeasonCodeRoundTrip(s: Season)
    ensures SeasonOfCode(SeasonCode(s)) == s
  {
  }

  /** `season_map` pairs the four labels one-to-one with the codes 1..4. */
  lemma SeasonCodeBijective(s: Season, c: Code)
    ensures SeasonCode(s) == c <==> SeasonOfCode(c) == s
  {
  }

  /** The code list handed to `isin` for a weather selection. */
  function WeatherCodes(sel: seq<Weather>): (cs: set<int>)
    ensures forall c: Code :: c in cs <==> WeatherOfCode(c) in sel
    ensures forall c :: c in cs ==> 1 <= c <= 4
  {
    set w | w in sel :: WeatherCode(w)
  }

  /** The code list handed to `isin` for a season selection. */
  function SeasonCodes(sel: seq<Season>): (cs: set<int>)
    ensures forall c: Code :: c in cs <==> SeasonOfCode(c) in sel
    ensures forall c :: c in cs ==> 1 <= c <= 4
  {
    set s | s in sel :: SeasonCode(s)
  }
}
