/**
 * The `Weather` and `Day` components (src/App.js): the forecast's parallel daily
 * arrays turned into one card per date, the first labelled "Today".
 */
module Forecast {
  import opened Wrappers
  import WeatherIcon

  /**
   * The `daily` object of a forecast response: four arrays meant to be index-aligned.
   * Temperatures are JavaScript numbers, modelled as reals (no NaN or infinities).
   * `weathercode` may be missing because the render gate tests for it.
   */
  datatype Daily = Daily(
    time: seq<string>,
    weathercode: Option<seq<int>>,
    temperatureMax: seq<real>,
    temperatureMin: seq<real>)

  /** `s.at(i)` for an index i >= 0: the element, or `undefined` past the end. */
  function At<T>(s: seq<T>, i: nat): (r: Option<T>)
    ensures r.Some? <==> i < |s|
    ensures r.Some? ==> r.value == s[i]
  {
    if i < |s| then Some(s[i]) else None
  }

  /** The props `Weather` hands one `Day`. */
  datatype DayProps = DayProps(date: string, max: Option<real>, min: Option<real>, code: Option<int>, isToday: bool)

  /**
   * `dates.map((date, i) => <Day date max={max.at(i)} min={min.at(i)} code={codes.at(i)} isToday={i === 0} />)`:
   * one card per date, card i built from index i of every array, and only the first is today's.
   */
  function WeatherDays(dates: seq<string>, codes: seq<int>, max: seq<real>, min: seq<real>): (days: seq<DayProps>)
    ensures |days| == |dates|
    ensures forall i :: 0 <= i < |days| ==> days[i].date == dates[i] && (days[i].isToday <==> i == 0)
    ensures forall i :: 0 <= i < |days| ==>
      days[i].code == At(codes, i) && days[i].max == At(max, i) && days[i].min == At(min, i)
  {
    seq(|dates|, i requires 0 <= i < |dates| => DayProps(dates[i], At(max, i), At(min, i), At(codes, i), i == 0))
  }

  /** The four arrays have one entry per date. */
  predicate Aligned(dates: seq<string>, codes: seq<int>, max: seq<real>, min: seq<real>) {
    |codes| == |dates| && |max| == |dates| && |min| == |dates|
  }

  /** The dates read back off the cards, in order. */
  function Dates(days: seq<DayProps>): (dates: seq<string>)
    ensures |dates| == |days|
    ensures forall i :: 0 <= i < |days| ==> dates[i] == days[i].date
  {
    if days == [] then [] else [days[0].date] + Dates(days[1..])
  }

  /** The defined entries of a column, in order; `undefined` entries are dropped. */
  function Present<T>(xs: seq<Option<T>>): seq<T> {
    if xs == [] then [] else (if xs[0].Some? then [xs[0].value] else []) + Present(xs[1..])
  }

  /** The `code` column read back off the cards. */
  function Codes(days: seq<DayProps>): seq<Option<int>> {
    seq(|days|, i requires 0 <= i < |days| => days[i].code)
  }

  /** The `max` column read back off the cards. */
  function Maxima(days: seq<DayProps>): seq<Option<real>> {
    seq(|days|, i requires 0 <= i < |days| => days[i].max)
  }

  /** The `min` column read back off the cards. */
  function Minima(days: seq<DayProps>): seq<Option<real>> {
    seq(|days|, i requires 0 <= i < |days| => days[i].min)
  }

  /** Wrapping every element and then keeping the present ones gives the sequence back. */
  lemma {:induction false} PresentOfWrapped<T>(xs: seq<T>, wrapped: seq<Option<T>>)
    requires |wrapped| == |xs|
    requires forall i :: 0 <= i < |xs| ==> wrapped[i] == Some(xs[i])
    ensures Present(wrapped) == xs
  {
    if xs != [] {
      PresentOfWrapped(xs[1..], wrapped[1..]);
    }
  }

  /**
   * For aligned arrays the cards lose and reorder nothing: each column read back
   * off the cards is exactly the array it came from.
   */
  lemma WeatherDaysRoundTrip(dates: seq<string>, codes: seq<int>, max: seq<real>, min: seq<real>)
    requires Aligned(dates, codes, max, min)
    ensures var days := WeatherDays(dates, codes, max, min);
      && Dates(days) == dates
      && Present(Codes(days)) == codes
      && Present(Maxima(days)) == max
      && Present(Minima(days)) == min
  {
    var days := WeatherDays(dates, codes, max, min);
    PresentOfWrapped(codes, Codes(days));
    PresentOfWrapped(max, Maxima(days));
    PresentOfWrapped(min, Minima(days));
  }

  /** `Math.floor(x)`. */
  function Floor(x: real): (n: int)
    ensures n as real <= x < n as real + 1.0
  {
    x.Floor
  }

  /** `Math.ceil(x)`. */
  function Ceil(x: real): (n: int)
    ensures n as real - 1.0 < x <= n as real
  {
    -((-x).Floor)
  }

  /** What one `Day` shows: its icon, its title and the rounded low and high. */
  datatype DayCard = DayCard(icon: string, title: string, low: Option<int>, high: Option<int>)

  /** `getWeatherIcon(code)` where `code` may be `undefined`, which no row lists. */
  function IconFor(code: Option<int>): (glyph: string)
    ensures code.None? ==> glyph == WeatherIcon.NotFound
    ensures code.Some? ==> glyph == WeatherIcon.GetWeatherIcon(code.value)
  {
    match code
    case None => WeatherIcon.NotFound
    case Some(c) => WeatherIcon.GetWeatherIcon(c)
  }

  /**
   * The `Day` component: today's card is labelled "Today", every other card gets the
   * formatter's weekday for its date; the low is rounded down and the high up, and an
   * `undefined` temperature shows as NaN (None).
   */
  function RenderDay(p: DayProps, formatDay: string -> string): (card: DayCard)
    ensures card.icon == IconFor(p.code)
    ensures card.title == if p.isToday then "Today" else formatDay(p.date)
    ensures card.low.Some? <==> p.min.Some?
    ensures card.high.Some? <==> p.max.Some?
    ensures p.min.Some? ==> card.low.value as real <= p.min.value < card.low.value as real + 1.0
    ensures p.max.Some? ==> card.high.value as real - 1.0 < p.max.value <= card.high.value as real
  {
    DayCard(
      IconFor(p.code),
      if p.isToday then "Today" else formatDay(p.date),
      if p.min.Some? then Some(Floor(p.min.value)) else None,
      if p.max.Some? then Some(Ceil(p.max.value)) else None)
  }

  /**
   * The list `Weather` renders for a `daily` object whose `weathercode` array is `codes`:
   * one card per date, the first titled "Today" and card i titled with the weekday of
   * date i, showing the icon of code i, the minimum of day i rounded down and the
   * maximum of day i rounded up (NaN, here None, past the end of a temperature array).
   */
  function RenderDays(d: Daily, codes: seq<int>, formatDay: string -> string): (cards: seq<DayCard>)
    ensures |cards| == |d.time|
    ensures forall i :: 0 <= i < |cards| ==>
      && cards[i].title == (if i == 0 then "Today" else formatDay(d.time[i]))
      && cards[i].icon == IconFor(At(codes, i))
      && cards[i].low == (if i < |d.temperatureMin| then Some(Floor(d.temperatureMin[i])) else None)
      && cards[i].high == (if i < |d.temperatureMax| then Some(Ceil(d.temperatureMax[i])) else None)
  {
    var days := WeatherDays(d.time, codes, d.temperatureMax, d.temperatureMin);
    seq(|days|, i requires 0 <= i < |days| => RenderDay(days[i], formatDay))
  }

  /**
   * The formatter is consulted only for the cards after the first: the first card is
   * "Today" whatever the formatter says, and two formatters that agree on the later
   * dates render the same list.
   */
  lemma FormatterOnlyLabelsLaterDays(d: Daily, codes: seq<int>, f: string -> string, g: string -> string)
    requires forall i :: 1 <= i < |d.time| ==> f(d.time[i]) == g(d.time[i])
    ensures |d.time| > 0 ==> RenderDays(d, codes, f)[0].title == "Today"
    ensures RenderDays(d, codes, f) == RenderDays(d, codes, g)
  {
  }
}
