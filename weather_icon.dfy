/**
 * `getWeatherIcon` (src/App.js): an ordered table of (code list, glyph) rows over
 * the WMO weather-interpretation codes used by Open-Meteo, searched by first match
 * on list membership, with the sentinel "NOT FOUND" for a code in no list.
 */
module WeatherIcon {
  import opened Wrappers

  /** One row of the table: the codes it covers and the glyph shown for them. */
  datatype IconRule = IconRule(codes: seq<int>, glyph: string)

  /** What `getWeatherIcon` returns for a code in no row. */
  const NotFound: string := "NOT FOUND"

  /** The rows in insertion order, which is the order a `Map`'s keys are visited in. */
  const Icons: seq<IconRule> := [
    IconRule([0], "\U{2600}\U{FE0F}"),
    IconRule([1], "\U{1F324}"),
    IconRule([2], "\U{26C5}\U{FE0F}"),
    IconRule([3], "\U{2601}\U{FE0F}"),
    IconRule([45, 48], "\U{1F32B}"),
    IconRule([51, 56, 61, 66, 80], "\U{1F326}"),
    IconRule([53, 55, 63, 65, 57, 67, 81, 82], "\U{1F327}"),
    IconRule([71, 73, 75, 77, 85, 86], "\U{1F328}"),
    IconRule([95], "\U{1F329}"),
    IconRule([96, 99], "\U{26C8}")
  ]

  /** Some row of `table` lists `code`. */
  ghost predicate Covered(table: seq<IconRule>, code: int) {
    exists i :: 0 <= i < |table| && code in table[i].codes
  }

  /** No code is listed by two different rows. */
  ghost predicate PairwiseDisjoint(table: seq<IconRule>) {
    forall i, j, c :: 0 <= i < j < |table| && c in table[i].codes ==> c !in table[j].codes
  }

  /**
   * The position of the first row whose code list contains `code`, or None:
   * `[...icons.keys()].find((key) => key.includes(code))`.
   */
  function FirstMatch(table: seq<IconRule>, code: int): (r: Option<nat>)
    ensures r.Some? ==> r.value < |table| && code in table[r.value].codes
    ensures r.Some? ==> forall j :: 0 <= j < r.value ==> code !in table[j].codes
    ensures r.None? <==> !Covered(table, code)
  {
    if table == [] then None
    else if code in table[0].codes then Some(0)
    else match FirstMatch(table[1..], code)
      case None =>
        assert forall j :: 1 <= j < |table| ==> table[j] == table[1..][j - 1];
        None
      case Some(k) => Some(k + 1)
  }

  /**
   * The glyph of the first row listing `code`, or the sentinel when no row lists it:
   * `if (!arr) return "NOT FOUND"; return icons.get(arr);`.
   */
  function Lookup(table: seq<IconRule>, code: int): (glyph: string)
    ensures !Covered(table, code) ==> glyph == NotFound
    ensures Covered(table, code) ==>
      exists i :: 0 <= i < |table| && code in table[i].codes && glyph == table[i].glyph
                  && forall j :: 0 <= j < i ==> code !in table[j].codes
  {
    match FirstMatch(table, code)
    case Some(i) => table[i].glyph
    case None => NotFound
  }

  /**
   * In a table without shared codes, the first row listing a code is the only one,
   * so first-match lookup gives the glyph of any row that lists it.
   */
  lemma {:induction false} DisjointLookupIsUnique(table: seq<IconRule>, code: int, i: int)
    requires PairwiseDisjoint(table)
    requires 0 <= i < |table| && code in table[i].codes
    ensures FirstMatch(table, code) == Some(i)
    ensures Lookup(table, code) == table[i].glyph
  {
  }

  /**
   * The weather conditions of WMO code table 4677 as Open-Meteo reports them,
   * grouped the way the icon table groups them.
   */
  datatype Condition =
    | ClearSky | MainlyClear | PartlyCloudy | Overcast | Fog
    | LightPrecipitation   // light drizzle or rain, freezing or not, and slight rain showers
    | Precipitation        // moderate or dense drizzle, moderate or heavy rain, freezing or not, heavier showers
    | Snow                 // snow fall, snow grains and snow showers
    | Thunderstorm
    | ThunderstormWithHail

  /** The condition a code denotes, or None for a code the app does not know. */
  function Classify(code: int): Option<Condition> {
    if code == 0 then Some(ClearSky)
    else if code == 1 then Some(MainlyClear)
    else if code == 2 then Some(PartlyCloudy)
    else if code == 3 then Some(Overcast)
    else if code in {45, 48} then Some(Fog)
    else if code in {51, 56, 61, 66, 80} then Some(LightPrecipitation)
    else if code in {53, 55, 57, 63, 65, 67, 81, 82} then Some(Precipitation)
    else if code in {71, 73, 75, 77, 85, 86} then Some(Snow)
    else if code == 95 then Some(Thunderstorm)
    else if code in {96, 99} then Some(ThunderstormWithHail)
    else None
  }

  /** The row of `Icons` meant for each condition. */
  function Row(c: Condition): nat {
    match c
    case ClearSky => 0
    case MainlyClear => 1
    case PartlyCloudy => 2
    case Overcast => 3
    case Fog => 4
    case LightPrecipitation => 5
    case Precipitation => 6
    case Snow => 7
    case Thunderstorm => 8
    case ThunderstormWithHail => 9
  }

  /** A row of `Icons` lists a code exactly when the code's condition belongs to that row. */
  lemma {:induction false} RowListsItsCondition(i: int, code: int)
    requires 0 <= i < |Icons|
    ensures code in Icons[i].codes <==> Classify(code).Some? && Row(Classify(code).value) == i
  {
    if i < 5 { SkyRowsListTheirCondition(i, code); }
    else if i < 7 { RainRowsListTheirCondition(i, code); }
    else { StormRowsListTheirCondition(i, code); }
  }

  /** `RowListsItsCondition` for the clear, cloudy and fog rows. */
  lemma {:induction false} SkyRowsListTheirCondition(i: int, code: int)
    requires 0 <= i < 5
    ensures code in Icons[i].codes <==> Classify(code).Some? && Row(Classify(code).value) == i
  {
    if i == 0 { assert Icons[0].codes == [0]; }
    else if i == 1 { assert Icons[1].codes == [1]; }
    else if i == 2 { assert Icons[2].codes == [2]; }
    else if i == 3 { assert Icons[3].codes == [3]; }
    else { assert Icons[4].codes == [45, 48]; }
  }

  /** `RowListsItsCondition` for the two drizzle and rain rows. */
  lemma {:induction false} RainRowsListTheirCondition(i: int, code: int)
    requires 5 <= i < 7
    ensures code in Icons[i].codes <==> Classify(code).Some? && Row(Classify(code).value) == i
  {
    if i == 5 { assert Icons[5].codes == [51, 56, 61, 66, 80]; }
    else { assert Icons[6].codes == [53, 55, 63, 65, 57, 67, 81, 82]; }
  }

  /** `RowListsItsCondition` for the snow and thunderstorm rows. */
  lemma {:induction false} StormRowsListTheirCondition(i: int, code: int)
    requires 7 <= i < |Icons|
    ensures code in Icons[i].codes <==> Classify(code).Some? && Row(Classify(code).value) == i
  {
    if i == 7 { assert Icons[7].codes == [71, 73, 75, 77, 85, 86]; }
    else if i == 8 { assert Icons[8].codes == [95]; }
    else { assert Icons[9].codes == [96, 99]; }
  }

  /** The rows of `Icons` share no code. */
  lemma IconsDisjoint()
    ensures PairwiseDisjoint(Icons)
  {
    forall i, j, c | 0 <= i < j < |Icons| && c in Icons[i].codes
      ensures c !in Icons[j].codes
    {
      RowListsItsCondition(i, c);
      RowListsItsCondition(j, c);
    }
  }

  /**
   * `getWeatherIcon(wmoCode)`: a code the classification knows gets the glyph of its
   * condition's row; any other code gets exactly the sentinel, never a failure.
   */
  function GetWeatherIcon(code: int): (glyph: string)
    ensures Classify(code).Some? ==> glyph == Icons[Row(Classify(code).value)].glyph
    ensures Classify(code).None? <==> glyph == NotFound
  {
    match Classify(code)
    case None =>
      forall i | 0 <= i < |Icons| ensures code !in Icons[i].codes {
        RowListsItsCondition(i, code);
      }
      Lookup(Icons, code)
    case Some(c) =>
      RowListsItsCondition(Row(c), code);
      IconsDisjoint();
      DisjointLookupIsUnique(Icons, code, Row(c));
      Lookup(Icons, code)
  }

  /** Whatever row lists a code, `getWeatherIcon` returns that row's glyph. */
  lemma {:induction false} GetWeatherIconUsesListingRow(code: int, i: int)
    requires 0 <= i < |Icons| && code in Icons[i].codes
    ensures GetWeatherIcon(code) == Icons[i].glyph
  {
    RowListsItsCondition(i, code);
  }

  /** The conditions of the codes used in the worked cases below. */
  lemma ClassifyExamples()
    ensures Classify(45) == Classify(48) == Some(Fog)
    ensures Classify(96) == Classify(99) == Some(ThunderstormWithHail)
    ensures Classify(4) == Classify(100) == Classify(-1) == None
  {
  }

  /** Worked cases: both fog codes share a glyph, and so do both hail codes. */
  lemma {:induction false} SharedGlyphExamples()
    ensures GetWeatherIcon(45) == GetWeatherIcon(48) == "\U{1F32B}"
    ensures GetWeatherIcon(96) == GetWeatherIcon(99) == "\U{26C8}"
  {
    ClassifyExamples();
  }

  /** Worked cases: codes no row lists give the sentinel. */
  lemma {:induction false} UnknownCodeExamples()
    ensures GetWeatherIcon(4) == GetWeatherIcon(100) == GetWeatherIcon(-1) == NotFound
  {
    ClassifyExamples();
  }
}
