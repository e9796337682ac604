/** The hourly-history summariser of part3/part3.py: the column table built from the
    observations, the weather-description histogram, the times at which an extreme
    occurred, and the five-line historical summary.

    Temperatures are integer tenths of a degree Celsius and rainfall integer tenths
    of a millimetre. */
module History {
  import opened Results
  import opened Seqs
  import opened OrderedDict
  import opened Text

  /** One hourly observation of the JSON list, already read from the file. */
  datatype HourObservation = HourObservation(
    observedAt: string,     // LocalObservationDateTime, ISO 8601 with offset
    temp: int,              // Temperature.Metric.Value
    realFeelTemp: int,      // RealFeelTemperature.Metric.Value
    weatherText: string,    // WeatherText
    precipitation: int,     // PrecipitationSummary.Precipitation.Metric.Value
    uvIndex: int,           // UVIndex
    isDaytime: bool)        // IsDayTime

  /** get_time: the slice iso_string[11:16], which Python clamps to the string, so
      it never fails; on a timestamp shaped YYYY-MM-DDTHH:MM... it is HH:MM. */
  function GetTime(s: string): (t: string)
    ensures |t| == if |s| >= 16 then 5 else if |s| > 11 then |s| - 11 else 0
    ensures forall k :: 0 <= k < |t| ==> t[k] == s[11 + k]
  {
    if |s| <= 11 then "" else s[11..if |s| < 16 then |s| else 16]
  }

  lemma GetTimeExample()
    ensures GetTime("2021-06-19T15:55:00+08:00") == "15:55"
    ensures GetTime("2021-06-19") == ""
  {
  }

  /** The dict of seven lists generate_df returns. */
  datatype DataFrame = DataFrame(
    time: seq<string>,
    temp: seq<int>,
    realFeelTemp: seq<int>,
    weatherText: seq<string>,
    precipitation: seq<int>,
    uvIndex: seq<int>,
    isDaytime: seq<bool>)

  /** All seven columns have the same length. */
  predicate Columnar(df: DataFrame)
  {
    |df.temp| == |df.time| && |df.realFeelTemp| == |df.time| && |df.weatherText| == |df.time| &&
    |df.precipitation| == |df.time| && |df.uvIndex| == |df.time| && |df.isDaytime| == |df.time|
  }

  /** Row j of the columns holds the fields of hour (the time cut out by get_time). */
  predicate RowOf(df: DataFrame, j: nat, hour: HourObservation)
    requires Columnar(df) && j < |df.time|
  {
    df.time[j] == GetTime(hour.observedAt) && df.temp[j] == hour.temp &&
    df.realFeelTemp[j] == hour.realFeelTemp && df.weatherText[j] == hour.weatherText &&
    df.precipitation[j] == hour.precipitation && df.uvIndex[j] == hour.uvIndex &&
    df.isDaytime[j] == hour.isDaytime
  }

  /** The record loop of generate_df: one row per observation, in input order. */
  method GenerateDataFrame(hours: seq<HourObservation>) returns (df: DataFrame)
    ensures Columnar(df) && |df.time| == |hours|
    ensures forall j :: 0 <= j < |hours| ==> RowOf(df, j, hours[j])
  {
    df := DataFrame([], [], [], [], [], [], []);
    for i := 0 to |hours|
      invariant Columnar(df) && |df.time| == i
      invariant forall j :: 0 <= j < i ==> RowOf(df, j, hours[j])
    {
      var hour := hours[i];
      df := df.(time := df.time + [GetTime(hour.observedAt)],
                temp := df.temp + [hour.temp],
                realFeelTemp := df.realFeelTemp + [hour.realFeelTemp],
                weatherText := df.weatherText + [hour.weatherText],
                precipitation := df.precipitation + [hour.precipitation],
                uvIndex := df.uvIndex + [hour.uvIndex],
                isDaytime := df.isDaytime + [hour.isDaytime]);
    }
  }

  /** One more description: the key order is that of first appearance and every
      count is the number of occurrences so far. */
  lemma CountStep(texts: seq<string>, i: nat, counts: Dict<string, int>, v: int)
    requires i < |texts|
    requires Keys(counts) == Dedup(texts[..i])
    requires forall k :: k in Keys(counts) ==> Get(counts, k) == Occurrences(texts[..i], k)
    requires v == if texts[i] in Keys(counts) then Get(counts, texts[i]) + 1 else 1
    ensures Keys(Put(counts, texts[i], v)) == Dedup(texts[..i + 1])
    ensures forall k :: k in Keys(Put(counts, texts[i], v)) ==>
      Get(Put(counts, texts[i], v), k) == Occurrences(texts[..i + 1], k)
    ensures Sum(Values(Put(counts, texts[i], v))) == Sum(Values(counts)) + 1
  {
    var next := Put(counts, texts[i], v);
    CountStepKeys(texts, i, counts, v);
    forall k | k in Keys(next)
      ensures Get(next, k) == Occurrences(texts[..i + 1], k)
    {
      CountStepCount(texts, i, counts, v, k);
    }
    PutSum(counts, texts[i], v);
  }

  lemma CountStepKeys(texts: seq<string>, i: nat, counts: Dict<string, int>, v: int)
    requires i < |texts|
    requires Keys(counts) == Dedup(texts[..i])
    ensures Keys(Put(counts, texts[i], v)) == Dedup(texts[..i + 1])
  {
    assert texts[..i + 1][..i] == texts[..i];
    PutFacts(counts, texts[i], v);
  }

  lemma CountStepCount(texts: seq<string>, i: nat, counts: Dict<string, int>, v: int, k: string)
    requires i < |texts|
    requires Keys(counts) == Dedup(texts[..i])
    requires forall k :: k in Keys(counts) ==> Get(counts, k) == Occurrences(texts[..i], k)
    requires v == if texts[i] in Keys(counts) then Get(counts, texts[i]) + 1 else 1
    requires k in Keys(Put(counts, texts[i], v))
    ensures Get(Put(counts, texts[i], v), k) == Occurrences(texts[..i + 1], k)
  {
    var item := texts[i];
    assert texts[..i + 1][..i] == texts[..i];
    PutFacts(counts, item, v);
    if k == item {
      if item !in Keys(counts) {
        DedupProperties(texts[..i]);
        OccurrencesAbsent(texts[..i], item);
      }
    } else {
      assert k in Keys(counts);
      PutKeepsOthers(counts, item, v, k);
    }
  }


  /** The counting loop of create_weather_text_chart: a dict from each description
      to its number of hours, keyed in order of first appearance. */
  method CountWeatherTexts(texts: seq<string>) returns (counts: Dict<string, int>)
    ensures Keys(counts) == Dedup(texts)
    ensures forall k :: k in Keys(counts) ==> Get(counts, k) == Occurrences(texts, k)
    ensures Sum(Values(counts)) == |texts|
  {
    counts := [];
    for i := 0 to |texts|
      invariant Keys(counts) == Dedup(texts[..i])
      invariant forall k :: k in Keys(counts) ==> Get(counts, k) == Occurrences(texts[..i], k)
      invariant Sum(Values(counts)) == i
    {
      var item := texts[i];
      if item in Keys(counts) {
        CountStep(texts, i, counts, Get(counts, item) + 1);
        counts := Put(counts, item, Get(counts, item) + 1);
      } else {
        CountStep(texts, i, counts, 1);
        counts := Put(counts, item, 1);
      }
    }
    assert texts[..|texts|] == texts;
  }

  /** The loop over counts.items() building text_option_list and qty_list. */
  method SplitCounts(counts: Dict<string, int>) returns (textOptions: seq<string>, qtys: seq<int>)
    ensures textOptions == Keys(counts) && qtys == Values(counts)
  {
    textOptions, qtys := [], [];
    for i := 0 to |counts|
      invariant |textOptions| == i && forall j :: 0 <= j < i ==> textOptions[j] == counts[j].0
      invariant |qtys| == i && forall j :: 0 <= j < i ==> qtys[j] == counts[j].1
    {
      textOptions := textOptions + [counts[i].0];
      qtys := qtys + [counts[i].1];
    }
  }

  /** The bars of the weather-description chart: the distinct descriptions in order of
      first appearance, each with its number of hours; the counts add up to the hours. */
  method WeatherTextCounts(df: DataFrame) returns (textOptions: seq<string>, qtys: seq<int>)
    ensures textOptions == Dedup(df.weatherText)
    ensures Distinct(textOptions)
    ensures forall x :: x in textOptions <==> x in df.weatherText
    ensures |qtys| == |textOptions|
    ensures forall j :: 0 <= j < |qtys| ==> qtys[j] == Occurrences(df.weatherText, textOptions[j])
    ensures Sum(qtys) == |df.weatherText|
  {
    var counts := CountWeatherTexts(df.weatherText);
    DedupProperties(df.weatherText);
    textOptions, qtys := SplitCounts(counts);
    forall j | 0 <= j < |qtys|
      ensures qtys[j] == Occurrences(df.weatherText, textOptions[j])
    {
      GetAt(counts, j);
    }
  }

  /** [i for i, x in enumerate(s) if x == v]: exactly the positions holding v, in
      increasing order. */
  function IndicesOf(s: seq<int>, v: int): (r: seq<nat>)
    ensures forall j :: 0 <= j < |r| ==> r[j] < |s| && s[r[j]] == v
    ensures forall j, k :: 0 <= j < k < |r| ==> r[j] < r[k]
    ensures forall i :: 0 <= i < |s| && s[i] == v ==> i in r
  {
    if s == [] then []
    else
      var init := IndicesOf(s[..|s| - 1], v);
      if s[|s| - 1] == v then init + [|s| - 1] else init
  }

  /** The times at the given positions. */
  function TimesAt(times: seq<string>, positions: seq<nat>): (r: seq<string>)
    requires forall j :: 0 <= j < |positions| ==> positions[j] < |times|
    ensures |r| == |positions|
    ensures forall j :: 0 <= j < |positions| ==> r[j] == times[positions[j]]
  {
    seq(|positions|, j requires 0 <= j < |positions| => times[positions[j]])
  }

  /** The times of the hours whose reading is v, in hour order, defined hour by
      hour without positions. */
  function TimesWhere(values: seq<int>, times: seq<string>, v: int): (r: seq<string>)
    requires |values| == |times|
  {
    if values == [] then []
    else
      var n := |values| - 1;
      TimesWhere(values[..n], times[..n], v) + (if values[n] == v then [times[n]] else [])
  }

  /** The list comprehension of line 147 over the matching positions yields
      exactly the times of the hours holding v, in order. */
  lemma {:induction false} TimesAtMatches(values: seq<int>, times: seq<string>, v: int)
    requires |values| == |times|
    ensures TimesAt(times, IndicesOf(values, v)) == TimesWhere(values, times, v)
  {
    if values != [] {
      var n := |values| - 1;
      var init := IndicesOf(values[..n], v);
      TimesAtMatches(values[..n], times[..n], v);
      TimesAtPrefix(times, init, n);
      if values[n] == v {
        TimesAtAppend(times, init, n);
      }
    }
  }

  /** Positions below n pick the same times from a list and from its first n entries. */
  lemma TimesAtPrefix(times: seq<string>, positions: seq<nat>, n: nat)
    requires n <= |times|
    requires forall j :: 0 <= j < |positions| ==> positions[j] < n
    ensures TimesAt(times, positions) == TimesAt(times[..n], positions)
  {
  }

  lemma TimesAtAppend(times: seq<string>, positions: seq<nat>, p: nat)
    requires p < |times|
    requires forall j :: 0 <= j < |positions| ==> positions[j] < |times|
    ensures TimesAt(times, positions + [p]) == TimesAt(times, positions) + [times[p]]
  {
  }

  /** Each item followed by ", ". */
  function CommaSeparated(items: seq<string>): (text: string)
  {
    if items == [] then "" else items[0] + ", " + CommaSeparated(items[1..])
  }

  /** The list format of format_weather_event_times: every item but the last
      followed by ", ", the last preceded by "and "; nothing for no items. */
  function NaturalList(items: seq<string>): (text: string)
  {
    if items == [] then "" else CommaSeparated(items[..|items| - 1]) + "and " + items[|items| - 1]
  }

  lemma {:induction false} CommaSeparatedAppend(items: seq<string>, x: string)
    ensures CommaSeparated(items + [x]) == CommaSeparated(items) + x + ", "
  {
    if items == [] {
      assert [x][1..] == [];
    } else {
      assert (items + [x])[1..] == items[1..] + [x];
      CommaSeparatedAppend(items[1..], x);
    }
  }

  /** Read from the front: a first item is followed by ", " and the list of the rest. */
  lemma NaturalListCons(t: string, rest: seq<string>)
    requires |rest| > 0
    ensures NaturalList([t] + rest) == t + ", " + NaturalList(rest)
  {
    var items := [t] + rest;
    assert items[..|items| - 1] == [t] + rest[..|rest| - 1];
    assert ([t] + rest[..|rest| - 1])[1..] == rest[..|rest| - 1];
  }

  lemma NaturalListExamples(a: string, b: string, c: string)
    ensures NaturalList([]) == ""
    ensures NaturalList([a]) == "and " + a
    ensures NaturalList([a, b]) == a + ", and " + b
    ensures NaturalList([a, b, c]) == a + ", " + b + ", and " + c
  {
    assert [a][..0] == [];
    assert [a, b][..1] == [a];
    assert [a][1..] == [];
    assert CommaSeparated([a]) == a + ", ";
    assert [a, b, c][..2] == [a, b];
    assert [a, b][1..] == [b];
    assert CommaSeparated([b]) == b + ", " by { assert [b][1..] == []; }
    assert CommaSeparated([a, b]) == a + ", " + (b + ", ");
  }

  lemma {:induction false} CommaSeparatedNoLineBreak(items: seq<string>)
    requires forall j :: 0 <= j < |items| ==> NoLineBreak(items[j])
    ensures NoLineBreak(CommaSeparated(items))
  {
    if items != [] {
      CommaSeparatedNoLineBreak(items[1..]);
    }
  }

  lemma NaturalListNoLineBreak(items: seq<string>)
    requires forall j :: 0 <= j < |items| ==> NoLineBreak(items[j])
    ensures NoLineBreak(NaturalList(items))
  {
    if items != [] {
      CommaSeparatedNoLineBreak(items[..|items| - 1]);
    }
  }

  /** The loop of format_weather_event_times that joins the times. */
  method JoinTimes(times: seq<string>) returns (formatted: string)
    ensures formatted == NaturalList(times)
  {
    formatted := "";
    for index := 0 to |times|
      invariant formatted == if index == |times| && |times| > 0 then NaturalList(times) else CommaSeparated(times[..index])
    {
      if index != |times| - 1 {
        CommaSeparatedAppend(times[..index], times[index]);
        assert times[..index + 1] == times[..index] + [times[index]];
        formatted := formatted + times[index] + ", ";
      } else {
        assert times[..index] == times[..|times| - 1];
        formatted := formatted + "and " + times[index];
      }
    }
    assert |times| == 0 ==> times[..0] == [];
  }

  /** What format_weather_event_times returns for a measurement: the matched value,
      and the times of all hours holding it as a list. */
  datatype Event = Event(value: int, times: string)

  function EventOf(values: seq<int>, times: seq<string>, v: int): (e: Event)
    requires |values| == |times|
  {
    Event(v, NaturalList(TimesAt(times, IndicesOf(values, v))))
  }

  /** format_weather_event_times: "min-temp" is min(Temp), "max-temp" max(Temp) and
      "u-v" max(UV_Index), with the times of every hour holding that value; an empty
      column makes min/max fail; any other measurement gives None. */
  method FormatWeatherEventTimes(df: DataFrame, measurement: string) returns (r: Result<Option<Event>>)
    requires Columnar(df)
    ensures measurement == "min-temp" ==>
      r == if |df.temp| == 0 then Err(EmptyColumn) else Ok(Some(EventOf(df.temp, df.time, Min(df.temp))))
    ensures measurement == "max-temp" ==>
      r == if |df.temp| == 0 then Err(EmptyColumn) else Ok(Some(EventOf(df.temp, df.time, Max(df.temp))))
    ensures measurement == "u-v" ==>
      r == if |df.uvIndex| == 0 then Err(EmptyColumn) else Ok(Some(EventOf(df.uvIndex, df.time, Max(df.uvIndex))))
    ensures measurement != "min-temp" && measurement != "max-temp" && measurement != "u-v" ==> r == Ok(None)
  {
    var column: seq<int>;
    var valueToMatch: int;
    if measurement == "min-temp" {
      if |df.temp| == 0 {
        return Err(EmptyColumn);
      }
      column, valueToMatch := df.temp, Min(df.temp);
    } else if measurement == "max-temp" {
      if |df.temp| == 0 {
        return Err(EmptyColumn);
      }
      column, valueToMatch := df.temp, Max(df.temp);
    } else if measurement == "u-v" {
      if |df.uvIndex| == 0 {
        return Err(EmptyColumn);
      }
      column, valueToMatch := df.uvIndex, Max(df.uvIndex);
    } else {
      return Ok(None);
    }
    var occurrences := IndicesOf(column, valueToMatch);
    var times := TimesAt(df.time, occurrences);

    var formatted := JoinTimes(times);
    r := Ok(Some(Event(valueToMatch, formatted)));
  }

  /** One more entry adds its position exactly when it holds the value. */
  lemma IndicesStep(s: seq<int>, x: int, v: int)
    ensures IndicesOf(s + [x], v) == IndicesOf(s, v) + (if x == v then [|s|] else [])
  {
    assert (s + [x])[..|s|] == s;
  }

  lemma IndicesExample()
    ensures IndicesOf([150, 120, 150], 150) == [0, 2]
  {
    IndicesStep([], 150, 150);
    assert [] + [150] == [150];
    IndicesStep([150], 120, 150);
    assert [150] + [120] == [150, 120];
    IndicesStep([150, 120], 150, 150);
    assert [150, 120] + [150] == [150, 120, 150];
  }

  lemma EventExample()
    ensures EventOf([150, 120, 150], ["06:00", "07:00", "08:00"], 150) == Event(150, "06:00, and 08:00")
  {
    IndicesExample();
    var times := TimesAt(["06:00", "07:00", "08:00"], [0, 2]);
    assert times == ["06:00", "08:00"];
    NaturalListExamples("06:00", "08:00", "");
  }

  /** total_rain: the running sum over the hours with non-zero precipitation. */
  function RainTotal(s: seq<int>): (total: int)
  {
    if s == [] then 0
    else RainTotal(s[..|s| - 1]) + (if s[|s| - 1] != 0 then s[|s| - 1] else 0)
  }

  /** hrs_of_rain: the number of hours with non-zero precipitation. */
  function RainHours(s: seq<int>): (n: nat)
    ensures n <= |s|
  {
    if s == [] then 0
    else RainHours(s[..|s| - 1]) + (if s[|s| - 1] != 0 then 1 else 0)
  }

  /** num_daylight_hours: the number of daytime hours. */
  function DaylightHours(s: seq<bool>): (n: nat)
    ensures n <= |s|
  {
    if s == [] then 0
    else DaylightHours(s[..|s| - 1]) + (if s[|s| - 1] then 1 else 0)
  }

  /** Skipping the dry hours loses nothing: total_rain is the sum of all entries. */
  lemma {:induction false} RainTotalIsSum(s: seq<int>)
    ensures RainTotal(s) == Sum(s)
  {
    if s != [] {
      var init := s[..|s| - 1];
      RainTotalIsSum(init);
      assert s == init + [s[|s| - 1]];
      SumAppend(init, s[|s| - 1]);
    }
  }

  /** The rainy hours are the hours not recording zero. */
  lemma {:induction false} RainHoursAreNonZero(s: seq<int>)
    ensures RainHours(s) == |s| - Occurrences(s, 0)
  {
    if s != [] {
      RainHoursAreNonZero(s[..|s| - 1]);
    }
  }

  /** The daylight hours are the true entries of Is_Daytime. */
  lemma {:induction false} DaylightHoursAreTrue(s: seq<bool>)
    ensures DaylightHours(s) == Occurrences(s, true)
  {
    if s != [] {
      DaylightHoursAreTrue(s[..|s| - 1]);
    }
  }

  lemma RainExample()
    ensures RainTotal([0, 20, 0, 30]) == 50 && RainHours([0, 20, 0, 30]) == 2
  {
    var s := [0, 20, 0, 30];
    assert s[..3] == [0, 20, 0] && [0, 20, 0][..2] == [0, 20] && [0, 20][..1] == [0] && [0][..0] == [];
    assert RainTotal([0]) == 0 && RainHours([0]) == 0;
    assert RainTotal([0, 20]) == 20 && RainHours([0, 20]) == 1;
    assert RainTotal([0, 20, 0]) == 20 && RainHours([0, 20, 0]) == 1;
  }

  /** The rainfall as the f-string prints total_rain: it starts as the integer 0 and
      becomes a float once a rainy hour is added. */
  function RainText(totalRain: int, hrsOfRain: nat): (text: string)
  {
    if hrsOfRain == 0 then "0" else TenthsText(totalRain)
  }

  /** The line about an extreme temperature ("minimum" or "maximum"). */
  function TemperatureLine(kind: string, e: Event): (line: string)
  {
    "The " + kind + " temperature was " + FormatTemperature(e.value) + " at " + e.times + "."
  }

  function RainLine(totalRain: int, hrsOfRain: nat): (line: string)
  {
    "The total rain fall was " + RainText(totalRain, hrsOfRain) + "mm over " + NatText(hrsOfRain) + " hours."
  }

  function DaylightLine(daylightHours: nat): (line: string)
  {
    "The number of daylight hours was " + NatText(daylightHours) + "."
  }

  function UvLine(e: Event): (line: string)
  {
    "The maximum UV index was: " + IntText(e.value) + " at " + e.times + "."
  }

  /** The five lines of the summary text, in order. */
  function SummaryLines(minTemp: Event, maxTemp: Event, maxUv: Event,
                        totalRain: int, hrsOfRain: nat, daylightHours: nat): (lines: seq<string>)
  {
    [TemperatureLine("minimum", minTemp), TemperatureLine("maximum", maxTemp),
     RainLine(totalRain, hrsOfRain), DaylightLine(daylightHours), UvLine(maxUv)]
  }

  function SummaryText(minTemp: Event, maxTemp: Event, maxUv: Event,
                       totalRain: int, hrsOfRain: nat, daylightHours: nat): (text: string)
  {
    JoinLines(SummaryLines(minTemp, maxTemp, maxUv, totalRain, hrsOfRain, daylightHours))
  }

  /** A line made of single-line pieces is single-line. */
  lemma ThreePiecesNoLineBreak(a: string, b: string, c: string)
    requires NoLineBreak(a) && NoLineBreak(b) && NoLineBreak(c)
    ensures NoLineBreak(a + b + c)
  {
    NoLineBreakConcat(a, b);
    NoLineBreakConcat(a + b, c);
  }

  lemma TemperatureLineNoLineBreak(kind: string, e: Event)
    requires NoLineBreak(kind) && NoLineBreak(e.times)
    ensures NoLineBreak(TemperatureLine(kind, e))
  {
    TenthsTextNoLineBreak(e.value);
    ThreePiecesNoLineBreak("The ", kind, " temperature was ");
    ThreePiecesNoLineBreak("The " + kind + " temperature was ", FormatTemperature(e.value), " at ");
    ThreePiecesNoLineBreak("The " + kind + " temperature was " + FormatTemperature(e.value) + " at ", e.times, ".");
  }

  lemma RainLineNoLineBreak(totalRain: int, hrsOfRain: nat)
    ensures NoLineBreak(RainLine(totalRain, hrsOfRain))
  {
    NatTextNoLineBreak(hrsOfRain);
    TenthsTextNoLineBreak(totalRain);
    ThreePiecesNoLineBreak("The total rain fall was ", RainText(totalRain, hrsOfRain), "mm over ");
    ThreePiecesNoLineBreak("The total rain fall was " + RainText(totalRain, hrsOfRain) + "mm over ", NatText(hrsOfRain), " hours.");
  }

  lemma DaylightLineNoLineBreak(daylightHours: nat)
    ensures NoLineBreak(DaylightLine(daylightHours))
  {
    NatTextNoLineBreak(daylightHours);
    ThreePiecesNoLineBreak("The number of daylight hours was ", NatText(daylightHours), ".");
  }

  lemma UvLineNoLineBreak(e: Event)
    requires NoLineBreak(e.times)
    ensures NoLineBreak(UvLine(e))
  {
    IntTextNoLineBreak(e.value);
    ThreePiecesNoLineBreak("The maximum UV index was: ", IntText(e.value), " at ");
    ThreePiecesNoLineBreak("The maximum UV index was: " + IntText(e.value) + " at ", e.times, ".");
  }

  /** When the time lists are single-line, the summary reads back as its five lines:
      the minimum, the maximum, the rain, the daylight hours and the UV index. */
  lemma SummaryTextLines(minTemp: Event, maxTemp: Event, maxUv: Event,
                         totalRain: int, hrsOfRain: nat, daylightHours: nat)
    requires NoLineBreak(minTemp.times) && NoLineBreak(maxTemp.times) && NoLineBreak(maxUv.times)
    ensures SplitLines(SummaryText(minTemp, maxTemp, maxUv, totalRain, hrsOfRain, daylightHours))
         == SummaryLines(minTemp, maxTemp, maxUv, totalRain, hrsOfRain, daylightHours)
    ensures |SplitLines(SummaryText(minTemp, maxTemp, maxUv, totalRain, hrsOfRain, daylightHours))| == 5
  {
    TemperatureLineNoLineBreak("minimum", minTemp);
    TemperatureLineNoLineBreak("maximum", maxTemp);
    RainLineNoLineBreak(totalRain, hrsOfRain);
    DaylightLineNoLineBreak(daylightHours);
    UvLineNoLineBreak(maxUv);
    SplitJoinLines(SummaryLines(minTemp, maxTemp, maxUv, totalRain, hrsOfRain, daylightHours));
  }

  /** The times of an event drawn from single-line times are single-line. */
  lemma EventTimesNoLineBreak(values: seq<int>, times: seq<string>, v: int)
    requires |values| == |times|
    requires forall j :: 0 <= j < |times| ==> NoLineBreak(times[j])
    ensures NoLineBreak(EventOf(values, times, v).times)
  {
    NaturalListNoLineBreak(TimesAt(times, IndicesOf(values, v)));
  }

  /** The rain loop of export_historical_weather_summary. */
  method AccumulateRain(precipitation: seq<int>) returns (totalRain: int, hrsOfRain: nat)
    ensures totalRain == RainTotal(precipitation) && hrsOfRain == RainHours(precipitation)
  {
    totalRain, hrsOfRain := 0, 0;
    for i := 0 to |precipitation|
      invariant hrsOfRain == RainHours(precipitation[..i])
      invariant totalRain == RainTotal(precipitation[..i])
    {
      assert precipitation[..i + 1][..i] == precipitation[..i];
      var precip := precipitation[i];
      if precip != 0 {
        totalRain := totalRain + precip;
        hrsOfRain := hrsOfRain + 1;
      }
    }
    assert precipitation[..|precipitation|] == precipitation;
  }

  /** The daylight loop of export_historical_weather_summary. */
  method CountDaylightHours(isDaytime: seq<bool>) returns (numDaylightHours: nat)
    ensures numDaylightHours == DaylightHours(isDaytime)
  {
    numDaylightHours := 0;
    for i := 0 to |isDaytime|
      invariant numDaylightHours == DaylightHours(isDaytime[..i])
    {
      assert isDaytime[..i + 1][..i] == isDaytime[..i];
      if isDaytime[i] {
        numDaylightHours := numDaylightHours + 1;
      }
    }
    assert isDaytime[..|isDaytime|] == isDaytime;
  }

  /** The counting and text part of export_historical_weather_summary: fails when
      there are no hours (min() of an empty column); otherwise the summary of the
      three events, the rain over the rainy hours and the daylight hours. */
  method HistoricalSummary(df: DataFrame) returns (r: Result<string>)
    requires Columnar(df)
    ensures |df.time| == 0 ==> r == Err(EmptyColumn)
    ensures |df.time| > 0 ==> r == Ok(SummaryText(
      EventOf(df.temp, df.time, Min(df.temp)), EventOf(df.temp, df.time, Max(df.temp)),
      EventOf(df.uvIndex, df.time, Max(df.uvIndex)),
      RainTotal(df.precipitation), RainHours(df.precipitation), DaylightHours(df.isDaytime)))
  {
    var minTempTimes := FormatWeatherEventTimes(df, "min-temp");
    if minTempTimes.Err? {
      return Err(minTempTimes.error);
    }
    var maxTempTimes := FormatWeatherEventTimes(df, "max-temp");
    var maxUvTimes := FormatWeatherEventTimes(df, "u-v");

    var totalRain, hrsOfRain := AccumulateRain(df.precipitation);
    var numDaylightHours := CountDaylightHours(df.isDaytime);

    r := Ok(SummaryText(minTempTimes.value.value, maxTempTimes.value.value, maxUvTimes.value.value,
                        totalRain, hrsOfRain, numDaylightHours));
  }
}
