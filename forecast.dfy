/** The daily-forecast summariser of part1/part1.py: unit conversion, the multi-day
    overview and the per-day narrative.

    Temperatures are integer tenths of a degree (57.2 is 572). The date conversion
    convert_date (a strptime/strftime round trip) is a parameter `convertDate`. */
module Forecast {
  import opened Results
  import opened Seqs
  import opened OrderedDict
  import opened Text

  /** One entry of the DailyForecasts list, already read from the JSON file. */
  datatype DayForecast = DayForecast(
    date: string,                 // Date, ISO 8601 with offset
    minF: int,                    // Temperature.Minimum.Value, tenths of a degree F
    maxF: int,                    // Temperature.Maximum.Value, tenths of a degree F
    dayPhrase: string,            // Day.LongPhrase
    dayRainProbability: int,      // Day.RainProbability, percent
    nightPhrase: string,          // Night.LongPhrase
    nightRainProbability: int)    // Night.RainProbability, percent

  /** a / b rounded to the nearest integer, halves upwards. */
  function RoundDiv(a: int, b: int): (r: int)
    requires b > 0
    ensures -b < 2 * (b * r - a) <= b
  {
    (2 * a + b) / (2 * b)
  }

  /** convert_f_to_c: (F - 32) * 5 / 9 rounded to one decimal. In tenths the exact
      Celsius value is 5 * (f - 320) / 9, and the result is within 4/9 of a tenth of
      it: the unique nearest tenth (an exact half never occurs). */
  function ConvertFToC(f: int): (c: int)
    ensures -4 <= 9 * c - 5 * (f - 320) <= 4
  {
    RoundDiv(5 * (f - 320), 9)
  }

  lemma ConvertFToCMonotone(f1: int, f2: int)
    requires f1 <= f2
    ensures ConvertFToC(f1) <= ConvertFToC(f2)
  {
  }

  /** Freezing and boiling points: 32 F is 0.0 C and 212 F is 100.0 C. */
  lemma ConvertFToCFixedPoints()
    ensures ConvertFToC(320) == 0
    ensures ConvertFToC(2120) == 1000
  {
  }

  /** m is total / n rounded to the nearest integer, halves upwards. */
  predicate IsRoundedMean(m: int, total: int, n: nat)
  {
    -(n as int) < 2 * (n * m - total) <= n
  }

  /** calculate_mean: round(total / num_items, 1); dividing by zero items fails. */
  function CalculateMean(total: int, n: nat): (r: Result<int>)
    ensures n == 0 ==> r == Err(DivisionByZero)
    ensures n > 0 ==> r.Ok? && IsRoundedMean(r.value, total, n)
  {
    if n == 0 then Err(DivisionByZero) else Ok(RoundDiv(total, n))
  }

  lemma CalculateMeanExample()
    ensures CalculateMean(90, 2) == Ok(45)
  {
  }

  /** Which of a day's two temperatures a pass works on: the minima (scanned for the
      lowest) or the maxima (scanned for the highest). */
  datatype Bound = Low | High

  function Pick(day: DayForecast, b: Bound): (t: int)
  {
    if b == Low then day.minF else day.maxF
  }

  /** The column of minima or maxima, in input order. */
  function Picks(days: seq<DayForecast>, b: Bound): (s: seq<int>)
    ensures |s| == |days|
    ensures forall i :: 0 <= i < |days| ==> s[i] == Pick(days[i], b)
  {
    seq(|days|, i requires 0 <= i < |days| => Pick(days[i], b))
  }

  function Dates(days: seq<DayForecast>): (s: seq<string>)
    ensures |s| == |days|
    ensures forall i :: 0 <= i < |days| ==> s[i] == days[i].date
  {
    seq(|days|, i requires 0 <= i < |days| => days[i].date)
  }

  /** The min_temps or max_temps dict after the first loop: date -> temperature,
      one assignment per record in input order. */
  function ByDate(days: seq<DayForecast>, b: Bound): (temps: Dict<string, int>)
  {
    if days == [] then []
    else Put(ByDate(days[..|days| - 1], b), days[|days| - 1].date, Pick(days[|days| - 1], b))
  }

  /** The dict has one entry per distinct date, in order of first appearance. */
  lemma {:induction false} ByDateKeys(days: seq<DayForecast>, b: Bound)
    ensures Keys(ByDate(days, b)) == Dedup(Dates(days))
  {
    if days != [] {
      var n := |days|;
      ByDateKeys(days[..n - 1], b);
      PutFacts(ByDate(days[..n - 1], b), days[n - 1].date, Pick(days[n - 1], b));
      assert Dates(days)[..n - 1] == Dates(days[..n - 1]);
    }
  }

  /** The date of the last record holds that record's temperature. */
  lemma ByDateLastRecord(days: seq<DayForecast>, b: Bound)
    requires |days| > 0
    ensures days[|days| - 1].date in Keys(ByDate(days, b))
    ensures Get(ByDate(days, b), days[|days| - 1].date) == Pick(days[|days| - 1], b)
  {
    var n := |days|;
    PutFacts(ByDate(days[..n - 1], b), days[n - 1].date, Pick(days[n - 1], b));
  }

  /** A later record for another date does not disturb what a date holds. */
  lemma ByDateOtherRecord(days: seq<DayForecast>, b: Bound, key: string)
    requires |days| > 0
    requires key in Keys(ByDate(days[..|days| - 1], b)) && key != days[|days| - 1].date
    ensures key in Keys(ByDate(days, b))
    ensures Get(ByDate(days, b), key) == Get(ByDate(days[..|days| - 1], b), key)
  {
    var n := |days|;
    PutKeepsOthers(ByDate(days[..n - 1], b), days[n - 1].date, Pick(days[n - 1], b), key);
  }

  /** A date repeated in the input holds the temperature of its last record. */
  lemma {:induction false} ByDateLast(days: seq<DayForecast>, b: Bound, j: nat)
    requires j < |days|
    requires forall k :: j < k < |days| ==> days[k].date != days[j].date
    ensures days[j].date in Keys(ByDate(days, b))
    ensures Get(ByDate(days, b), days[j].date) == Pick(days[j], b)
  {
    var n := |days|;
    if j < n - 1 {
      var init := days[..n - 1];
      assert forall i :: j <= i < n - 1 ==> init[i] == days[i];
      ByDateLast(init, b, j);
      ByDateOtherRecord(days, b, days[j].date);
    } else {
      ByDateLastRecord(days, b);
    }
  }

  const MinSentinel := 1000   // min_temp = 100 (degrees F)
  const MaxSentinel := 0      // max_temp = 0 (degrees F)

  function Sentinel(b: Bound): (t: int)
  {
    if b == Low then MinSentinel else MaxSentinel
  }

  /** x replaces y in the scan: strictly lower for minima, strictly higher for maxima. */
  predicate Beats(b: Bound, x: int, y: int)
  {
    if b == Low then x < y else x > y
  }

  /** The second and third loops: walk the dict from the sentinel and an empty date,
      taking an entry whenever it strictly beats the value held so far. */
  function Scan(d: Dict<string, int>, b: Bound): (held: (string, int))
  {
    if d == [] then ("", Sentinel(b))
    else
      var held := Scan(d[..|d| - 1], b);
      var last := d[|d| - 1];
      if Beats(b, last.1, held.1) then last else held
  }

  /** What a scan reports: no stored value beats t; when some stored value beats the
      sentinel, (k, t) is a dict entry and no earlier entry holds t (the first date
      wins a tie); otherwise t is the sentinel and k is "". */
  predicate ReportsFirstExtreme(d: Dict<string, int>, b: Bound, k: string, t: int)
  {
    (forall i :: 0 <= i < |d| ==> !Beats(b, d[i].1, t)) &&
    ((exists i :: 0 <= i < |d| && Beats(b, d[i].1, Sentinel(b))) ==>
       exists i :: 0 <= i < |d| && d[i] == (k, t) && forall j :: 0 <= j < i ==> d[j].1 != t) &&
    ((forall i :: 0 <= i < |d| ==> !Beats(b, d[i].1, Sentinel(b))) ==> t == Sentinel(b) && k == "")
  }

  lemma {:induction false} ScanReportsFirstExtreme(d: Dict<string, int>, b: Bound)
    ensures ReportsFirstExtreme(d, b, Scan(d, b).0, Scan(d, b).1)
  {
    if d != [] {
      var n := |d|;
      var init := d[..n - 1];
      ScanReportsFirstExtreme(init, b);
      var held := Scan(init, b);
      var last := d[n - 1];
      assert forall i :: 0 <= i < n - 1 ==> d[i] == init[i];
      if Beats(b, last.1, held.1) {
        assert forall j :: 0 <= j < n - 1 ==> d[j].1 != last.1 by {
          forall j | 0 <= j < n - 1 ensures d[j].1 != last.1 {
            assert !Beats(b, init[j].1, held.1);
          }
        }
      } else {
        if exists i :: 0 <= i < n - 1 && Beats(b, init[i].1, Sentinel(b)) {
          var i :| 0 <= i < n - 1 && init[i] == held && forall j :: 0 <= j < i ==> init[j].1 != held.1;
          assert d[i] == held;
        }
      }
    }
  }

  /** What generate_overview computes before formatting. Averages stay in tenths of
      a degree Fahrenheit, as calculate_mean returns them. */
  datatype Overview = Overview(
    dayCount: nat,
    aveMinF: int, aveMaxF: int,
    minF: int, minDate: string,
    maxF: int, maxDate: string)

  /** The overview of a non-empty forecast, as generate_overview computes it. */
  function OverviewOf(days: seq<DayForecast>): (o: Overview)
    requires |days| > 0
  {
    var lo := Scan(ByDate(days, Low), Low);
    var hi := Scan(ByDate(days, High), High);
    Overview(|days|, RoundDiv(Sum(Picks(days, Low)), |days|), RoundDiv(Sum(Picks(days, High)), |days|),
             lo.1, lo.0, hi.1, hi.0)
  }

  /** The day count is the number of records; the averages are the rounded means of
      the Fahrenheit sums over all records (a repeated date counts twice); the minimum
      and maximum are what the sentinel scans report from the per-date dicts. */
  lemma OverviewFacts(days: seq<DayForecast>)
    requires |days| > 0
    ensures OverviewOf(days).dayCount == |days|
    ensures IsRoundedMean(OverviewOf(days).aveMinF, Sum(Picks(days, Low)), |days|)
    ensures IsRoundedMean(OverviewOf(days).aveMaxF, Sum(Picks(days, High)), |days|)
    ensures ReportsFirstExtreme(ByDate(days, Low), Low, OverviewOf(days).minDate, OverviewOf(days).minF)
    ensures ReportsFirstExtreme(ByDate(days, High), High, OverviewOf(days).maxDate, OverviewOf(days).maxF)
  {
    ScanReportsFirstExtreme(ByDate(days, Low), Low);
    ScanReportsFirstExtreme(ByDate(days, High), High);
  }

  /** The overview text of part1/part1.py:114; every temperature is converted to
      Celsius here, the averages once, after averaging. */
  function OverviewText(o: Overview, convertDate: string -> string): (text: string)
  {
    NatText(o.dayCount) + " Day Overview\n"
    + "    The lowest temperature will be " + FormatTemperature(ConvertFToC(o.minF))
    + ", and will occur on " + convertDate(o.minDate) + ".\n"
    + "    The highest temperature will be " + FormatTemperature(ConvertFToC(o.maxF))
    + ", and will occur on " + convertDate(o.maxDate) + ".\n"
    + "    The average low this week is " + FormatTemperature(ConvertFToC(o.aveMinF)) + ".\n"
    + "    The average high this week is " + FormatTemperature(ConvertFToC(o.aveMaxF)) + ".\n\n"
  }

  /** One more record: its temperature joins the sum and is assigned to its date. */
  lemma RecordStep(days: seq<DayForecast>, i: nat, b: Bound)
    requires i < |days|
    ensures Sum(Picks(days[..i + 1], b)) == Sum(Picks(days[..i], b)) + Pick(days[i], b)
    ensures ByDate(days[..i + 1], b) == Put(ByDate(days[..i], b), days[i].date, Pick(days[i], b))
  {
    assert days[..i + 1][..i] == days[..i];
    assert Picks(days[..i + 1], b) == Picks(days[..i], b) + [Pick(days[i], b)];
    SumAppend(Picks(days[..i], b), Pick(days[i], b));
  }

  /** One more dict entry: the scan takes it exactly when it beats the value held. */
  lemma ScanStep(d: Dict<string, int>, i: nat, b: Bound)
    requires i < |d|
    ensures Scan(d[..i + 1], b) == if Beats(b, d[i].1, Scan(d[..i], b).1) then d[i] else Scan(d[..i], b)
  {
    assert d[..i + 1][..i] == d[..i];
  }

  /** The first loop of generate_overview: the Fahrenheit sums over all records and
      the two per-date dicts. */
  method AccumulateDays(days: seq<DayForecast>)
    returns (sumOfMins: int, sumOfMaxs: int, minTemps: Dict<string, int>, maxTemps: Dict<string, int>)
    ensures sumOfMins == Sum(Picks(days, Low)) && sumOfMaxs == Sum(Picks(days, High))
    ensures minTemps == ByDate(days, Low) && maxTemps == ByDate(days, High)
  {
    minTemps, maxTemps := [], [];
    sumOfMins, sumOfMaxs := 0, 0;
    for i := 0 to |days|
      invariant sumOfMins == Sum(Picks(days[..i], Low))
      invariant sumOfMaxs == Sum(Picks(days[..i], High))
      invariant minTemps == ByDate(days[..i], Low)
      invariant maxTemps == ByDate(days[..i], High)
    {
      var day := days[i];
      RecordStep(days, i, Low);
      RecordStep(days, i, High);
      sumOfMins := sumOfMins + day.minF;
      sumOfMaxs := sumOfMaxs + day.maxF;
      minTemps := Put(minTemps, day.date, day.minF);
      maxTemps := Put(maxTemps, day.date, day.maxF);
    }
    assert days[..|days|] == days;
  }

  /** The second and third loops of generate_overview, which differ only in the
      sentinel and the comparison: start from the sentinel and "", and take each entry
      that strictly beats the value held. The result is the first extreme entry. */
  method ScanTemps(temps: Dict<string, int>, b: Bound) returns (date: string, temp: int)
    ensures (date, temp) == Scan(temps, b)
    ensures ReportsFirstExtreme(temps, b, date, temp)
  {
    date, temp := "", Sentinel(b);
    for i := 0 to |temps|
      invariant (date, temp) == Scan(temps[..i], b)
    {
      ScanStep(temps, i, b);
      if Beats(b, temps[i].1, temp) {
        date, temp := temps[i].0, temps[i].1;
      }
    }
    assert temps[..|temps|] == temps;
    ScanReportsFirstExtreme(temps, b);
  }

  /** A scan kept its empty starting date, which convert_date's strptime rejects. */
  predicate KeepsEmptyDate(o: Overview)
  {
    o.minDate == "" || o.maxDate == ""
  }

  /** generate_overview: fails on an empty forecast (calculate_mean divides by zero
      records), and when a scan keeps the empty date (convert_date cannot parse "");
      otherwise the overview text of OverviewOf(days). */
  method GenerateOverview(days: seq<DayForecast>, convertDate: string -> string) returns (r: Result<string>)
    ensures |days| == 0 ==> r == Err(DivisionByZero)
    ensures |days| > 0 && KeepsEmptyDate(OverviewOf(days)) ==> r == Err(EmptyDate)
    ensures |days| > 0 && !KeepsEmptyDate(OverviewOf(days)) ==> r == Ok(OverviewText(OverviewOf(days), convertDate))
  {
    var sumOfMins, sumOfMaxs, minTemps, maxTemps := AccumulateDays(days);
    var aveMin := CalculateMean(sumOfMins, |days|);
    if aveMin.Err? {
      return Err(aveMin.error);
    }
    var aveMax := CalculateMean(sumOfMaxs, |days|).value;
    var minDate, minTemp := ScanTemps(minTemps, Low);
    var maxDate, maxTemp := ScanTemps(maxTemps, High);
    var o := Overview(|days|, aveMin.value, aveMax, minTemp, minDate, maxTemp, maxDate);
    if minDate == "" || maxDate == "" {
      return Err(EmptyDate);
    }
    r := Ok(OverviewText(o, convertDate));
  }

  /** Two records for different dates give a dict of two entries, in input order. */
  lemma TwoDistinctDays(d1: DayForecast, d2: DayForecast, b: Bound)
    requires d1.date != d2.date
    ensures ByDate([d1, d2], b) == [(d1.date, Pick(d1, b)), (d2.date, Pick(d2, b))]
  {
    TwoDays(d1, d2);
    var e1 := (d1.date, Pick(d1, b));
    assert [e1][1..] == [];
    assert Put([], d1.date, Pick(d1, b)) == [e1];
    assert Put([e1], d2.date, Pick(d2, b)) == [e1] + Put([], d2.date, Pick(d2, b));
  }

  const ExampleDay1 := DayForecast("2021-06-19T07:00:00+08:00", 500, 700, "Sunny", 0, "Clear", 0)
  const ExampleDay2 := DayForecast("2021-06-20T07:00:00+08:00", 400, 900, "Cloudy", 20, "Rain", 60)

  /** In the two-day example both scans settle on the second day. */
  lemma ExampleScans()
    ensures Scan(ByDate([ExampleDay1, ExampleDay2], Low), Low) == (ExampleDay2.date, 400)
    ensures Scan(ByDate([ExampleDay1, ExampleDay2], High), High) == (ExampleDay2.date, 900)
  {
    var k1, k2 := ExampleDay1.date, ExampleDay2.date;
    assert k1 != k2 by {
      assert k1[9] != k2[9];
    }
    TwoDistinctDays(ExampleDay1, ExampleDay2, Low);
    TwoDistinctDays(ExampleDay1, ExampleDay2, High);
    assert [(k1, 500)][..0] == [] && [(k1, 700)][..0] == [];
    assert [(k1, 500), (k2, 400)][..1] == [(k1, 500)];
    assert [(k1, 700), (k2, 900)][..1] == [(k1, 700)];
    assert Scan([(k1, 500)], Low) == (k1, 500);
    assert Scan([(k1, 500), (k2, 400)], Low) == (k2, 400);
    assert Scan([(k1, 700)], High) == (k1, 700);
    assert Scan([(k1, 700), (k2, 900)], High) == (k2, 900);
  }

  /** A two-day forecast: averages 45 F and 80 F, extremes 40 F and 90 F, both on the
      second day. */
  lemma OverviewExample()
    ensures OverviewOf([ExampleDay1, ExampleDay2])
         == Overview(2, 450, 800, 400, "2021-06-20T07:00:00+08:00", 900, "2021-06-20T07:00:00+08:00")
  {
    TwoDays(ExampleDay1, ExampleDay2);
    ExampleScans();
    assert Sum(Picks([ExampleDay1, ExampleDay2], Low)) == 900;
    assert Sum(Picks([ExampleDay1, ExampleDay2], High)) == 1600;
  }

  /** The example's figures in Celsius: 7.2, 26.7, 4.4 and 32.2. */
  lemma OverviewExampleCelsius()
    ensures ConvertFToC(450) == 72 && ConvertFToC(800) == 267
    ensures ConvertFToC(400) == 44 && ConvertFToC(900) == 322
  {
  }

  /** A repeated date: the second record overwrites the first in the dicts, so the
      reported minimum is 50 F although 40 F was forecast, while both records count
      in the averages and in the day count. */
  lemma RepeatedDateExample()
    ensures var days := [DayForecast("2021-06-19T07:00:00+08:00", 400, 700, "Sunny", 0, "Clear", 0),
                         DayForecast("2021-06-19T07:00:00+08:00", 500, 600, "Cloudy", 20, "Rain", 60)];
            ByDate(days, Low) == [("2021-06-19T07:00:00+08:00", 500)] &&
            OverviewOf(days) == Overview(2, 450, 650, 500, "2021-06-19T07:00:00+08:00", 600, "2021-06-19T07:00:00+08:00")
  {
    var d1 := DayForecast("2021-06-19T07:00:00+08:00", 400, 700, "Sunny", 0, "Clear", 0);
    var d2 := DayForecast("2021-06-19T07:00:00+08:00", 500, 600, "Cloudy", 20, "Rain", 60);
    TwoDays(d1, d2);
    assert ByDate([d1, d2], Low) == [(d1.date, 500)];
    assert ByDate([d1, d2], High) == [(d1.date, 600)];
  }

  /** Unfolds the first loop of generate_overview on two records. */
  lemma TwoDays(d1: DayForecast, d2: DayForecast)
    ensures forall b :: ByDate([d1, d2], b) == Put(Put([], d1.date, Pick(d1, b)), d2.date, Pick(d2, b))
    ensures forall b :: Sum(Picks([d1, d2], b)) == Pick(d1, b) + Pick(d2, b)
  {
    assert [d1, d2][..1] == [d1];
    assert [d1][..0] == [];
    forall b ensures ByDate([d1, d2], b) == Put(Put([], d1.date, Pick(d1, b)), d2.date, Pick(d2, b)) {
      assert ByDate([d1], b) == Put([], d1.date, Pick(d1, b));
    }
    forall b ensures Sum(Picks([d1, d2], b)) == Pick(d1, b) + Pick(d2, b) {
      var p1, p2 := Pick(d1, b), Pick(d2, b);
      assert Picks([d1, d2], b) == [p1, p2];
      assert [p1, p2][1..] == [p2];
      assert [p2][1..] == [];
      assert Sum([p2]) == p2;
      assert Sum([p1, p2]) == p1 + Sum([p2]);
    }
  }

  /** No minimum below the 100 F sentinel, or no maximum above the 0 F one: the scan
      keeps the sentinel and the empty date, so generate_overview fails. */
  lemma SentinelExample()
    ensures var hot := [DayForecast("2021-06-19T07:00:00+08:00", 1000, 1100, "Hot", 0, "Hot", 0)];
            OverviewOf(hot).minF == 1000 && OverviewOf(hot).minDate == ""
    ensures var cold := [DayForecast("2021-06-19T07:00:00+08:00", -100, -50, "Snow", 0, "Snow", 0)];
            OverviewOf(cold).maxF == 0 && OverviewOf(cold).maxDate == ""
    ensures var hot := [DayForecast("2021-06-19T07:00:00+08:00", 1000, 1100, "Hot", 0, "Hot", 0)];
            var cold := [DayForecast("2021-06-19T07:00:00+08:00", -100, -50, "Snow", 0, "Snow", 0)];
            KeepsEmptyDate(OverviewOf(hot)) && KeepsEmptyDate(OverviewOf(cold))
  {
    var hot := [DayForecast("2021-06-19T07:00:00+08:00", 1000, 1100, "Hot", 0, "Hot", 0)];
    var cold := [DayForecast("2021-06-19T07:00:00+08:00", -100, -50, "Snow", 0, "Snow", 0)];
    assert hot[..0] == [] && cold[..0] == [];
    var dh := [(hot[0].date, 1000)];
    var dc := [(cold[0].date, -50)];
    assert ByDate(hot, Low) == dh;
    assert ByDate(cold, High) == dc;
    assert dh[..0] == [] && dc[..0] == [];
  }

  /** The text block generate_summary writes for one day (part1/part1.py:145). */
  function SummaryBlock(day: DayForecast, convertDate: string -> string): (block: string)
  {
    SummaryHead(day, convertDate) + " --------\n" + SummaryLinesOfDay(day) + "\n\n"
  }

  function SummaryHead(day: DayForecast, convertDate: string -> string): (head: string)
  {
    "-------- " + convertDate(day.date)
  }

  function SummaryLinesOfDay(day: DayForecast): (lines: string)
  {
    "Minimum Temperature: " + FormatTemperature(ConvertFToC(day.minF)) + "\n"
    + "Maximum Temperature: " + FormatTemperature(ConvertFToC(day.maxF)) + "\n"
    + "Daytime: " + day.dayPhrase + "\n"
    + "    Chance of rain:  " + IntText(day.dayRainProbability) + "%\n"
    + "Nighttime: " + day.nightPhrase + "\n"
    + "    Chance of rain:  " + IntText(day.nightRainProbability) + "%"
  }

  /** A day's block opens with the dashes and the converted date, continues with the
      closing dashes, and ends with a blank line. */
  lemma SummaryBlockShape(day: DayForecast, convertDate: string -> string)
    ensures var r := SummaryBlock(day, convertDate);
      |r| >= 21 + |convertDate(day.date)| &&
      r[..9 + |convertDate(day.date)|] == "-------- " + convertDate(day.date) &&
      r[9 + |convertDate(day.date)|..19 + |convertDate(day.date)|] == " --------\n" &&
      r[|r| - 2..] == "\n\n"
  {
    ConcatPieces(SummaryHead(day, convertDate), " --------\n", SummaryLinesOfDay(day), "\n\n");
  }

  /** The blocks of all days, in input order. */
  function SummaryOf(days: seq<DayForecast>, convertDate: string -> string): (summary: string)
  {
    if days == [] then "" else SummaryBlock(days[0], convertDate) + SummaryOf(days[1..], convertDate)
  }

  lemma SummaryOfOne(day: DayForecast, convertDate: string -> string)
    ensures SummaryOf([day], convertDate) == SummaryBlock(day, convertDate)
  {
    assert [day][1..] == [];
  }

  /** The summary of two consecutive runs of days is the summary of the first run
      followed by the summary of the second. */
  lemma {:induction false} SummaryAppend(a: seq<DayForecast>, b: seq<DayForecast>, convertDate: string -> string)
    ensures SummaryOf(a + b, convertDate) == SummaryOf(a, convertDate) + SummaryOf(b, convertDate)
  {
    if a == [] {
      assert a + b == b;
    } else {
      assert (a + b)[0] == a[0] && (a + b)[1..] == a[1..] + b;
      SummaryAppend(a[1..], b, convertDate);
      var first, rest, tail := SummaryBlock(a[0], convertDate), SummaryOf(a[1..], convertDate), SummaryOf(b, convertDate);
      assert SummaryOf(a + b, convertDate) == first + (rest + tail);
      ConcatAssoc(first, rest, tail);
    }
  }

  /** Exactly one block per record: the block of day i stands between the summary of
      the days before it and the summary of the days after it. */
  lemma SummaryBlockAt(days: seq<DayForecast>, i: nat, convertDate: string -> string)
    requires i < |days|
    ensures SummaryOf(days, convertDate)
         == SummaryOf(days[..i], convertDate) + SummaryBlock(days[i], convertDate) + SummaryOf(days[i + 1..], convertDate)
  {
    var before, after := days[..i], days[i + 1..];
    var tail := [days[i]] + after;
    SplitAt(days, i);
    SummaryAppend(before, tail, convertDate);
    SummaryAppend([days[i]], after, convertDate);
    SummaryOfOne(days[i], convertDate);
    var sb, sd, sa := SummaryOf(before, convertDate), SummaryBlock(days[i], convertDate), SummaryOf(after, convertDate);
    assert SummaryOf(days, convertDate) == sb + (sd + sa);
    ConcatAssoc(sb, sd, sa);
  }

  /** One more day appends its block. */
  lemma SummaryStep(days: seq<DayForecast>, i: nat, convertDate: string -> string)
    requires i < |days|
    ensures SummaryOf(days[..i + 1], convertDate) == SummaryOf(days[..i], convertDate) + SummaryBlock(days[i], convertDate)
  {
    assert days[..i + 1] == days[..i] + [days[i]];
    SummaryAppend(days[..i], [days[i]], convertDate);
    SummaryOfOne(days[i], convertDate);
  }

  /** generate_summary: appends one block per day to an initially empty output. */
  method GenerateSummary(days: seq<DayForecast>, convertDate: string -> string) returns (output: string)
    ensures output == SummaryOf(days, convertDate)
  {
    output := "";
    for i := 0 to |days|
      invariant output == SummaryOf(days[..i], convertDate)
    {
      SummaryStep(days, i, convertDate);
      output := output + SummaryBlock(days[i], convertDate);
    }
    assert days[..|days|] == days;
  }

  /** process_weather without the file: the overview followed by the summary; the
      failures of the overview stop it before the summary is made. */
  method ProcessWeather(days: seq<DayForecast>, convertDate: string -> string) returns (r: Result<string>)
    ensures |days| == 0 ==> r == Err(DivisionByZero)
    ensures |days| > 0 && KeepsEmptyDate(OverviewOf(days)) ==> r == Err(EmptyDate)
    ensures |days| > 0 && !KeepsEmptyDate(OverviewOf(days)) ==>
      r == Ok(OverviewText(OverviewOf(days), convertDate) + SummaryOf(days, convertDate))
  {
    var overview := GenerateOverview(days, convertDate);
    if overview.Err? {
      return Err(overview.error);
    }
    var summary := GenerateSummary(days, convertDate);
    r := Ok(overview.value + summary);
  }
}
