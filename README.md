# Weather summaries, modelled in Dafny

Two console scripts that turn AccuWeather JSON into text.

- **Daily forecast:** `part1/part1.py` reads a multi-day forecast and writes two texts.
  - The overview gives the lowest and highest temperatures with their dates, and the average low and high, in Celsius.
  - The summary has one block per day: date, minimum, maximum, the day and night phrases and the chances of rain.
- **Hourly history:** `part3/part3.py` reads 24 hourly observations and does three things.
  - It builds a table of seven columns.
  - It counts the weather descriptions for a bar chart.
  - It writes a five-line summary. The summary gives the minimum and maximum temperature and the maximum UV index, each with every time it occurred, plus the total rainfall over the rainy hours and the number of daylight hours.

The model is split into modules:

- `Results`: `Option`, `Result`, and the failures the model represents.
  - Division by zero items in `calculate_mean`.
  - `min()`/`max()` of an empty column.
  - `convert_date("")` in `generate_overview`, when a scan keeps its empty starting date.
  - A malformed non-empty date is not represented (see "## Left out").
- `Seqs`: sums, counts, minimum and maximum, and first-appearance order (`Dedup`).
- `OrderedDict`: a Python dict as its list of items.
  - Insertion order is kept.
  - Assigning to an existing key keeps its position.
- `Text`: how Python prints numbers, `format_temperature` (the same function in both scripts), and joining and splitting lines.
- `Forecast`: `part1/part1.py`.
- `History`: `part3/part3.py`.

Numbers are integers counting tenths: 57.2 °F is `572`, 0.4 mm is `4`. This matches the one-decimal values in the data and the one-decimal rounding of the scripts.

- Rounding to one decimal becomes rounding an integer quotient, halves upwards (`RoundDiv`).
- Python's `str()` of a one-decimal float is `Text.TenthsText`. It is proved to read back as the number it prints, with a minus sign exactly for negative numbers and no leading zero. Any text with those properties is that text.
- `convert_date` is a `strptime`/`strftime` round trip of Python's datetime. It appears as a parameter `convertDate: string -> string`.

Loops in the source are `method`s with loop invariants. Each method is proved equal to a specification function, and the properties are proved about that function:

- `ByDate`: the per-date dicts.
- `Scan`: the sentinel scans.
- `OverviewOf`: the overview values.
- `SummaryOf`: the summary text.
- `Occurrences` and `Dedup`: the chart counts.
- `IndicesOf`: the list comprehension of positions.
- `NaturalList`: the list of times.
- `RainTotal`, `RainHours` and `DaylightHours`: the summary counters.

## Model

| member | source | states |
|---|---|---|
| Forecast.ConvertFToC | part1/part1.py:31-42 | the result is within 4/9 of a tenth of the exact (F - 32) * 5 / 9: the unique nearest tenth |
| Forecast.ConvertFToCMonotone | part1/part1.py:40-42 | a higher Fahrenheit temperature never converts to a lower Celsius one |
| Forecast.ConvertFToCFixedPoints | part1/part1.py:40-42 | 32 F is 0.0 C and 212 F is 100.0 C |
| Forecast.CalculateMean | part1/part1.py:45-55 | zero items fail with a division by zero; otherwise the result is total / n rounded to the nearest tenth |
| Forecast.CalculateMeanExample | part1/part1.py:55 | 9.0 over 2 items is 4.5 |
| Forecast.ByDateKeys | part1/part1.py:66-81 | min_temps/max_temps have one key per distinct date, in order of first appearance |
| Forecast.ByDateLastRecord | part1/part1.py:80-81 | the date of the last record holds that record's temperature |
| Forecast.ByDateOtherRecord | part1/part1.py:80-81 | a later record for another date leaves a date's temperature unchanged |
| Forecast.ByDateLast | part1/part1.py:80-81 | a date holds the temperature of its last record (a repeated date is overwritten) |
| Forecast.ScanReportsFirstExtreme | part1/part1.py:87-105 | no entry beats the reported value; when some entry beats the sentinel (100 F for minima, 0 F for maxima), the reported pair is the first entry holding the extreme; otherwise the sentinel and "" are reported |
| Forecast.OverviewFacts | part1/part1.py:72-105 | day count = records; the averages are the rounded means over all records; the extremes are as the scans report them from the per-date dicts |
| Forecast.AccumulateDays | part1/part1.py:66-81 | the first loop yields the Fahrenheit sums over all records and the two per-date dicts |
| Forecast.ScanTemps | part1/part1.py:87-105 | each scan loop returns the first extreme entry, or the sentinel and an empty date |
| Forecast.GenerateOverview | part1/part1.py:58-114 | an empty forecast fails in calculate_mean; a scan that keeps the empty date fails in convert_date; otherwise the overview text with the averages converted after averaging |
| Forecast.ExampleScans | part1/part1.py:93-105 | in the two-day example both scans settle on the second day: 40 F and 90 F |
| Forecast.OverviewExample | part1/part1.py:58-105 | two days: averages 45 F / 80 F, extremes 40 F / 90 F on the second day |
| Forecast.OverviewExampleCelsius | part1/part1.py:107-112 | those figures in Celsius are 7.2 / 26.7 / 4.4 / 32.2 |
| Forecast.TwoDistinctDays | part1/part1.py:80-81 | two records for different dates give a two-entry dict in input order |
| Forecast.RepeatedDateExample | part1/part1.py:77-81 | a repeated date counts twice in the averages but only its last record is seen by the scans |
| Forecast.SentinelExample | part1/part1.py:87-114 | a minimum no lower than 100 F, or a maximum no higher than 0 F, keeps the sentinel and the empty date, so the overview fails |
| Forecast.SummaryBlockShape | part1/part1.py:145 | a day's block opens with the dashes, the converted date and the closing dashes, and ends with a blank line |
| Forecast.SummaryAppend | part1/part1.py:127-147 | the summary of two runs of days is the concatenation of their summaries |
| Forecast.SummaryBlockAt | part1/part1.py:127-147 | day i's block stands between the summaries of the days before and after it |
| Forecast.GenerateSummary | part1/part1.py:117-149 | the output is the concatenation of one block per day, in input order |
| Forecast.ProcessWeather | part1/part1.py:160-169 | the report is the overview followed by the summary; the overview's two failures stop it |
| Text.FormatTemperature | part1/part1.py:4-15 | the text ends in the degree sign and "C"; what precedes it reads back as the temperature, starts with "-" exactly for a negative one, and has no leading zero |
| Text.FormatTemperatureUnique | part3/part3.py:18-30 | any text with those properties is the one format_temperature gives: "-0.0°C" or "05.0°C" is never it |
| Text.IntText | part1/part1.py:145 | the printed rain probability has a minus sign exactly when it is negative, then digits with no leading zero that read back as its magnitude |
| Text.NatText | part1/part1.py:114 | the decimal text of a count is non-empty and all digits; it starts with "0" only for zero, which is "0" |
| Text.CanonicalDigitsAreNatText | part1/part1.py:114 | digits without a leading zero are the text str() gives their value |
| Text.TenthsText | part3/part3.py:184 | the one-decimal text starts with "-" exactly for a negative number and has no leading zero |
| Text.TenthsTextUnique | part3/part3.py:184 | any text that reads back as t, with a sign exactly for negative t and no leading zero, is str() of t |
| Text.NatTextRoundTrip | part1/part1.py:114 | the decimal text of a count reads back as the count |
| Text.TenthsTextRoundTrip | part3/part3.py:184 | the printed one-decimal number reads back as the number |
| Text.SplitJoinLines | part3/part3.py:184 | lines without line breaks are recovered, in order, by splitting their join |
| Text.NumberTextsHaveNoLineBreak | part3/part3.py:184 | printed numbers and temperatures are single-line |
| History.GetTime | part3/part3.py:5-16 | the slice [11:16] clamped to the string: at most five characters, those at positions 11.. |
| History.GetTimeExample | part3/part3.py:14 | "2021-06-19T15:55:00+08:00" gives "15:55"; the ten-character "2021-06-19" gives "" |
| History.GenerateDataFrame | part3/part3.py:42-65 | seven columns of equal length, one row per observation in input order holding its fields |
| History.CountStep | part3/part3.py:102-106 | one more description keeps the dict equal to the first-appearance order with the counts so far, and adds one to the total |
| History.CountWeatherTexts | part3/part3.py:98-106 | keys in order of first appearance, each holding its number of occurrences; the counts total the hours |
| History.SplitCounts | part3/part3.py:108-113 | text_option_list and qty_list are the dict's keys and values in order |
| History.WeatherTextCounts | part3/part3.py:98-113 | distinct descriptions in order of first appearance; each quantity counts its description; the quantities total the hours |
| History.IndicesOf | part3/part3.py:134 | exactly the positions holding the value, increasing |
| History.IndicesStep | part3/part3.py:134 | one more entry adds its position exactly when it holds the value |
| History.TimesAtMatches | part3/part3.py:142-147 | the times picked at the matching positions are exactly the times of the hours holding the value, in hour order |
| History.CommaSeparatedAppend | part3/part3.py:151-153 | each non-last time adds itself and ", " |
| History.NaturalListCons | part3/part3.py:151-155 | with a first time and others after it, the list is the first time, ", " and the list of the rest |
| History.NaturalListExamples | part3/part3.py:151-155 | no times give ""; one gives "and t"; two give "a, and b"; three give "a, b, and c" |
| History.JoinTimes | part3/part3.py:149-155 | the loop builds every time but the last followed by ", ", then "and " and the last time |
| History.FormatWeatherEventTimes | part3/part3.py:121-157 | min-temp / max-temp / u-v give the min or max of their column and the listed times of every hour holding it; an empty column fails; any other measurement gives None |
| History.EventExample | part3/part3.py:138-157 | a maximum of 15.0 at 06:00 and 08:00 gives "06:00, and 08:00" |
| History.RainTotalIsSum | part3/part3.py:173-175 | skipping dry hours loses nothing: total_rain is the sum of all precipitation |
| History.RainHoursAreNonZero | part3/part3.py:173-176 | hrs_of_rain counts the hours not recording zero |
| History.DaylightHoursAreTrue | part3/part3.py:180-182 | num_daylight_hours counts the daytime hours |
| History.RainExample | part3/part3.py:170-176 | 0, 2.0, 0, 3.0 mm give 5.0 mm over 2 hours |
| History.AccumulateRain | part3/part3.py:170-176 | the rain loop computes total_rain and hrs_of_rain |
| History.CountDaylightHours | part3/part3.py:178-182 | the daylight loop computes num_daylight_hours |
| History.SummaryTextLines | part3/part3.py:184 | with single-line times, the summary splits back into its five lines in order |
| History.EventTimesNoLineBreak | part3/part3.py:147-155 | the times of an event drawn from single-line times are single-line |
| History.HistoricalSummary | part3/part3.py:160-184 | no hours fail at min(); otherwise the five-line text of the two temperature events, the UV event, the rain and the daylight hours |
| Seqs.SumAppend | part1/part1.py:77-78 | adding one item to a running sum adds its value |
| Seqs.Min | part3/part3.py:133 | min() of a non-empty column is a member that no member is below |
| Seqs.Max | part3/part3.py:137 | max() of a non-empty column is a member that no member exceeds |
| Seqs.DedupProperties | part3/part3.py:111-113 | the keys of a dict filled from a list are distinct and are exactly the list's members |
| Seqs.OccurrencesAbsent | part3/part3.py:103-106 | a description seen for the first time has no earlier occurrences |
| OrderedDict.PutFacts | part1/part1.py:80-81 | d[k] = v keeps an existing key's position or adds k last; k then holds v and other keys keep their values |
| OrderedDict.PutKeepsOthers | part1/part1.py:80-81 | d[k] = v leaves every other key present with its value |
| OrderedDict.PutSum | part3/part3.py:104-106 | d[k] = v changes the total of the values by v minus what k held |
| OrderedDict.GetAt | part3/part3.py:111-113 | with distinct keys, the i-th item's key looks up the i-th item's value |

## Left out

- File I/O and JSON: the records arrive already parsed. This covers `json.load`, `export_as_text_file`, the report file of `export_historical_weather_summary`, and `print`.
- The input prompts (`prompt_user_to_save`, `choose_weather_report`) and the top-level script code of both scripts.
- Plotting with plotly. This covers `create_temperature_box_plots` and the figure calls of `create_weather_text_chart`. The counts behind the bar chart are modelled.
- part2/part2.py is not part of this model.
- convert_date is a parameter:
  - The `strptime`/`strftime` calendar arithmetic is not modelled.
  - An empty date is represented: `generate_overview` fails with `EmptyDate` when a scan keeps the empty starting date, because strptime rejects "".
  - A malformed date in a record, empty or not, would make `convert_date` raise too. The model does not capture that in the summary, nor a malformed non-empty date in the overview. For example, `generate_summary` raises for a record whose Date is "", while ProcessWeather returns `Ok` if the overview's scans do not pick that record.
- Python floats: temperatures and rainfall are one-decimal values held as exact integer tenths.
  - Sums are exact, so the model has no binary floating-point drift.
  - Integer fields (UV index, rain probability) are taken to be JSON integers. One-decimal fields (temperature, rainfall) are taken to be JSON floats.
  - A temperature that arrives as a JSON integer would print without ".0". The model does not cover that.
- Forecast.CalculateMean: an exact half rounds upwards. Python's `round` rounds a half that is exact in binary to even. For example, `CalculateMean(5, 2)` is `Ok(3)`, but Python's `round(0.25, 1)` is 0.2. Likewise minima of 57.0 and 57.5 average to 57.25: Python prints a 14.0 °C average low, the model 14.1 °C. A half that is not exact in binary falls on the side of its stored value. (`ConvertFToC` never meets a tie, and its result is proved to be the unique nearest tenth.)
- Loop structure: the three loops of `generate_overview` are the methods AccumulateDays and ScanTemps, which GenerateOverview calls in order. Likewise:
  - the two loops of `create_weather_text_chart` are CountWeatherTexts and SplitCounts;
  - the join loop of `format_weather_event_times` is JoinTimes;
  - the two counting loops of `export_historical_weather_summary` are AccumulateRain and CountDaylightHours.
