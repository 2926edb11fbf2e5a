# Household electricity dashboard — verified model

The dashboard in `st.py` has two tabs. The **calculator** keeps an editable table of
appliances (name, power in watts, hours of use per day) in the session, converts each
row to daily and monthly kWh on a thirty-day month, sums the monthly figures, prices
the total with a three-bracket progressive tariff (200 kWh at 100, the next 200 kWh at
200, the rest at 300) and compares it with a monthly goal. The **data tab** loads rows
of per-district monthly household figures, strips the thousands separators from the
household count and the bill before reading them as integers, selects the rows of one
district, and groups all rows by period to derive per-household usage and bill.

This project models that logic in Dafny, with kWh and money as exact `real` values:

| file | module | what it holds |
|---|---|---|
| `results.dfy` | `Results` | `Option` and `Result` |
| `energy.dfy` | `Energy` | appliance rows, daily/monthly kWh, the monthly total |
| `tariff.dfy` | `Tariff` | the progressive bill and its properties |
| `goal.dfy` | `Goal` | the goal comparison |
| `device_table.dfy` | `DeviceTable` | the session's appliance table as a class with in-place updates |
| `number_text.dfy` | `NumberText` | comma stripping and integer parsing, with a grouped formatter as its inverse |
| `usage_data.dfy` | `UsageData` | loading, the district filter, the per-period aggregation |

The appliance table is a class: its `rows` field is rewritten by the form loop
(`ApplyForm`, one `Store` per row, as the `for idx, device in enumerate(...)` loop
does), grown by `Add` and shrunk by `Delete`; `Valid()` keeps at least three rows,
each with power and hours of at least 1. Everything else is pure and is modelled
as functions with lemmas.

The widgets are inputs: a number widget with a lower bound of 1 is modelled as
yielding its value held at 1 or above (`NumberWidget`), and a widget the user left
alone yields the value it was showing (`Entry.Kept`). The clicks on "add" and
"delete" are boolean inputs of `Table.Rerun`.

## Model

| member | source | states |
|---|---|---|
| `Energy.DailyKWh` | st.py:70 | a row's daily kWh times 1000 is its watts times its hours |
| `Energy.MonthlyKWh` | st.py:71 | a row's monthly kWh times 1000 is 30 times its watts times its hours |
| `Energy.TotalMonthlyKWh` | st.py:90 | the monthly figures summed over all rows; when every row has power and hours at least 1 the total is at least 0.03 kWh per row and never negative (its exact value is given by `TotalIsScaledWattHours`) |
| `Energy.TotalOfEmpty` | st.py:90 | a table with no rows has a total of 0 (an edge case of the total alone: the session's table never has fewer than three rows) |
| `Energy.TotalIsScaledWattHours` | st.py:70-90 | the monthly total times 1000 is 30 times the summed daily watt-hours of all rows (an integer reference sum) |
| `Energy.TotalOfConcat` | st.py:90 | the total over two tables laid end to end is the sum of their totals |
| `Energy.StoredRowDrawsAtLeast` | st.py:70-71 | a row with power and hours at least 1 draws at least 0.03 kWh a month |
| `Tariff.FirstBranch` | st.py:95 | the first-bracket charge; it meets the second branch at 200 kWh (`BranchesMeetAtEdges`) |
| `Tariff.SecondBranch` | st.py:97 | the second-bracket charge; it meets the first branch at 200 kWh and the third at 400 kWh (`BranchesMeetAtEdges`) |
| `Tariff.ThirdBranch` | st.py:99 | the third-bracket charge; it meets the second branch at 400 kWh (`BranchesMeetAtEdges`) |
| `Tariff.Bill` | st.py:94-99 | for non-negative usage the bill lies between 100 and 300 per kWh and is non-negative; up to 200 kWh it is exactly 100 per kWh |
| `Tariff.BillIsProgressive` | st.py:94-99 | for non-negative usage the branch-by-branch bill equals charging each bracket at its own rate for the part of the usage inside it |
| `Tariff.BranchesMeetAtEdges` | st.py:94-99 | the first and second branch both give 20000 at 200 kWh, the second and third both give 60000 at 400 kWh |
| `Tariff.BillIncrement` | st.py:94-99 | between two usages the bill rises by at least 100 and at most 300 per kWh of difference (monotone and continuous) |
| `Tariff.BillMonotone` | st.py:94-99 | the bill never decreases as usage grows |
| `Tariff.BillExamples` | st.py:94-99 | 150 kWh costs 15000, 200 costs 20000, 300 costs 40000, 400 costs 60000, 500 costs 90000, 0 costs 0 |
| `Goal.Compare` | st.py:106-110 | no feedback exactly when the goal is 0; an excess exactly when usage is above the goal, strictly positive and adding to the goal gives the usage; otherwise a non-negative margin that adds to the usage to give the goal; so the excess is the signed difference usage − goal when it is positive, and the margin is its negation otherwise |
| `Goal.CompareExamples` | st.py:106-110 | 250 against 200 exceeds by 50; 150 against 200 leaves 50; 200 against 200 leaves 0 |
| `DeviceTable.NumberWidget` | st.py:34-49 | the widget's value is at least 1; a kept value that was already at least 1 and an entered value of at least 1 come through unchanged |
| `DeviceTable.TextWidget` | st.py:33 | the name widget yields the stored name when left alone and the entered name otherwise; its effect on a row is stated by `FromForm` |
| `DeviceTable.FromForm` | st.py:33-54 | a row rewritten from its widgets has power and hours at least 1; an entered name is written as entered, a kept name stays; an entered power or hours of at least 1 is written as entered; a kept power or hours of at least 1 stays as stored, whatever the other widgets of the row yield |
| `DeviceTable.Edited` | st.py:30-54 | after the form pass the table has the same length and each row is what its own widgets yield from that row, storable |
| `DeviceTable.Table.constructor` | st.py:22-25 | the session starts with exactly three rows of no name, 1 W and 1 hour, and the table is valid |
| `DeviceTable.Table.Store` | st.py:50-54 | row `idx` becomes the new row, the length is unchanged, no other row changes, and the table stays valid |
| `DeviceTable.Table.ApplyForm` | st.py:30-54 | the loop over the rows leaves exactly the edited table and keeps the table valid |
| `DeviceTable.Table.Add` | st.py:59-60 | one default row is appended at the end and the existing rows are unchanged |
| `DeviceTable.Table.Delete` | st.py:63-64 | the last row is removed exactly when more than three rows were there; otherwise nothing changes; the length never drops below three |
| `DeviceTable.Table.Rerun` | st.py:30-65 | one run of the tab: the form pass, then an optional append, then a deletion when clicked and more than three rows are there |
| `DeviceTable.AddRaisesTotal` | st.py:60-90 | appending the default row raises the monthly total by exactly 0.03 kWh |
| `DeviceTable.DeleteLowersTotal` | st.py:64-90 | removing the last row lowers the monthly total by exactly that row's monthly kWh |
| `DeviceTable.ValidTableTotal` | st.py:22-90 | a valid table always draws at least 0.09 kWh a month |
| `DeviceTable.ValidTableBill` | st.py:90-99 | the bill of a valid table is at least 9 |
| `NumberText.StripCommas` | st.py:122 | the result has no comma, is no longer than the input, and keeps every other character as often as it occurs |
| `NumberText.ParseInt` | st.py:122 | a text parses exactly when it is one or more digits, optionally after a single '+' or '-'; digits give their decimal value, '+' digits the same, '-' digits its negation; every other text fails |
| `NumberText.ParseGrouped` | st.py:122 | a count read after its commas are removed; text without commas reads as `ParseInt` reads it; its round trip and comma-insensitivity are `GroupedRoundTrip` and `CommaAnywhere` |
| `NumberText.StripCommasConcat` | st.py:122 | stripping commas distributes over concatenation |
| `NumberText.StripCommasWithout` | st.py:124 | text without commas is left unchanged |
| `NumberText.DigitsRoundTrip` | st.py:122 | reading the decimal digits of n gives back n |
| `NumberText.GroupedStripsToDigits` | st.py:122 | removing the commas of n written in groups of three digits leaves the plain digits of n |
| `NumberText.GroupedRoundTrip` | st.py:122 | every comma-grouped non-negative count reads back as the count it was written from |
| `NumberText.CommaAnywhere` | st.py:124 | inserting a comma at any position does not change the value read |
| `NumberText.ParseGroupedExample` | st.py:122 | "1,234" reads as 1234 |
| `UsageData.ParseColumn` | st.py:122 | a column converts to values that are exactly the parsed texts row by row, or fails at the first row whose text does not parse |
| `UsageData.Load` | st.py:121-124 | a load keeps district, period and usage per row and holds the parsed counts and bills; a household failure names the first bad row; a bill failure comes only after every household count parsed and names the first bad bill |
| `UsageData.LoadSucceedsIff` | st.py:121-124 | loading succeeds exactly when every household count and every bill parses |
| `UsageData.ForDistrict` | st.py:133 | the selection is no longer than the input and holds only rows of the chosen district |
| `UsageData.ForDistrictConcat` | st.py:133 | selecting over two runs of rows laid end to end selects each run in place, so the order is kept |
| `UsageData.ForDistrictCount` | st.py:133 | every row of the district is kept as often as it occurs and every other row is dropped |
| `UsageData.ForDistrictKeepsAll` | st.py:133 | rows that all belong to the district are kept exactly |
| `UsageData.ForDistrictIdempotent` | st.py:133 | selecting the same district twice changes nothing more |
| `UsageData.InPeriod` | st.py:159 | the rows selected for a period all have that period |
| `UsageData.InPeriodCount` | st.py:159 | every row of the period is selected as often as it occurs and every other row is dropped |
| `UsageData.Aggregate` | st.py:159-163 | the group-by over periods; its keys are `AggregateKeys` and its sums `AggregateSums` |
| `UsageData.AggregateKeys` | st.py:159-163 | there is one group for each period that occurs and no other |
| `UsageData.AggregateSums` | st.py:159-163 | each group's households, usage and bill are the sums over that period's rows |
| `UsageData.Summarize` | st.py:164-165 | per-household figures are defined exactly when the household count is non-zero, and each times the count gives the total |
| `UsageData.Trend` | st.py:159-165 | the as-written trend table: one summary per period from the summed columns; its content is `TrendPerPeriod` |
| `UsageData.TrendPerPeriod` | st.py:159-165 | the trend has a summary for exactly the periods that occur, each the summary of that period's sums |
| `UsageData.TrendExample` | st.py:159-165 | two districts of one period with 10 and 20 households and usages 100 and 200 give 30 households, 300 kWh and 10 kWh per household |
| `UsageData.NoHouseholdsUndefined` | st.py:164-165 | a period whose household counts sum to zero has undefined per-household figures |
| `UsageData.HouseholdsOfSum` | st.py:160 | the household count of a run of rows is the one the per-period totals hold |
| `UsageData.WeightedTrend` | st.py:159-165 | corrected half of the finding below: the trend with each average weighted by its households; its bound is `WeightedAverageWithinDistricts` |
| `UsageData.WeightedUsageBounds` | st.py:159-165 | corrected half of the finding below: with every district average between lo and hi, the household-weighted usage is between lo and hi times the household count |
| `UsageData.GroupAverageBounds` | st.py:159-165 | corrected half of the finding below: the household-weighted usage per household of a group with households lies between its smallest and largest district average |
| `UsageData.WeightedAverageWithinDistricts` | st.py:159-165 | corrected half of the finding below: in the weighted trend, a period's usage per household lies between the smallest and largest district average of that period |
| `UsageData.SummedAveragesFinding` | st.py:159-165 | as written, districts averaging 100 and 200 kWh report less than either; weighted, the figure is 5000/30 |

## Findings

| source | as written | input that shows it | evidently intended | confidence | as-written member | corrected member |
|---|---|---|---|---|---|---|
| st.py:159-165 | the per-household averages of the districts are summed and the sum divided by the total household count | two districts of one period, 10 households averaging 100 kWh and 20 households averaging 200 kWh: 300 / 30 = 10 kWh per household, below every district | each district's average weighted by its households before dividing, giving 5000 / 30 kWh, between the district averages | medium, not executed | `UsageData.SummedAveragesFinding` | `UsageData.WeightedAverageWithinDistricts` |

`UsageData.Trend` models the code as written and `UsageData.WeightedTrend` the
weighted figures; the same applies to the bill column (st.py:162, 165).

## Left out

- Page layout, tabs, columns, titles, messages, the file uploader, the district and option pickers: presentation only; their values are inputs of the model.
- All charts (pie chart, bar charts, trend line, tick labels) and the font setup, including the undefined `rc` at st.py:8: rendering only.
- Number formatting of the displayed figures (`:.2f`, `:,.0f`): display only.
- Floating-point rounding: kWh and money are exact reals, so no sum or quotient is rounded.
- CSV reading and pandas' column machinery: the file is a sequence of `RawRow`s whose usage column already holds a number; the float conversion of that column (st.py:123) is not modelled.
- The `.str` accessor failing on a column that pandas already read as numbers, and missing cells: file-format details of pandas.
- NumberText.ParseInt: Python's `int` also accepts surrounding whitespace, underscores between digits and non-ASCII decimal digits; the model accepts only an optional sign followed by ASCII digits.
- NumberText.ParseGrouped: pandas' `astype(int)` converts to 64-bit integers and fails on a count or bill above 2^63 − 1; the model's integers are unbounded, so such a text parses.
- Energy.DailyKWh: the product of power and hours is a 64-bit integer in pandas and wraps once that product exceeds 2^63 − 1, which happens already when both factors are about 3.1·10^9; the model's product does not wrap.
- UsageData.NoHouseholdsUndefined: pandas gives inf or NaN for a zero household count; the model gives an undefined value (`None`) instead.
- UsageData.Aggregate: pandas sorts the groups by period, which only orders the trend chart's x-axis; the model is a map from period to totals.
- The selectable districts (`unique()`, st.py:132) feed the picker only.
- Streamlit keeps each widget's value under its key across runs; the model takes the widget values of one run as given (`FormRow`).
- The pie chart's guard on a positive daily total (st.py:76) only decides whether a chart is drawn.

## Notes on the error paths

- A failed load is modelled as `Err(BadNumber(column, row))`, naming the column and the first row that does not parse. The code itself just stops with Python's parse error at that value; it produces no error record of its own.
- The goal comparison models `if goal_energy:` as "the goal is non-zero"; the widget's lower bound of 1 means the no-feedback case does not arise from the form.
