# Sales dashboard: aggregation and date-range picker, modelled in Dafny

The dashboard is a single React page. It makes up one record per day for a
selected date range: sales, transactions, revenue and average order value
(AOV). It then rolls those days up into months and charts both series. Its
calendar widget lays each month out as a grid of six weeks. Clicking days in
that grid picks a `{from, to}` range.

This project models the logic inside that page:

- **Metrics**: the record shape, the AOV with its divide-by-zero guard, and
  the `yyyy-MM` month key: the first seven characters of the date label, as
  `substring(0, 7)` takes them from an ASCII label.
- **Daily**: the mock daily generator. The `Math.random()` draws and the
  formatted day labels are parameters. The module proves the value ranges the
  generator guarantees.
- **Monthly**: the group-by of `generateMonthlyData`. The source's
  insertion-ordered `Map` is modelled as an association list. `Accumulate`
  folds the days into it one at a time, and `GenerateMonthlyData` emits one
  record per entry. The module proves five properties against independent
  reference definitions:
  - one record per distinct month key;
  - months in order of first occurrence;
  - per-month sums;
  - AOV recomputed from those sums;
  - conservation of the grand totals.
- **CalendarGrid**: the nested loop of `renderMonth`. It is proved equal to a
  closed-form layout, and that layout shows every day exactly once, in order,
  within six weeks.
- **RangePicker**: the three-case click transition on the selection and the
  `isSelected` / `isInRange` predicates. The module proves the `from <= to`
  invariant and what two and three clicks select.
- **GeneratedMonths**: what the generator's ranges mean for the monthly
  series. Every month built from generated days has at least 20
  transactions, so the AOV guard never fires.
- **Wrappers**: an `Option` type for the fields the source leaves `undefined`.

Modelling choices:
- Revenue and AOV are exact `real`s.
- Range-picker dates are day numbers compared by order.
- `daysInMonth` and `firstDayOfMonth` are inputs of the grid.

## Model

| member | source | states |
|---|---|---|
| Metrics.Aov | src/App.js:70 | AOV times transactions is the revenue when there is at least one transaction; otherwise the AOV is 0 (the guard is `> 0`) |
| Metrics.MonthKey | src/App.js:47 | the month key is a prefix of the date label, 7 characters long, or the whole label when it is shorter |
| Daily.DailyRecord | src/App.js:24-36 | for draws in [0, 1): sales in 50..149, transactions in 20..69, revenue between 5 and 15 times sales; the AOV follows the guard and equals revenue / transactions |
| Daily.GenerateDailyData | src/App.js:19-40 | the generator emits exactly `days` records when `days > 0` and none otherwise; record i carries day i's label and draws |
| Daily.GeneratedIsPlausible | src/App.js:26 | with uniform draws, every generated day has at least 20 transactions |
| GeneratedMonths.MonthTransactionsAtLeast20 | src/App.js:49-60 | a month key present among days with at least 20 transactions each sums to at least 20 transactions |
| GeneratedMonths.MonthRecordHasOrders | src/App.js:70 | a monthly record built from such days has at least 20 transactions, so its AOV is revenue / transactions |
| GeneratedMonths.MonthlyAovOfPlausible | src/App.js:64-72 | on generated daily data, every monthly record has at least 20 transactions and its AOV guard never fires |
| Monthly.Find | src/App.js:48-49 | `has`/`get` on the Map: finds a position holding the key, or proves the key absent |
| Monthly.AddAt | src/App.js:50-54 | `set` on a key already in the Map: the key list and every other entry stay unchanged, and that entry's sums grow by the day's values |
| Monthly.Upsert | src/App.js:48-61 | a month already in the Map leaves its key list unchanged; a new month is appended last, as in an insertion-ordered Map |
| Monthly.Accumulate | src/App.js:46-62 | after the fold, the Map's keys are exactly the month keys of the input, and it never has more entries than there are days |
| Monthly.SummaryKeysDistinct | src/App.js:44-61 | the Map never holds one month key at two positions |
| Monthly.AddAtSums | src/App.js:48-54 | adding a day to the entry of its own month keeps every entry equal to the sums of its month's days, the day now included |
| Monthly.AddAtOrder | src/App.js:48-54 | updating an existing entry in place keeps every key among the input's month keys and keeps first-seen order |
| Monthly.UpsertExisting | src/App.js:48-54 | adding a day to a month already in the Map keeps the summary invariant: its sums grow by the day's values in place, and no other entry or the order changes |
| Monthly.UpsertNew | src/App.js:55-61 | a day of a new month appends an entry holding the day's values, after all earlier months, and keeps the summary invariant |
| Monthly.AppendSums | src/App.js:55-61 | appending a new month's entry keeps every entry equal to the sums of its month's days; the new entry holds exactly that day's values |
| Monthly.AppendOrder | src/App.js:55-61 | the appended month's key first occurs after the first occurrence of every earlier key, so first-seen order is kept |
| Monthly.UpsertStep | src/App.js:46-61 | one `forEach` step keeps the Map a summary of the days seen so far: the same keys, the per-key sums, and first-seen order |
| Monthly.AccumulateSummarises | src/App.js:44-62 | after all days, the Map holds exactly the month keys of the input, each with the sums of its days, in first-seen order |
| Monthly.Emit | src/App.js:64-71 | the emitted record's date is the entry's key and its sales, transactions and revenue are the entry's sums; its AOV is revenue / transactions when there are transactions and 0 otherwise |
| Monthly.GenerateMonthlyData | src/App.js:42-74 | every output month is a month key of the input, and every input key has an output record. Keys are pairwise distinct and appear in order of first occurrence. Each record's sales, transactions and revenue are that month's sums, and its AOV is computed from those sums |
| Monthly.EmittedSummary | src/App.js:64-72 | emitting the Map entry by entry carries its keys, sums and order over to the monthly records |
| Monthly.UpsertConserves | src/App.js:48-61 | one step adds exactly the day's sales, transactions and revenue to the Map's grand total |
| Monthly.AccumulateConserves | src/App.js:46-62 | the Map's grand total equals the grand total of the days visited |
| Monthly.MonthlyConservesTotals | src/App.js:49-68 | total sales, transactions and revenue of the monthly series equal those of the daily series |
| Monthly.MonthCount | src/App.js:44-72 | the number of monthly records is the number of distinct month keys of the input, so never more than the number of days |
| Monthly.SingleMonth | src/App.js:44-72 | days that all share one month key give exactly one monthly record: that key, the days' sums, and the AOV of those sums |
| Monthly.MonthlyOfEmpty | src/App.js:43-46 | aggregating no days yields no months |
| Monthly.JanuaryExample | src/App.js:42-74 | days with 100 revenue over 10 transactions and 50 over 5 in January 2024 give one month: revenue 150, 15 transactions, AOV 10 |
| Monthly.MonthlyAovIsNotMeanOfDaily | src/App.js:70 | the monthly AOV is the month's revenue over its transactions (102/11), not the mean of the daily AOVs (6) |
| CalendarGrid.RenderMonth | src/App.js:110-161 | the loop yields 6 weeks of 7 cells. The cell at row-major index `first + d - 1` shows day d for each day of the month, and every other cell is blank |
| CalendarGrid.DaysShownPrefix | src/App.js:110-158 | reading the first m cells of the layout shows the days 1..k in order, where k is the number of days placed before position m |
| CalendarGrid.LayoutShowsEveryDayOnce | src/App.js:112 | for 28 to 31 days starting on any weekday, six weeks show every day 1..n exactly once, in increasing order, and nothing else |
| CalendarGrid.DayPosition | src/App.js:112-115 | day d sits in week (first + d - 1) / 7, which is below 6, column (first + d - 1) % 7 |
| CalendarGrid.PaddingIsBlank | src/App.js:115-116 | cells before the first weekday and after the last day are blank |
| RangePicker.OnDayClick | src/App.js:138-151 | a click always yields an ordered selection that has a start and contains the clicked day. An end is set exactly when there was a start and no end; the two ends are then the old start and the clicked day, earlier first. Otherwise the clicked day is the new start and the end is dropped |
| RangePicker.IsSelected | src/App.js:119-120 | a day is drawn as selected exactly when it is one of the ends the selection has |
| RangePicker.IsInRange | src/App.js:121-122 | a day can be in range only when the selection has both ends in order, and in such a selection both ends are in range |
| RangePicker.ClicksKeepOrder | src/App.js:141-150 | from an ordered selection, any sequence of clicks keeps `from <= to` whenever `to` is present |
| RangePicker.OrderedRangeContainsEnds | src/App.js:119-122 | in an ordered selection with both ends, both ends are in the range and drawn as selected |
| RangePicker.InitialSelection | src/App.js:202-205 | the initial selection is ordered, and its range is exactly the days from 30 days before today up to today |
| RangePicker.TwoClicksSelectSpan | src/App.js:138-151 | from a fresh start, two clicks put exactly the days between them in the range, whichever day is clicked first; exactly the two clicked days are drawn as selected |
| RangePicker.ThirdClickRestarts | src/App.js:149-151 | a third click drops the range and starts a new one at the clicked day, with no day in range |

## Left out

- `Math.random()` (src/App.js:25-27) is nondeterministic. Its draws are the `draws` parameter of `GenerateDailyData`. The bounds are proved for draws in [0, 1).
- The two-decimal rounding by `toFixed` / `parseFloat` (src/App.js:34-35, 69-70) is not modelled. Revenue and AOV are exact reals. In the source, a day's AOV is computed from the unrounded revenue, and a month's revenue is rounded only after summing.
- Metrics.MonthKey: counts characters (Unicode scalar values), while JS `substring` counts UTF-16 code units. The two agree on the ASCII `yyyy-MM-dd` labels that `format` produces. They differ on labels with characters outside the Basic Multilingual Plane, which the model does not cover.
- Metrics.Record: sales and transactions are integers, as the generator makes them. The source's fields are JS numbers, so fractional counts such as 0.5 transactions, which pass the `> 0` guard of src/App.js:70, are not modelled.
- Daily.GenerateDailyData: the day labels come from date arithmetic and `format` of the date-fns library. They are the `dayLabel` parameter, so the claim that consecutive calendar days are generated is not modelled.
- CalendarGrid.RenderMonth: `daysInMonth` and `firstDayOfMonth` come from the platform's `Date` (src/App.js:91-101) and are inputs here. The weekday is required to be 0..6, the range `getDay` returns.
- RangePicker: dates are day numbers. In the source the initial selection carries a time of day (src/App.js:203-204), so `fullDate >= selected.from` compares a midnight with a later instant. The model ignores time of day.
- RangePicker.InitialSelection: "30 days ago" is taken as day number `today - 30`. The `setDate` arithmetic is not modelled.
- The day count passed to the generator (src/App.js:214-216) is left out. It divides milliseconds in floating point and rounds up, and depends on time zone and daylight saving.
- `isToday` (src/App.js:123) depends on the clock and only affects styling.
- The cell colours (src/App.js:133-134), the month navigation buttons, `numberOfMonths` (src/App.js:181-191), `formatDateRange`, the click-outside listener, and all chart and layout JSX are rendering and are left out.
- There is no concurrency: the dashboard recomputes synchronously when the range changes.
