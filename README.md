# hideoo profile stats: a Dafny model

The repository builds the statistics card of a GitHub profile. From the
npm registry it takes the monthly download counts of a maintainer's
packages. It keeps a persisted ledger of month counts (`history.json`)
and takes the last thirteen months of it. From the GitHub GraphQL API it
takes the contribution calendar of thirteen calendar months and groups it
by month: the twelve whole months before the current one, fetched as one
range for the month twelve back, and one range from the start of the month
eleven back to now, which ends with the current month to date. It fills
SVG templates (`__NAME__` and `[[NAME]]` placeholders) with layout
numbers, colours and chart data.

This project models the logic between those I/O calls:

- `Calendar`: the date-fns operations the code relies on, over
  `(year, month, day)` dates and `(date, milliseconds)` instants. These are
  `startOfMonth`, `endOfMonth` (Gregorian month lengths), `subMonths` (the
  day is clamped), `subDays` and `endOfDay`. It also holds `yyyy-MM` month
  keys as `YearMonth` values and the `{ count, date }` series entries.
- `Decimal`: `String(n)` and `Number.parseInt(s, 10)` on integers.
- `Npm` (src/libs/npm.ts), covering:
  - the ledger merge `{ ...history, ...recent }`;
  - the current-month period and the thirteen query periods;
  - the thirteen-month projection and its total;
  - the split of package names into scoped and unscoped lists;
  - the decision taken on each answer of the download-point endpoint, including the HTTP 429 `Retry-After` rule, and the retry recursion;
  - unwrapping a one-package answer;
  - summing all packages into the single current-month key.
- `GitHub` (src/libs/github.ts):
  - the two adjacent query ranges;
  - the in-place merge of the two fetched calendars, a class whose fields the method updates;
  - the nested grouping loop that turns days into one entry per run of same-month days.
- `Templates` (src/libs/template.ts, and the common part of both svg files):
  - the global `replaceAll(/<open>(\w+)<close>/g, …)` scan, parameterised by the delimiters;
  - the replacement, parameterised by the rejection rule: `typeof value === 'undefined'` or `!value`;
  - reading the template and writing the result over a file system given as a map from path to text.
- `LibSvg` (src/libs/svg.ts) and `Svg` (src/svg.ts): the variables records of `generateStatsChart` and the `generateChart` functions.
- `Config`: the numbers and colours taken from src/config.ts.

Nothing is fetched, read, written or timed. Answers of the npm and GitHub
endpoints, the current date, and the file system are parameters.

## Model

| member | source | states |
|---|---|---|
| Calendar.DaysInMonth | src/libs/npm.ts:165 | `endOfMonth` lengths: every month has 28 to 31 days; 29 exactly for February of a leap year, 28 exactly for February of a common year |
| Calendar.YearLength | src/libs/npm.ts:163-168 | the month lengths of a year add up to 366 in a leap year and 365 otherwise |
| Calendar.MonthsBefore | src/libs/npm.ts:164 | the month `n` months back is a valid month whose index is `n` less |
| Calendar.MonthsBeforeStep | src/libs/npm.ts:163-165 | going back one month more, one month at a time, reaches the month `n + 1` back |
| Calendar.MonthBeforeIsLexicographic | src/libs/npm.ts:27-34 | month order is year first, then month |
| Calendar.MonthIndexInjective | src/libs/npm.ts:27-34 | two valid months with the same index are the same month |
| Calendar.FirstDay | src/libs/npm.ts:138 | `startOfMonth`: a valid date of that month, day 1 |
| Calendar.LastDay | src/libs/npm.ts:165 | `endOfMonth`: a valid date of that month, and no valid date of the month has a later day |
| Calendar.SubMonths | src/libs/npm.ts:164 | `subMonths`: a valid date in the month `n` back, its day the original day clamped to that month's length |
| Calendar.PrevDay | src/libs/github.ts:17 | `subDays(·, 1)`: a valid date strictly before the given one, with no valid date between the two |
| Calendar.NextDay | src/libs/github.ts:17-18 | a valid date strictly after the given one, with no valid date between the two |
| Calendar.NextDayOfPrevDay | src/libs/github.ts:17 | the day after the previous day is the day itself |
| Calendar.PrevDayOfFirstDay | src/libs/github.ts:17 | the day before the first of a month is the last day of the month before |
| Calendar.NextDayOfLastDay | src/libs/github.ts:17-18 | the day after the last of a month is the first day of the next month |
| Calendar.StartOfMonthInstant | src/libs/github.ts:13 | `startOfMonth` on an instant: midnight of day 1 of its month |
| Calendar.EndOfDay | src/libs/github.ts:17 | `endOfDay`: the same date at the latest millisecond of the day |
| Calendar.SubDayInstant | src/libs/github.ts:17 | `subDays(·, 1)` on an instant: the previous date, the same time of day |
| Calendar.SubMonthsInstant | src/libs/github.ts:13 | `subMonths` on an instant: the clamped date `n` months back, the same time of day |
| Calendar.NextInstant | src/libs/github.ts:17-18 | the millisecond after a valid instant: a valid, strictly later instant, with no valid instant between the two |
| Decimal.NatToString | src/libs/svg.ts:9-28 | `String(n)` of a natural number: a non-empty run of digits without a leading zero |
| Decimal.NatToStringRoundTrip | src/libs/svg.ts:9-28 | the digits `String(n)` writes denote `n` |
| Decimal.IntToString | src/libs/svg.ts:9-28 | `String(n)` of an integer: non-empty; only digits for `n >= 0`; a `-` followed by a non-empty run of digits for `n < 0` |
| Decimal.ParseIntDefinedIff | src/libs/npm.ts:104 | `parseInt(s, 10)` gives a number exactly when, after leading white space, a digit follows, directly or after one `+` or `-`; a negative result needs the `-` |
| Decimal.ParseIntOfIntToString | src/libs/npm.ts:104 | `parseInt(String(n) + rest, 10)` is `n` for every integer `n` when `rest` does not start with a digit |
| Decimal.ParseIntOfNumeral | src/libs/npm.ts:104 | `parseInt(String(n), 10)` is `n` |
| Npm.MergeLedger | src/libs/npm.ts:22 | the merged ledger has the keys of both, the fresh value for every fresh key, and the old value for every other key |
| Npm.MergeIdempotent | src/libs/npm.ts:22 | merging the same fresh values twice gives the ledger merging them once gives |
| Npm.CountOrZero | src/libs/npm.ts:30 | `ledger[date] ?? 0`: a missing month counts 0, a present one its value |
| Npm.CurrentMonthPeriod | src/libs/npm.ts:134-145 | the current period runs from day 1 of the month of `now` to `now` and is keyed by that month |
| Npm.LastYearPeriods | src/libs/npm.ts:147-170 | 13 periods: first the current month to date, then for `i` = 1..12 the whole `i`-th previous month, from its first to its last day |
| Npm.Reversed | src/libs/npm.ts:27 | `reverse()`: the same length, the element at position `i` is the one at position `i` from the input's end |
| Npm.OldestFirstDates | src/libs/npm.ts:27 | the reversed periods list the thirteen months oldest first, each `12 - i` months back, ending with the month of `now`, strictly ascending |
| Npm.WindowDownloads | src/libs/npm.ts:26-34 | one entry per period, in order: the ledger's count for the period's month or 0, and a total that is the sum of the entries |
| Npm.PersistRecentDownloads | src/libs/npm.ts:18-37 | writes back the merged ledger. The series has 13 entries, oldest first, the month of `now` last, months strictly ascending. Each count is the merged ledger's value or 0, and the total is the sum of the counts |
| Npm.PartitionPackages | src/libs/npm.ts:51-58 | the two lists are exactly the unscoped and the scoped names, each filtered in input order |
| Npm.PartitionIsExact | src/libs/npm.ts:54-58 | every scoped-list name starts with `@` and no unscoped-list name does; a name is in the input if and only if it is in one of the two lists |
| Npm.PartitionIsPermutation | src/libs/npm.ts:54-58 | each name lands in exactly one list: together the lists are a permutation of the input |
| Npm.PartitionPreservesOrder | src/libs/npm.ts:54-58 | splitting a concatenation splits each part: input order is kept in both lists |
| Npm.PackageDownloads | src/libs/npm.ts:72 | `json[pkg]?.downloads`, or 0 when falsy: a missing entry or a missing count is 0, a present count is itself |
| Npm.Unwrap | src/libs/npm.ts:129-131 | a one-package answer is a record whose only key is that package, holding the answer's count; an answer for any other number of packages is the record as it came |
| Npm.UnwrapOnePackage | src/libs/npm.ts:129-130 | a one-package answer becomes a record with that package as its only key, holding the answer's count |
| Npm.UnwrapManyPackages | src/libs/npm.ts:129-131 | an answer for any other number of packages is read as it is |
| Npm.RetryAfterMs | src/libs/npm.ts:103-106 | a `Retry-After` is usable exactly when it parses as a non-zero integer (an empty header never parses), and then gives that many seconds in milliseconds |
| Npm.Decide | src/libs/npm.ts:102-123 | accepted exactly on a 2xx status, with the answer's body. Waits exactly on a 429 with a usable `Retry-After`, for its milliseconds plus 2000. Otherwise it throws the rate-limit error on a 429 and the status error on anything else |
| Npm.RetryAfterSeconds | src/libs/npm.ts:102-116 | `Retry-After: n` waits `n * 1000 + 2000` ms, except that 0 throws |
| Npm.RetryAfterUnusable | src/libs/npm.ts:103-110 | a missing or non-numeric `Retry-After` on a 429 throws |
| Npm.FetchPackagesDownloads | src/libs/npm.ts:95-132 | at most one wait per answer. Without a retry cap it is still waiting exactly when every answer asked for a wait |
| Npm.FetchWaitAt | src/libs/npm.ts:102-116 | the `i`-th wait is the one the `i`-th answer asked for: a 429 with a usable header, for its milliseconds plus 2000 |
| Npm.FetchEndsOn | src/libs/npm.ts:118-131 | the recursion stops at the first answer that asks for no wait: accepted, with that answer's body unwrapped, or thrown, with that answer's error |
| Npm.FetchRecentPackagesDownloads | src/libs/npm.ts:63-93 | a failing batched answer or scoped answer is thrown, the first failing one. Otherwise the result has the single current-month key holding the sum of all packages' downloads, or is empty when there are no packages |
| GitHub.DaysConcat | src/libs/github.ts:39-40 | the days of concatenated week lists are the concatenated days |
| GitHub.Step | src/libs/github.ts:41-49 | one day of the loop adds at most one entry, and leaves at least one |
| GitHub.GroupOnto | src/libs/github.ts:39-51 | running the loop from existing entries keeps them counted and adds at most one entry per day, and at least one entry remains once a day was seen |
| GitHub.GroupByMonth | src/libs/github.ts:37-51 | at most one entry per day, and no entries exactly when there are no days |
| GitHub.GroupSum | src/libs/github.ts:45-49 | grouping keeps the sum: the entry counts add up to the day counts |
| GitHub.GroupShape | src/libs/github.ts:37-46 | no days give no entries. Otherwise there is one entry more than there are month changes, and the last entry is the last day's month. Adjacent entries never share a month |
| GitHub.GroupAscending | src/libs/github.ts:41-46 | on chronologically ordered days the entries' months strictly ascend |
| GitHub.GroupOneMonth | src/libs/github.ts:45-49 | days of one month give one entry holding their sum |
| GitHub.GroupOntoConcat | src/libs/github.ts:39-51 | running the loop over `a + b` is running it over `a`, then over `b` |
| GitHub.GroupOntoNonEmpty | src/libs/github.ts:39-51 | continuing the loop from existing entries appends the grouping of the new days, joining the boundary entries when they share a month |
| GitHub.GroupConcat | src/libs/github.ts:39-51 | the grouping of two adjacent day lists is the two groupings one after the other, with the entries of a month that spans the split joined into one holding their sum |
| GitHub.GroupFirst | src/libs/github.ts:45-46 | the first entry is the month of the first day |
| GitHub.MergeContributions | src/libs/github.ts:25-34 | `dataLeft` is changed in place and returned. Its weeks become the right weeks followed by its own, and its total becomes the sum of both totals |
| GitHub.ParseContributions | src/libs/github.ts:36-57 | the entries are the month grouping of the calendar's days. Their counts sum to the day counts, and adjacent entries never share a month. The total is the reported one, passed through |
| GitHub.ContributionRanges | src/libs/github.ts:12-18 | the first range runs from midnight of day 1 of the month eleven months back to `now`. The second runs from midnight of day 1 to the last millisecond of the last day of the month twelve months back. The second ends the millisecond before the first starts |
| GitHub.FetchContributions | src/libs/github.ts:11-23 | the two ranges as above. The entries are the grouping of the older range's days followed by the newer range's, and the total is the sum of both reported totals |
| Templates.WordRun | src/libs/template.ts:12 | the leading run of `\w` characters: all word characters, followed by a non-word character or the end |
| Templates.NameLength | src/libs/template.ts:12 | the greedy `\w+` backing off: a length within the word run after which the closing delimiter follows, or 0 |
| Templates.NameLengthMaximal | src/libs/template.ts:12 | no longer length within the word run is followed by the closing delimiter: the back-off stops at the longest |
| Templates.MatchAt | src/libs/template.ts:12 | a match at the start of the text captures a non-empty word run enclosed in the delimiters |
| Templates.MatchAtIsLongest | src/libs/template.ts:12 | whenever some non-empty word run between the delimiters starts the text, there is a match, and it captures the longest such run |
| Templates.Step | src/libs/template.ts:12 | one step of the global scan consumes at least one character and no more than the rest of the text |
| Templates.Tokenize | src/libs/template.ts:12 | the scan yields no tokens exactly for the empty template |
| Templates.TokenizeRoundTrip | src/libs/template.ts:12 | the scan loses nothing: writing the tokens back gives the template |
| Templates.TokenizeNames | src/svg.ts:17 | every captured name is a non-empty run of word characters |
| Templates.Fill | src/libs/template.ts:12-20 | a failure names a variable the rule rejects, and is a `TypeError` exactly under the `undefined` rule |
| Templates.Substitute | src/libs/template.ts:12-20 | `replaceAll` with the callback: a failure names a variable the rule rejects, and is a `TypeError` exactly under the `undefined` rule |
| Templates.FillFailsOnFirstRejected | src/libs/template.ts:12-20 | replacement fails exactly when some placeholder's variable is rejected, and reports the first such placeholder |
| Templates.SubstituteFailsIffRejected | src/libs/template.ts:15-17 | a template fails exactly when one of its placeholders names a rejected variable. The error is a `TypeError` exactly under the `undefined` rule |
| Templates.FillWithOwnText | src/libs/template.ts:12-20 | each placeholder is replaced one for one, with no rescanning: values equal to their own placeholder text give back the written tokens |
| Templates.TemplateWithoutPlaceholders | src/libs/template.ts:12 | a template without a match is returned unchanged |
| Templates.SubstituteWithOwnText | src/svg.ts:17-25 | variables that hold their own placeholder text leave the template as it is |
| Templates.FalsyStringsRejected | src/libs/svg.ts:38-40 | with string values, `!value` fails exactly on a placeholder whose variable is missing or empty |
| Templates.Process | src/libs/template.ts:10-22 | a missing template or a rejected variable throws and writes nothing. Otherwise the output path gets the filled template and nothing else changes |
| Templates.CompileTemplate | src/libs/template.ts:4-23 | succeeds exactly when the template exists and every placeholder is defined. A rejected variable throws a `TypeError` and writes nothing. On success the file system is the old one with `<outputPath>/<fileName>` set to the filled template |
| Templates.UnderscoresMatch | src/libs/template.ts:12 | on `__A____B__` the greedy run backs off to the last closing `__`, capturing `A____B` |
| Templates.UnderscoresInsideName | src/libs/template.ts:12 | `__A____B__` is one placeholder named `A____B` |
| Templates.LeadingUnderscoreInName | src/libs/template.ts:12 | `___X__` is one placeholder named `_X` |
| Templates.ValuesAreNotRescanned | src/libs/template.ts:12 | a value `__B__` is inserted as it is, though `B` is undefined |
| Templates.FalsyZeroByRule | src/libs/template.ts:15-19 | `0` is accepted and written as `0` by `typeof value === 'undefined'`, and rejected by `!value` |
| LibSvg.GenerateChart | src/libs/svg.ts:32-46 | succeeds exactly when `templates/<file>` exists and every placeholder names a non-empty variable. Failures are plain `Error`s and write nothing. On success the file system is the old one with `assets/<file>` set to the filled template |
| LibSvg.StatsChartVariablesAsWritten | src/libs/svg.ts:7-29 | the record as written passes the chart data through unchanged |
| LibSvg.StatsChartVariables | src/libs/svg.ts:7-29 | the corrected record passes the chart data through unchanged |
| LibSvg.StatsChartEntries | src/libs/svg.ts:7-29 | both records have exactly the fourteen names |
| LibSvg.RecordsAgreeOutsideLegend | src/libs/svg.ts:7-29 | the two records differ only in `LEGEND_X` and `LEGEND_Y`: every other entry is the same layout value |
| LibSvg.StatsChartValuesNonEmpty | src/libs/svg.ts:9-28 | in both records every value other than the chart data is non-empty |
| LibSvg.GenerateStatsChart | src/libs/svg.ts:6-30 | as written: a failure writes nothing and is a plain `Error`. A success fills `templates/stats.svg` with the as-written record and sets `assets/stats.svg` to it, nothing else |
| LibSvg.GenerateStatsChartIntended | src/libs/svg.ts:6-30 | the same with the corrected record |
| LibSvg.StatsChartColours | src/libs/svg.ts:13-24 | the legend and separator colours are the configured ones |
| LibSvg.StatsViewBox | src/libs/svg.ts:25-26 | the view box is height 220 by width 850 |
| LibSvg.StatsChartArea | src/libs/svg.ts:9-12 | the chart area is the height less both borders and the width less the legend and both borders |
| LibSvg.StatsWrapper | src/libs/svg.ts:27-28 | the wrapper is the view box less one border each way |
| LibSvg.LegendPosition | src/libs/svg.ts:17-23 | corrected: the legend sits `margin.x` right of the chart area and `margin.y` below the top border |
| LibSvg.LegendTextAsWritten | src/libs/svg.ts:17-23 | as written: `LEGEND_X` is `668[object Object]` and `LEGEND_Y` is `1[object Object]` |
| LibSvg.LegendPositionAsWritten | src/libs/svg.ts:17-23 | as written, read as numbers the legend position loses the margin and differs from the corrected position |
| LibSvg.RecordFailsIff | src/libs/svg.ts:32-45 | any record with the fourteen names, the chart data, and otherwise non-empty values fails exactly when the template is missing, names an unknown variable, or uses `CHART_DATA` with empty chart data |
| LibSvg.StatsChartFailsIff | src/libs/svg.ts:6-45 | with either record, the stats chart fails exactly when the template is missing, names an unknown variable, or uses `CHART_DATA` with empty chart data |
| Svg.GenerateChart | src/svg.ts:14-28 | succeeds exactly when `templates/<file>` exists and every `[[NAME]]` names a non-empty variable. Failures are plain `Error`s and write nothing. On success the file system is the old one with `assets/<file>` set to the filled template |
| Svg.StatsChartVariables | src/svg.ts:6-12 | the record has `CHART_DATA`, `HEIGHT` and `WIDTH`, the data verbatim and the sizes non-empty |
| Svg.GenerateStatsChart | src/svg.ts:6-28 | a failure writes nothing and is a plain `Error`. A success fills `templates/stats.svg` with the record and sets `assets/stats.svg` to it, nothing else |
| Svg.StatsChartSize | src/svg.ts:9-10 | `HEIGHT` and `WIDTH` read back as the configured 220 and 850 |
| Svg.StatsChartFailsIff | src/svg.ts:6-28 | the stats chart fails exactly when the template is missing, names a variable other than the three, or uses `CHART_DATA` with empty chart data |
| Svg.EmptyBracketsAreText | src/svg.ts:17 | a template `[[]]` has no word run between the brackets, so it is copied as it is, whatever the variables |

## Left out

- HTTP requests and JSON decoding (src/libs/npm.ts:40-49, src/libs/npm.ts:100, src/libs/github.ts:59-101). Answers are parameters: a sequence of npm answers per request, one batched answer, a reply per scoped package, and the two GitHub calendars.
- The `setTimeout` pauses. The waits of the 429 rule (the `Retry-After` time plus 2000 ms, src/libs/npm.ts:114) are recorded as delays. The 2000 ms pause after each 2xx answer (src/libs/npm.ts:125) is not recorded. Error answers get no pause.
- The logging (`console.info`).
- Reading and writing `history.json` and its JSON text (src/libs/npm.ts:19-24). The ledger read is a parameter and the ledger to write is a result.
- Template and asset file I/O. It is a map from path to text, and `path.join` is plain `dir + "/" + name` without normalisation.
- `process.env`, the maintainer search query, the GraphQL query text, and the timezone-offset shift of the GitHub range bounds (src/libs/github.ts:86-88).
- The UTC-versus-local behaviour of `new Date('yyyy-MM')` and `format`. A day's month key is the year and month of its date, and ledger keys are `YearMonth` values rather than `yyyy-MM` strings.
- The current clock. `now` is a parameter: a date for npm, an instant for GitHub.
- Npm.LastYearPeriods: the source reads the clock twice, once in `getCurrentMonthPeriod` for period 0 (src/libs/npm.ts:135, called at :148) and again for the twelve previous months (src/libs/npm.ts:158). The model reads it once: one `now` serves both. The proved thirteen distinct, strictly ascending months (also in Npm.OldestFirstDates and Npm.PersistRecentDownloads) therefore assume that both reads fall in the same month. If the month changes between them, the source's periods 0 and 1 name the same month and the new current month is missing.
- Npm.FetchPackagesDownloads: without a retry cap the source can wait forever. The model runs over a finite sequence of answers and ends in `StillWaiting` when they are all usable 429s.
- npm counts and GitHub counts are integers. Fractional and NaN numbers and their formatting are not modelled, and `String(n)` is written for integers only.
- Decimal.IntToString, Decimal.ParseIntOfIntToString, Decimal.ParseIntOfNumeral: JavaScript numbers are doubles. Integers are exact only up to 2^53, and `String(n)` switches to exponent notation from 1e21 up (`String(1e21)` is `1e+21`, which `parseInt` reads as 1). The model's integers are unbounded and always written as plain digits, so these members hold for the source only below those bounds. The layout numbers, download counts and `Retry-After` values of this program stay far below them.
- A template variable name that is an `Object.prototype` key (for example `constructor`) is treated like any other key not in the record.
- GitHub.ParseContributions: `lastContribution.count +=` updates the entry object inside the list. The model replaces the last entry with an updated copy, so aliasing of that object is not captured.
- src/libs/chart.ts, src/libs/color.ts, src/libs/markdown.ts and src/index.ts are not part of this model: they are chart-library calls, floating-point colour arithmetic and orchestration. `fetchRecentNpmDownloads` and `fetchGitHubStats` only chain modelled operations.
- The source reads `legend.margin` as a number in `LEGEND_X`/`LEGEND_Y`, but it is an object `{ x, y }` (src/config.ts:15-18). `LibSvg.StatsChartVariablesAsWritten` and `LibSvg.GenerateStatsChart` model the code as written; `LibSvg.StatsChartVariables` and `LibSvg.GenerateStatsChartIntended` model the evident intent. See Findings.
- Templates.CompileTemplate: the default `outputPath = 'assets'` (src/libs/template.ts:8) is not modelled, because Dafny has no optional parameters. The output directory is always an argument; the one caller (src/libs/markdown.ts:6-17) passes `'.'`, and a call that omits it is `CompileTemplate(…, "assets")`.

## Findings

| source | as written | input that shows it | evidently intended | confidence | as-written member | corrected member |
|---|---|---|---|---|---|---|
| src/libs/svg.ts:17-23 | `LEGEND_X` = `String(width − legend.width − 2·border + legend.margin)` and `LEGEND_Y` = `String(border + legend.margin)`. `legend.margin` is the object `{ x: 14, y: 18 }`, so JavaScript concatenates `[object Object]` | any chart: `LEGEND_X` is `668[object Object]` and `LEGEND_Y` is `1[object Object]`; read as numbers, 668 and 1 instead of 682 and 19 | add `legend.margin.x` and `legend.margin.y` | not executed | LibSvg.LegendPositionAsWritten, LibSvg.GenerateStatsChart | LibSvg.LegendPosition, LibSvg.GenerateStatsChartIntended |
