# Food inflation and household income by Malaysian state: the data preparation

This project models the data preparation behind a choropleth map of
food inflation by Malaysian state. It covers everything `loadData` in `js/main.js` does between
loading the two CSV files and returning the joined table:

- **State-name normaliser** (`StateNames`). A fixed table maps spelling variants such as
  `"W.P. Kuala Lumpur"` or `"Pulau Pinang"` to the names the map geometry uses.
  Names the table does not know pass through unchanged.
- **Inflation extractor** (`Inflation`). It keeps the CPI rows of division `"01"` (Food &
  Non-Alcoholic Beverages) dated `"2025-08-01"`, in source order. Each kept row
  becomes a record of its normalised state and its parsed year-over-year inflation.
- **Income aggregator** (`Income`). A loop over the household-income rows. Every row
  dated in 2022 with a non-empty `income_median` is filed under its normalised
  state, and a later row overwrites an earlier one.
- **Left join** (`Join`). Every inflation record is copied, and the income filed under its state is
  attached, or `null` when that income is missing or falsy.
- **The whole preparation** (`Pipeline`). A method that strings the three steps together, and the
  function it is proved equal to.

Modelling choices:

- **Rows.** A row is a `map<string, string>` from column name to cell text. The CSV
  parser writes `""` into a missing cell, so `Values.Field` reads an
  absent column as `""`.
- **Numbers.** A JavaScript number is `Values.Number`: a finite real, an infinity, or NaN.
  The pipeline never does arithmetic on these values. It only tests their
  truthiness, and zero and NaN are the falsy ones.
- **Library parsing.** The numeric parse `+s` and the year extraction
  `new Date(s).getFullYear()` are library behaviour, so they are parameters:
  `parse: string -> Number` and `yearOf: string -> int`. Every statement holds
  for every choice of them, except the worked examples. These assume
  `parse("2.5") == Finite(2.5)`, `parse("6000") == Finite(6000.0)` and
  `yearOf("2022-06-01") == 2022`, and say so in their preconditions.
- **The table.** The lookup table has 19 entries: 7 variant spellings and 12 names that map
  to themselves. Its values are 16 canonical state names.
- **Field names.** The category column is called `division`, as in the code.

## Model

| member | source | states |
|---|---|---|
| `Values.Field` | js/main.js:42-55 | Reading a cell, with `""` for a missing one, as the CSV parser writes it. No contract of its own. |
| `Values.TruthyString` | js/main.js:54 | JavaScript truthiness of a string, the `&& d.income_median` test: true exactly for a non-empty string. No contract of its own. |
| `Values.TruthyNumber` | js/main.js:63 | JavaScript truthiness of a number, the `\|\| null` test: false exactly for zero and NaN. No contract of its own. |
| `StateNames.NormalizeState` | js/main.js:2-28 | `STATE_NORMALIZE[state] \|\| state`: a key of the table gives its entry, which is always a canonical name, because no entry is the empty string. Any other string is returned unchanged. |
| `StateNames.VariantSpellings` | js/main.js:4-10 | Each of the seven variant spellings normalises to its canonical name (three federal-territory names and `Penang`). |
| `StateNames.IdentityEntries` | js/main.js:11-23 | Each of the twelve identity names is a key and is returned unchanged. |
| `StateNames.TableShape` | js/main.js:2-24 | The keys are exactly the 7 variants and the 12 identity names. A variant never maps to itself. A name is canonical exactly when it is the value of some entry. |
| `StateNames.TableValuesAreFixed` | js/main.js:2-24 | Every value of the table is either a key that maps to itself or not a key at all. |
| `StateNames.NormalizeIdempotent` | js/main.js:26-28 | Normalising twice gives the same result as normalising once. |
| `StateNames.NormalizeToCanonical` | js/main.js:26-28 | The result is a canonical name exactly when the input is a key of the table or is already canonical. |
| `Inflation.IsFoodSnapshot` | js/main.js:42 | The filter's test: `division` is `"01"` and `date` is `"2025-08-01"`, both by exact string equality. No contract of its own; `FoodSnapshotCells` states what it requires of a row. |
| `Inflation.FoodSnapshotCells` | js/main.js:42 | A row passes the filter exactly when both columns are present with exactly those values, so a row missing either column never matches. |
| `Inflation.ToRecord` | js/main.js:43-46 | The projection of one kept row. A state found in the table becomes a canonical name, and any other state is kept as written. |
| `Inflation.FilterFoodSnapshot` | js/main.js:41-42 | Every row the filter keeps has division `"01"` and date `"2025-08-01"`, is one of the input rows, and no more rows are kept than were given. |
| `Inflation.KeptIndices` | js/main.js:42 | An independent description of the filter: the positions of the matching rows, strictly increasing. A position is listed exactly when its row matches. |
| `Inflation.FilterAppend` | js/main.js:42 | Filtering distributes over concatenation. |
| `Inflation.FilterByIndices` | js/main.js:41-42 | The filter's output has one row per matching position, and its i-th row is the row at the i-th matching position. |
| `Inflation.Project` | js/main.js:43-46 | The `.map` step over the kept rows. No contract of its own; `ExtractInflation` states what it yields. |
| `Inflation.ExtractInflation` | js/main.js:41-46 | The `filter`/`map` chain. It emits exactly one record per matching row, in source order, and never deduplicates: the output has one record per matching position, and the i-th record is the projection of the row at the i-th matching position. |
| `Inflation.ExtractedFromMatchingRow` | js/main.js:43-46 | Every record comes from a matching row. Its `state` is that row's normalised state, and its `yoyInflation` is the parse of the same row's `inflation_yoy`. |
| `Inflation.ExtractAppend` | js/main.js:41-46 | Extraction distributes over concatenation: each row contributes independently, in order. |
| `Inflation.ExtractSingle` | js/main.js:41-46 | One row yields its projection when both tests pass, and nothing when either fails. |
| `Income.StateOf` | js/main.js:52 | The state a row is filed under, `normalizeState(d.state)`: a canonical name when the row's state is a table key, and the cell as written otherwise. |
| `Income.IncomeOf` | js/main.js:55 | The value a row stores, `+d.income_median`, through the parse parameter. No contract of its own. |
| `Income.Counts` | js/main.js:51-54 | The callback's test, `year === 2022 && d.income_median`. A row that counts has an `income_median` column with a non-empty value. |
| `Income.LastFiled` | js/main.js:54-55 | Reference search: the position of the last row that counts (year 2022 and non-empty income) whose state normalises to the given state. `None` exactly when there is no such row. |
| `Income.Store` | js/main.js:51-56 | The `forEach` callback. A row that does not count leaves the dictionary unchanged. A row that counts adds or overwrites its own state's entry with its parsed income, and every other entry keeps its value. |
| `Income.IncomeByState` | js/main.js:49-57 | The dictionary `latestIncome` after the callback has run on every row in order, starting from `{}`. No contract of its own: `LastWriteWins` proves it is last-write-wins, and `AggregateIncome` proves the loop computes it. |
| `Income.AggregateIncome` | js/main.js:49-57 | The loop over `incomeData` returns the dictionary of the callback applied to every row in order. A state is a key exactly when some row is filed under it, and its value is the income of the last such row. |
| `Income.LastWriteWins` | js/main.js:49-57 | Induction over the rows: the dictionary's keys are exactly the states with a last filed row, and each value is that row's parsed income. |
| `Income.IncomeKeys` | js/main.js:54-55 | A state is a key exactly when some row counts and normalises to it. |
| `Income.LastRowWins` | js/main.js:54-55 | When row j counts and no later row is filed under its state, the entry for that state holds row j's income. |
| `Income.LaterRowOverwrites` | js/main.js:54-55 | Of two counting rows for one state, the later row's income is the only entry. |
| `Income.SkippedRowIrrelevant` | js/main.js:54-56 | A row whose year is not 2022 or whose income is empty can be removed from anywhere in the input without changing the dictionary. |
| `Join.LookupIncome` | js/main.js:63 | `latestIncome[d.state] \|\| null`: the result is `null` exactly when the state is not a key or its stored value is zero or NaN. Otherwise it is the stored value. |
| `Join.JoinOne` | js/main.js:60-64 | One joined record. Removing its income gives back the inflation record, and an attached income is the dictionary's value for that state. |
| `Join.JoinIncome` | js/main.js:60-64 | The output has the same length as the inflation records. Record i copies the `state` and `yoy_inflation` of input record i. |
| `Join.JoinKeepsLeftSide` | js/main.js:60-64 | Whatever the dictionary holds, stripping the incomes from the output gives back the inflation records exactly. |
| `Join.JoinedIncome` | js/main.js:63 | A record gets an income exactly when its state is a key with a truthy value, and then it gets that value. |
| `Join.JoinEmptyIncome` | js/main.js:63 | With an empty dictionary every record's income is `null`. |
| `Join.JoinFalsyIncome` | js/main.js:63 | A stored zero or NaN is not attached: the income is `null`. |
| `Join.JoinAppend` | js/main.js:60-64 | The join distributes over concatenation of the inflation records. |
| `Pipeline.ProcessData` | js/main.js:41-64 | There is one joined record per matching CPI row, in source order. It carries that row's normalised state and parsed inflation, and the income that the last-write-wins dictionary holds for that state. |
| `Pipeline.LoadData` | js/main.js:41-68 | The data-processing body of `loadData`, with the income scan done by the loop, returns exactly `ProcessData` of its two inputs. |
| `Pipeline.UnmatchedStateGetsNull` | js/main.js:49-64 | A record whose state no counting income row normalises to gets `null`. |
| `Pipeline.MatchedStateGetsLastIncome` | js/main.js:49-64 | A record gets the income of the last counting row for its state when that income is truthy, and `null` when it is zero or NaN. |
| `Pipeline.KualaLumpurExample` | js/main.js:41-64 | Worked example. Of two CPI rows only the division `"01"` row is kept. Its state `"WP Kuala Lumpur"` becomes `"Kuala Lumpur"`, and it gets the 2022 income 6000. |
| `Pipeline.SabahWithoutIncomeExample` | js/main.js:41-64 | Worked example. A state with no 2022 income row keeps its inflation and gets a `null` income. |

## Left out

- Loading the two CSV files with `d3.csv` (js/main.js:34, 37) is file and network I/O, so it is left out. The model takes the two parsed row sequences as inputs.
- The `try`/`catch` fallback to `[]` and the `console` logging (js/main.js:66, 70-73) are left out: no modelled step can throw, and logging is only output.
- `createVegaSpec` (js/main.js:77-172) is left out. It is a constant configuration literal that embeds `data`, with no logic to prove.
- `vegaEmbed` and `renderVisualization` (js/main.js:175-198) are left out: they are an external renderer and promise callbacks.
- Floating-point arithmetic and the exact behaviour of `+s` are not modelled. The parse is a parameter, and only the truthiness of its result is used.
- `new Date(d.date).getFullYear()` is a parameter. A date that JavaScript cannot parse yields NaN, which is never 2022, so any integer other than 2022 stands for it.
- A column missing from a file's header altogether reads as `undefined` in JavaScript, and `normalizeState(undefined)` would file a row under the key `"undefined"`. That case is not modelled: every absent cell reads as `""`.
- JavaScript object semantics of the lookups are not modelled. A key such as `"constructor"` finds an inherited property in `STATE_NORMALIZE[state]` and in `latestIncome[state]`. The table and the dictionary are plain finite maps here.
