# Currency rate report — verified model

The program asks the rate-table service of the Polish national bank (table A) for one
currency's daily mid rates over a date range. It turns the parsed response into flat
records (`ISO`, `Currency Name`, `Rate`, `Date`) through a pull cursor, `CurrencyIterator`.
It then writes the records as newline-delimited JSON or as CSV, to a file or to standard
output, with a logging threshold chosen from a verbosity option.

This Dafny project models the part of `python_app/financial_app.py` that runs after the
HTTP response has been parsed:

- `CurrencyNames`: the static code-to-English-name table and the display-name rule.
- `Rates`: the parsed response, the record built from each rate item, and the record
  sequence of a whole response.
- `Iteration`: `CurrencyIterator` as a class. Its `rates`, `code` and `name` are
  immutable (`const`). Its `index` is the only mutable field. `Next` yields
  `Some(record)` or `None`, where `None` stands for `StopIteration`. `Drain` is the
  loop behind `list(iterator)`.
- `Report`: the JSON and CSV emit branches. The library serialisers are parameters,
  and the model states line counts, order, the header and the empty-input failure.
- `Logs`: the `setup_logs` level choice, and how the verbosity option is parsed (see
  Findings).
- `App`: one run: cursor, drain, level choice, emit.

The mid rate is a type parameter `R`, because the program copies it through without
computing with it.

The CSV branch reads its header from `data[0]` (lines 110 and 118), so an empty rate
list raises an index error there. The model keeps that failure: `CsvLines` returns
`Failure(NoFirstRecord)` when there are no records.

The destination is chosen by the truth value of the output-file option (line 103): an
absent or empty path writes to the console, any other path to that file
(`DestinationOf`).

## Model

| member | source | states |
|---|---|---|
| `CurrencyNames.ResolveName` | python_app/financial_app.py:49 | for a code that is a key of the table, the display name is the table's value; otherwise it is the upstream `currency` string verbatim |
| `CurrencyNames.UpstreamIgnoredIffListed` | python_app/financial_app.py:49 | the resolved name does not depend on the upstream name if and only if the code is a key of the table (both directions) |
| `CurrencyNames.ListedCodeExample` | python_app/financial_app.py:49 | `USD` resolves to `US Dollar` whatever the upstream name is; an unlisted code keeps the upstream name |
| `CurrencyNames.TableWellFormed` | python_app/financial_app.py:9-35 | every key of the table is three upper-case letters, and every name is non-empty |
| `Rates.Record.Keys` | python_app/financial_app.py:63-68 | whatever the record, its keys are `ISO`, `Currency Name`, `Rate`, `Date`, in that order and pairwise distinct, so the CSV header read from the first record is always these four names |
| `Rates.MakeRecord` | python_app/financial_app.py:61-68 | the record of one item carries the cursor's code and name, the item's `mid` as rate and its `effectiveDate` as date |
| `Rates.Records` | python_app/financial_app.py:57-72 | one record per rate item, same length and same order; the i-th record is built from the i-th item |
| `Rates.ResponseRecords` | python_app/financial_app.py:47-49 | the records of a response all carry the response's code and resolved name; record i carries `rates[i].mid` and `rates[i].effectiveDate` |
| `Rates.RecordsSnoc` | python_app/financial_app.py:100 | adding one item at the end adds exactly that item's record at the end (the step of the draining loop) |
| `Rates.OneCurrencyPerRun` | python_app/financial_app.py:63-65 | any two records of one run have the same ISO code and the same currency name |
| `Iteration.CurrencyIterator.constructor` | python_app/financial_app.py:38-52 | stores the request parameters, the response's rates and code, and the resolved name; the index starts at 0, so the remaining records are all records of the response |
| `Iteration.CurrencyIterator.Iter` | python_app/financial_app.py:54-55 | iterating the cursor returns the cursor itself |
| `Iteration.CurrencyIterator.Next` | python_app/financial_app.py:57-72 | when `index >= len(rates)`: `None`, index unchanged, and every later call is `None` as well; otherwise: the record of `rates[index]`, and the index grows by exactly one; `0 <= index <= len(rates)` holds after each step; only `index` may change; the remaining records lose exactly the one returned |
| `Iteration.CurrencyIterator.Drain` | python_app/financial_app.py:100 | returns exactly the records that remained, in order: `len(rates) - index` of them, the k-th built from `rates[index + k]`; the cursor is exhausted afterwards |
| `Report.DestinationOf` | python_app/financial_app.py:103 | the output goes to the console exactly when the output-file option is absent or the empty string; otherwise to the file at that path |
| `Report.MapSeq` | python_app/financial_app.py:106-107 | a write loop gives one output per item, in item order |
| `Report.JsonLines` | python_app/financial_app.py:104-107 | JSON output is one serialised object per record, in record order |
| `Report.CsvLines` | python_app/financial_app.py:109-112 | CSV fails if and only if there are no records; otherwise it is the header for the four field names followed by one row per record, in order |
| `Report.Emit` | python_app/financial_app.py:103-120 | JSON always succeeds with one line per record in order; CSV fails exactly on empty data and otherwise writes the header plus one row per record; the output goes to the chosen destination |
| `Report.DestinationIrrelevant` | python_app/financial_app.py:113-120 | the lines written to the console are the lines written to a file, and the two succeed or fail together |
| `Report.MapSeqRoundTrip` | python_app/financial_app.py:106-107 | decoding the written lines with an inverse of the serialiser gives back the items |
| `Report.FormatsAgree` | python_app/financial_app.py:104-120 | for non-empty data, decoding the JSON lines, or the CSV lines after the header, gives back the same records |
| `Logs.SetupLevel` | python_app/financial_app.py:74-80 | 0 selects WARNING, 1 selects INFO, and every other value (including negative ones) selects DEBUG; each direction of each case holds |
| `Logs.MoreVerbosePassesMore` | python_app/financial_app.py:74-80 | for non-negative verbosities, a higher value lets through every message a lower one lets through |
| `Logs.ParseVerbosityAsWritten` | python_app/financial_app.py:95 | the option as declared: absent gives 0; any explicit value is refused as an invalid choice |
| `Logs.AsWrittenOnlyWarning` | python_app/financial_app.py:95 | as declared, the only threshold any command line can configure is WARNING |
| `Logs.ParseVerbosity` | python_app/financial_app.py:95 | with an integer conversion: absent gives 0; an explicit string is accepted exactly when it converts to an integer of at most 2, and the result is that integer, so every accepted value lies in 0..2 |
| `Logs.DecimalValue` | python_app/financial_app.py:95 | the conversion succeeds exactly on non-empty strings of ASCII digits |
| `Logs.DecimalValueOfDecimal` | python_app/financial_app.py:95 | converting the decimal rendering of any natural number gives that number back (so `12` converts to 12) |
| `Logs.CorrectedReachesEveryLevel` | python_app/financial_app.py:95 | with the conversion, `0`, `1`, `2` select WARNING, INFO and DEBUG, and `3` is refused |
| `App.Run` | python_app/financial_app.py:99-120 | a run over a fetched response emits exactly the response's records in the chosen format, to the destination the output-file option selects, and chooses the level from the verbosity |
| `App.JsonRunShape` | python_app/financial_app.py:99-116 | JSON output has one line per upstream rate; line i serialises the record of `rates[i]` with the resolved name |
| `App.CsvRunShape` | python_app/financial_app.py:109-120 | CSV output of a non-empty response is the header for the four field names, then row i+1 for `rates[i]` |
| `App.EmptyRangeRun` | python_app/financial_app.py:100-118 | a response without rates writes no JSON lines and makes the CSV branch fail |
| `App.UsdOneDayExample` | python_app/financial_app.py:47-72 | a USD response with upstream name `dolar amerykanski` and one rate gives exactly one JSON line, for the record (`USD`, `US Dollar`, that mid, `2024-01-02`) |

## Left out

- The HTTP request and the URL built from code and dates (lines 43-45): network I/O. The model starts from the parsed `code`, `currency` and `rates`. Malformed JSON, missing fields and HTTP errors from that step are not modelled.
- Command-line parsing apart from the verbosity option, and the date defaults from the system clock (lines 83-97): option plumbing and the clock are inputs of `Run`.
- The byte-level output of the JSON and CSV library serialisers, and the file and stdout writes (lines 105-120). The serialisers are opaque function parameters, and the output is a sequence of lines. Line terminators, CSV quoting and the file's open/close are not modelled.
- `logging.basicConfig` and its side effects (lines 76-80): only the chosen threshold is modelled.
- The numeric value of `mid`: it is a type parameter, so floating point is not modelled.
- `Logs.ParseVerbosity`: models the integer conversion for plain ASCII digit strings only. Signs, surrounding whitespace, digit separators and non-ASCII Unicode decimal digits, which an integer conversion would also accept, are not modelled.

## Findings

| source | as written | input that shows it | evidently intended | confidence | as-written member | corrected member |
|---|---|---|---|---|---|---|
| python_app/financial_app.py:95 | the verbosity option declares integer choices `[0, 1, 2]` but no `type=int`, so a given value stays a string and is never among the choices | `--verbose_level 1` (or `2`, or `0`) is refused as an invalid choice; only the default 0 is reachable, so INFO and DEBUG can never be selected | convert the value to an integer before checking it against `0, 1, 2`, as the help text promises | high (not executed) | `Logs.AsWrittenOnlyWarning` | `Logs.CorrectedReachesEveryLevel` |
