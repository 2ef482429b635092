# strategy-fetcher ingestion pipeline, in Dafny

This project models the ingestion core of strategy-fetcher. A scan lists a
directory and keeps the entries that are not directories and whose names end
in `.log`. It reads each such file line by line. Every line is split on `|`
and dispatched on its first token:

- an `INFO` line looks up or creates an account and a strategy;
- a `DAILY` line appends a daily record to the current strategy;
- one of six trade tags appends a trade to the current strategy.

All lines are folded into one fresh `AccountSet`. At the end of the scan its
accounts replace the published accounts. Dates `DD/MM/YYYY` become
range-checked `YYYYMMDD` integers. Numeric fields are written only when their
token parses.

Everything is pure. The account set is an immutable value, and each handler
is a function from the old set to the new one. The Go pointers
`CurrAccount`/`CurrStrategy` become keys: `Option<string>` and
`Option<StrategyKey>`. This is faithful because the code never removes or
replaces an entity once it exists.

Files, one module each:

- `wrappers.dfy`: `Option`.
- `strings.dfy`: Go's `strings.Split` (one-character separator) and
  `HasSuffix`, plus `Join`, a helper that puts a separator between pieces
  and states Split's round trip.
- `strconv.dfy`: Go's `strconv.ParseInt(s, 10, 32)`, plus the decimal
  renderings used to state round trips.
- `model.dfy`: `pkg/model/account.go`, covering the entities, their
  constructors, the invariant `Valid` and the growth order `Extends`.
- `converters.dfy`: `convertDate` and the eleven field converters of
  `pkg/core/core.go`.
- `core.dfy`: `handleLine`, `handleInfo`, `handleDaily` and `handleTrade`.
- `scan.dfy`: `handleFile` and `run`.
- `scenarios.dfy`: lemmas about particular inputs. These cover the date examples,
  an unknown tag, the INFO cursor rule, and a two-file scan that carries the
  cursor across files.

Two things come from outside the model, in the `Env` value:

- The eight tag constants are declared in a file that is not part of this
  model. They are parameters, and only their pairwise distinctness
  (`Tags.Distinct`) is used.
- `strconv.ParseFloat` is the `parseFloat: string -> Option<real>` parameter.

At these points the model follows what the code does, rather than what
the declarations suggest:

- Cursors move only when their entity is created. An `INFO` line naming an
  existing account and strategy changes nothing at all, and the current
  strategy stays where it was (`Scenarios.InfoOnExistingPairKeepsCursor`).
- Daily records form a list. `handleDaily` appends, so duplicate days are
  kept. `pkg/model/account.go:51` declares a `map[int]*DailyInfo`, but
  `pkg/core/core.go:178` appends. `DailyInfo` carries the `Equity` and
  `Balance` fields that the handler writes (`pkg/core/core.go:271,283`),
  although `pkg/model/account.go:56-62` does not declare them.
- `Account.Balance` and `Account.Equity` are never written, and there is no
  "keep the last non-zero value" rule. `Scan.Run` proves that every published
  account has zero balance and equity.
- Empty lines are not filtered before classification. They reach the
  classifier, which drops them as an unknown tag.
- The cursors carry over from one file to the next. `Scan.ScanEntries`
  proves that a scan equals one fold over the concatenated lines of the
  selected files.

The Go code panics in two cases, and both are preconditions here
(`Core.LineSafe`, `Scan.LinesSafe`, `Scan.RunSafe`):

- A line with fewer tokens than its handler reads: 4 for INFO, 8 for DAILY,
  7 for a trade.
- A DAILY or trade line whose date is valid while no strategy is current.
  With an invalid date the Go code returns before it dereferences the
  cursor, so there is no requirement in that case.

## Model

| member | source | states |
|---|---|---|
| Strings.Split | pkg/core/core.go:119 | the tokens contain no separator, there is at least one, and joining them with the separator gives back the line |
| Strings.HasSuffixChars | pkg/core/core.go:80 | a string has a suffix exactly when it is at least as long and its last characters are, one by one, those of the suffix |
| Strings.HasSuffixAppend | pkg/core/core.go:80 | any string ending in the suffix has it, the suffix itself included, and a shorter string never has |
| Strings.SplitJoin | pkg/core/core.go:193 | splitting a join of separator-free pieces gives back exactly those pieces, which is the other direction of the round trip |
| Strconv.ParseInt32 | pkg/core/core.go:200 | a string is accepted exactly when it is a digit or sign followed only by digits, with at least one digit, and its signed value fits in 32 bits; the accepted value is that signed decimal value. Anything else (a letter, a space, a point, an underscore, a bare sign, the empty string, an overflow) is rejected |
| Strconv.ParseInt32RejectsSyntax | pkg/core/core.go:200 | "12a", " 7", "1.5" and "1_000" are all rejected |
| Strconv.ParseInt32Signed | pkg/core/core.go:200 | "+7" reads as 7 and "-007" as -7: a sign is read and leading zeros are allowed |
| Strconv.ParseFormatInt | pkg/core/core.go:254 | every 32-bit integer written in decimal parses back to itself |
| Strconv.DigitsValueAppend | pkg/core/core.go:200 | the value of concatenated digit strings is the left value shifted by the right length plus the right value, which is how YYYY+MM+DD is read |
| Converters.ConvertDate | pkg/core/core.go:192-213 | the result is 0 or lies in [20000000, 30000000]; it is 0 whenever the input does not split on '/' into exactly three pieces |
| Converters.ConvertDateOfDigits | pkg/core/core.go:193-212 | for any three digit pieces, of any lengths, the result is the range check of the value of pieces[2]+pieces[1]+pieces[0]: no padding or calendar check, leading zeros read through, and a value too large for 32 bits gives 0 |
| Converters.ConvertFormatDate | pkg/core/core.go:192-213 | a zero-padded DD/MM/YYYY converts to year*10000+month*100+day when that is in range, and to 0 otherwise |
| Converters.ConvertFormatDateInRange | pkg/core/core.go:200-212 | every padded date of a year from 2000 to 2999 converts exactly, month 13 and day 0 included |
| Converters.ConvertOpenProfit | pkg/core/core.go:217-225 | the open profit becomes the parsed float, or keeps its value when parsing fails; no other field changes |
| Converters.ConvertCloseProfit | pkg/core/core.go:229-237 | the close profit becomes the parsed float or is kept; no other field changes |
| Converters.ConvertTrueRange | pkg/core/core.go:241-249 | the true range becomes the parsed float or is kept; no other field changes |
| Converters.ConvertNumTrades | pkg/core/core.go:253-261 | the trade count becomes the parsed 32-bit integer or is kept; no other field changes |
| Converters.ConvertBalance | pkg/core/core.go:265-273 | the daily balance becomes the parsed float, a zero included, or is kept; no other field changes |
| Converters.ConvertEquity | pkg/core/core.go:277-285 | the daily equity becomes the parsed float or is kept; no other field changes |
| Converters.ConvertTime | pkg/core/core.go:319-327 | the trade time becomes the parsed 32-bit integer or is kept; no other field changes |
| Converters.ConvertPosition | pkg/core/core.go:331-339 | the position becomes the parsed 32-bit integer or is kept; no other field changes |
| Converters.ConvertPrice | pkg/core/core.go:343-351 | the price becomes the parsed float or is kept; no other field changes |
| Converters.ConvertPositionAtBroker | pkg/core/core.go:355-363 | the broker position becomes the parsed 32-bit integer or is kept; no other field changes |
| Converters.ConvertPriceAtBroker | pkg/core/core.go:367-375 | the broker price becomes the parsed float or is kept; no other field changes |
| Model.NewAccountSet | pkg/model/account.go:66-70 | the accounts map is empty, both cursors are unset, and the fresh set satisfies the invariant |
| Model.NewAccount | pkg/model/account.go:74-78 | empty strategies map, zero balance and equity, empty code |
| Model.NewStrategy | pkg/model/account.go:82-86 | empty daily and trade lists, empty name and ticker |
| Model.NewDailyInfo | pkg/model/account.go:90-92 | every field of the record is zero |
| Model.NewTradeInfo | pkg/core/core.go:304 | every field of the trade is zero or empty before the handler fills it |
| Model.ReplaceCurrent | pkg/core/core.go:178 | writing through the current-strategy cursor changes that strategy only: no other strategy, account field, strategy key or cursor changes |
| Core.Classify | pkg/core/core.go:121-130 | INFO is recognised exactly when the tag equals the INFO constant, and Unknown exactly when the tag is none of the eight. With distinct tags, DAILY and trade lines are recognised exactly by their constants |
| Core.HandleInfo | pkg/core/core.go:135-158 | afterwards the named account holds the named strategy. An existing account or strategy is never replaced, and an existing pair leaves the whole set unchanged. A new strategy has the line's ticker and empty lists. Each cursor moves only when its entity is created |
| Core.HandleInfoGrows | pkg/core/core.go:140-157 | INFO only adds: the set grows, keeps its invariant, and a created account has zero balance and equity |
| Core.BuildDaily | pkg/core/core.go:177-187 | the converter chain yields the day and, field by field, the parsed value or zero; a field that fails leaves its siblings set |
| Core.BuildTrade | pkg/core/core.go:304-315 | the converter chain yields the tag as type, the day and, field by field, the parsed value or zero |
| Core.HandleDaily | pkg/core/core.go:162-188 | a date converting to 0 leaves the set unchanged. Otherwise exactly one record is appended at the end of the current strategy's daily list, and nothing else changes: no other strategy, no account field, no cursor |
| Core.HandleTrade | pkg/core/core.go:289-315 | a date converting to 0 leaves the set unchanged. Otherwise exactly one trade, typed by the tag, is appended after the earlier trades of the current strategy, and nothing else changes |
| Core.AppendToCurrentGrows | pkg/core/core.go:178 | appending to the current strategy keeps the invariant and the balances, and only extends the set |
| Core.HandleLine | pkg/core/core.go:117-131 | whatever its tag, every line only grows the set, keeps its invariant and writes no balance or equity |
| Core.HandleLineDispatch | pkg/core/core.go:119-130 | a line written as separator-free tokens splits back into exactly those tokens. An unknown first token changes nothing, and INFO, DAILY and trade tags hand those tokens to their handlers |
| Scan.HandleLines | pkg/core/core.go:106-108 | folding lines in file order only grows the set, keeps the invariant and writes no balance or equity |
| Scan.LinesSafeAppend | pkg/core/core.go:106-108 | feeding a+b without a panic is the same as feeding a, then feeding b from where a left off |
| Scan.HandleLinesAppend | pkg/core/core.go:106-108 | the fold over a+b equals the fold over b started from the fold over a, so nothing is reset between them |
| Scan.HandleFile | pkg/core/core.go:90-113 | a file that cannot be opened leaves the set unchanged; otherwise its lines are folded in order |
| Scan.SelectedLinesAppend | pkg/core/core.go:79-83 | the lines a listing contributes are those of its first part followed by those of its second part, so each entry is judged on its own |
| Scan.ScanSkipsEntry | pkg/core/core.go:79-83 | a directory, a name without the ".log" suffix, or a file that cannot be opened may be removed from anywhere in the listing without changing the scan |
| Scan.ScanReadsEntry | pkg/core/core.go:79-83 | a readable ".log" file contributes all its lines, in order, at its place in the listing, folded on from the state the earlier files left |
| Scan.LogFileNames | pkg/core/core.go:80 | every name ending in ".log", ".log" itself included, is selected unless it is a directory; a name shorter than ".log" never is |
| Scan.ScanEntries | pkg/core/core.go:79-83 | the loop over the listing equals one fold over the lines of the selected files, concatenated in listing order, so cursors carry over across files |
| Scan.Run | pkg/core/core.go:69-86 | a failed listing leaves the published accounts unchanged. Otherwise they are replaced by the fold from a fresh set, and each is keyed by its code with zero balance and equity |
| Scenarios.ConvertDatePadded | pkg/core/core.go:192-213 | "01/06/2024" converts to 20240601 |
| Scenarios.ConvertDateMonthThirteen | pkg/core/core.go:200-212 | "05/13/2024" converts to 20241305, because there is no calendar check |
| Scenarios.ConvertDateUnpadded | pkg/core/core.go:200-210 | a one-digit day and month with a four-digit year always convert to 0, because the glued value is below the range |
| Scenarios.ConvertDateShort | pkg/core/core.go:200-210 | three digit pieces with at most seven digits in all always convert to 0 |
| Scenarios.ConvertDateExtraZeros | pkg/core/core.go:200-210 | "01/06/002024" converts to 20240601, because the parser reads leading zeros through |
| Scenarios.ConvertDateSignedYear | pkg/core/core.go:200-210 | "01/06/+2024" converts to 20240601, because the glued "+20240601" is a valid signed integer |
| Scenarios.ConvertDateUnpaddedExample | pkg/core/core.go:200-210 | "1/6/2024" converts to 0 |
| Scenarios.ConvertDateYearFirst | pkg/core/core.go:200-210 | "2024/13/05" glues to 5132024 and converts to 0 |
| Scenarios.ConvertDateWrongSeparator | pkg/core/core.go:193-198 | "01-06-2024" is one piece, not three, and converts to 0 |
| Scenarios.UnknownTagIgnored | pkg/core/core.go:128-129 | a line whose first token is none of the eight tags leaves the set unchanged, whatever follows |
| Scenarios.FirstInfoCreates | pkg/core/core.go:140-157 | the first INFO line of a scan yields exactly one account holding one empty strategy, and both cursors point at them |
| Scenarios.InfoOnExistingPairKeepsCursor | pkg/core/core.go:142-157 | after INFO a/n1, INFO a/n2, INFO a/n1 the current strategy is still a/n2, and the third line changes nothing |
| Scenarios.DailyLineAppends | pkg/core/core.go:171-187 | a DAILY line with a valid date appends its record to whichever strategy is current and changes nothing else |
| Scenarios.CursorCarriesAcrossFiles | pkg/core/core.go:69-86 | a scan of a.log (INFO, then DAILY) and b.log (DAILY only) publishes exactly one account with one strategy holding both daily records in order. A file without the ".log" suffix is never read |

## Left out

- `main.go`: configuration loading, log-file setup, and the HTTP router and
  TLS server. These are I/O and library wrappers.
- `StartPeriodicScan`: the goroutine, the ticker and the start-up sleep.
  These are concurrency and timing.
- `GetAccounts` and the package-global `accounts`: publication is modelled as
  replacing a map value (`Scan.Run` returns the new published map). The
  atomicity of the pointer store toward concurrent readers is not modelled,
  and neither is the unordered `maps.Values` view.
- File system calls: `os.ReadDir` becomes an `Option` listing (None for an
  error) in the order given. Go's `os.ReadDir` returns the entries sorted by
  file name; the model takes the listing in any order, so its results hold
  for the sorted one too. Which strategy a file without INFO lines inherits
  depends on that order. `os.Open` plus `bufio.Scanner` become an entry's
  `Option` of lines (None when the file cannot be opened). The path built
  from the directory and the file name is not modelled.
- `bufio.Scanner` details: the splitting of the byte stream into lines,
  the token-length limit, and a read error in mid-file. The lines are given.
- `strconv.ParseFloat` is a parameter, so which strings it accepts is not
  modelled.
- Go's `float64` fields are `real`, and the float parser is a map from
  strings to `Option<real>`. So NaN and the infinities, which `ParseFloat`
  returns without an error for "NaN" and "Inf", cannot be represented, and
  neither can rounding to float64.
- The tag constants are parameters, so their spellings are not modelled.
- Go strings are byte strings; here they are sequences of characters. No
  result changes, because every delimiter, suffix and digit compared (`|`,
  `/`, `.log`, digits, signs) is ASCII. A line that is not valid UTF-8
  cannot be represented.
- Log messages: they have no effect on the state.
- The panics on short lines and on a nil current strategy: these are
  preconditions, not modelled behaviours.
- The `TradeInfo` declaration lives in a file that is not part of this model.
  Its field set is the one `handleTrade` writes.
- Model.NewTradeInfo: `model.NewTradeInfo`, called at `pkg/core/core.go:304`,
  is not part of this model either. It is assumed to return an all-zero
  record, like `NewDailyInfo`. `Core.BuildTrade`'s promise that a failed
  field stays 0 rests on this assumption.
