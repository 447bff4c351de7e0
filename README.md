# Currency-rate relay and rate tools, modelled in Dafny

The repository holds three small Python programs around the PrivatBank exchange-rate API:

- `hw_mod_5_ad_2.py`, a websocket chat relay. A message that begins with `exchange` is a
  command: its first parameter is a day count, and the relay answers the sender alone with a
  text report of the USD and EUR rates for that many days, today first. Every other message
  is chat and is forwarded to every other connected client.
- `hw_mod_5_ad_1.py`, a command-line tool. It fetches up to 10 days of rate sheets and prints,
  per sheet, a date line, one line per requested currency and a blank line.
- `hw_mod_5_main.py`, the same tool with the currency pair fixed to USD and EUR.

The model keeps the deterministic logic under the I/O: routing, parameter and day-count
parsing, the per-day blocks and their join, the client registry and broadcast, the fetcher's
day cap and date offsets, and the two printers. The modules are:

- `Wrappers`: `Option`, `Result` and `Outcome`.
- `Errors`: the exceptions the three programs raise, and the relay's connection identities.
- `Text`: Python's `str.split()` without a separator, and `int(token)` in base 10.
- `Rates`: the API records, the first-match lookup, the printers' line formats, `str.join`,
  and the fetch loop the two fetchers share.
- `Relay`: the relay.
- `RateTool`: the configurable tool.
- `UsdEurTool`: the fixed-pair tool.

The relay's module-level `clients` set is a field of the class `Relay.Server`. Every
`send` is appended to a `sent` log of deliveries, and every logged command to `commandLog`.
A connection that has gone away is given as a set `dead`: a send to it raises. An HTTP
answer is a `FetchOutcome`, passed in as a function `provider` from the query date to the
outcome. The date `i` days before now is a function `dateOf`. Printed output is the sequence
of lines `print` writes.

The model follows the code as written, including these behaviours:

- The command test is `message.startswith("exchange")`, with no trimming, so `exchangeX` is a
  command too.
- A non-integer first parameter raises ValueError, which ends the session. It does not fall
  back to one day.
- The relay does not cap the day count. A count of 0 or below gives the empty report. The
  model's `dateOf` is total, so very large counts also give a report; see the clock line under
  "Left out" for where the relay raises instead.
- `data['exchangeRate']` raises KeyError in the relay when the key is missing. The printers
  read it with `get` and a default of `[]`.
- `clients.remove` raises KeyError for a connection not in the set. The session proves this
  cannot happen.
- A send to a dead peer during a broadcast aborts the broadcast and ends the sender's session.

## Model

| member | source | states |
|---|---|---|
| Text.Split | hw_mod_5_ad_2.py:63 | `message.split()` yields only non-empty tokens free of whitespace |
| Text.SplitAtSpace | hw_mod_5_ad_2.py:63 | splitting at a whitespace character splits the two sides independently: `split(a + c + b) == split(a) + split(b)` |
| Text.SplitSingleToken | hw_mod_5_ad_2.py:63 | a non-empty string without whitespace splits into itself alone |
| Text.TokenLengthStopsAtSpace | hw_mod_5_ad_2.py:63 | a token ends at the first whitespace, whatever follows it |
| Text.ParseInt | hw_mod_5_ad_2.py:35 | below Python's limit on the length of a decimal literal, `int(token)` succeeds exactly on an optionally signed numeral: an unsigned numeral gives its digits' value, a signed one that value negated after `-` and unchanged after `+`; any other token is a ValueError, and a negative value always carries a minus sign |
| Text.MisplacedUnderscoreRejected | hw_mod_5_ad_2.py:35 | a token that ends in `_` or holds two underscores in a row is a ValueError for `int` |
| Text.ParseShowInt | hw_mod_5_ad_2.py:35 | `int` reads back every rendered integer: `int(str(n)) == n` |
| Text.ShowNatIsNumeral | hw_mod_5_ad_2.py:35 | the decimal rendering of a natural number is a numeral `int` accepts, and is unsigned |
| Text.DigitsValueOfShowNat | hw_mod_5_ad_2.py:35 | the digits of a rendered natural number have its value |
| Rates.Entries | hw_mod_5_ad_1.py:46 | the sheet's entry list, empty when `exchangeRate` is missing; `MissingListMeansNoData` states what the printer then writes |
| Rates.FirstMatch | hw_mod_5_ad_2.py:47 | the `next(...)` lookup finds the index of an entry with the currency and no earlier one, and finds nothing exactly when no entry has it |
| Rates.FirstMatchIsTheFirst | hw_mod_5_ad_1.py:50 | whichever entry matches with no earlier match, it is the one the lookup returns |
| Rates.RateLine | hw_mod_5_ad_1.py:52 | the line of one entry, `CUR: Buy - p, Sell - s`; `RateLineIsNotNoData` and `RelayLinesDiffer` show it never coincides with a no-data line |
| Rates.PrinterLine | hw_mod_5_ad_1.py:50-54 | the printer's line for one currency; `PrinterLineUsesFirstMatch` states which entry it renders and when it is the no-data line |
| Rates.PrinterLineUsesFirstMatch | hw_mod_5_ad_1.py:50-54 | a printer's currency line renders the first matching entry as `CUR: Buy - p, Sell - s`, and is `CUR: No data available` when none matches |
| Rates.RateLineIsNotNoData | hw_mod_5_ad_1.py:51-54 | a rate line and the no-data line of the same currency always differ |
| Rates.DateLine | hw_mod_5_ad_1.py:45-47 | `Date: ` and the sheet's date, `N/A` when the key is missing; `SheetLinesAt` places it first in every sheet's lines |
| Rates.Join | hw_mod_5_ad_2.py:52-55 | `sep.join(parts)`; `JoinSnoc` states how it grows part by part, and `DayBlockMeaning` and `TwoFailedDays` use it on concrete lists |
| Rates.JoinSnoc | hw_mod_5_ad_2.py:55 | `sep.join` puts the separator between consecutive parts only |
| Rates.FetchAll | hw_mod_5_ad_1.py:31-39 | one query per offset 0 .. days-1 in that order; the result holds one sheet per query in query order and exists exactly when every query succeeded; otherwise the error names a date whose query failed |
| Relay.IsCommand | hw_mod_5_ad_2.py:62 | the plain prefix test for `exchange`; `RouteOf` states it as a condition on the first 8 characters |
| Relay.RouteOf | hw_mod_5_ad_2.py:62-63 | a message is a command exactly when its first 8 characters are `exchange`; its parameters are the split tokens after the first; chat carries the message unchanged |
| Relay.CommandTokenComesFirst | hw_mod_5_ad_2.py:62-63 | a message starting with `exchange` splits into at least one token, and the first token starts with `exchange` |
| Relay.DayCount | hw_mod_5_ad_2.py:35 | no parameters gives 1 day; otherwise the count is `int(params[0])`, and a non-integer first parameter is a ValueError naming it |
| Relay.DayCountOfNumeral | hw_mod_5_ad_2.py:35 | a first parameter rendered from `n` gives the day count `n`, whatever follows it |
| Relay.RelayLine | hw_mod_5_ad_2.py:47-51 | the relay's line for one currency; `RelayLineUsesFirstMatch` states which entry it renders and when it reads `No data for CUR` |
| Relay.RelayLineUsesFirstMatch | hw_mod_5_ad_2.py:47-51 | a report's currency line renders the first matching entry, and is `No data for CUR` when none matches |
| Relay.RelayLinesDiffer | hw_mod_5_ad_2.py:48-51 | a rate line and the relay's no-data line for the same currency always differ |
| Relay.RelayLines | hw_mod_5_ad_2.py:45-51 | one relay line per currency, USD then EUR; `DayRates` computes it and `DayBlockMeaning` unfolds it into the two lines |
| Relay.DayBlock | hw_mod_5_ad_2.py:43-54 | one date's block of the report, or the KeyError it raises; `DayBlockMeaning` states its cases |
| Relay.DayBlockMeaning | hw_mod_5_ad_2.py:43-54 | a failed query gives `Failed to fetch data for <date>`; a fetched body fails exactly when `exchangeRate` is missing, with KeyError; otherwise the block is the date line, the USD line and the EUR line, separated by newlines |
| Relay.DayBlocks | hw_mod_5_ad_2.py:37-54 | the blocks of offsets 0 .. n-1, or the first KeyError; `DayBlocksMeaning` states what it holds |
| Relay.DayBlocksMeaning | hw_mod_5_ad_2.py:37-54 | the list of blocks exists exactly when every day's block does; it then has one block per offset in offset order, and otherwise the error is KeyError |
| Relay.Report | hw_mod_5_ad_2.py:34-55 | what `exchange_command` returns or raises; `ReportEmptyWhenNoDays`, `ReportIsJoinedBlocks`, `MissingKeyFailsCommand`, `BadDayCountFailsCommand`, `BareCommandIsOneDay` and `TwoFailedDays` state its properties, and `ExchangeCommand` computes it |
| Relay.ExchangeCommand | hw_mod_5_ad_2.py:34-55 | the loops building `rates` and `results` and the final join compute the report `Report` defines, errors included |
| Relay.DayRates | hw_mod_5_ad_2.py:46-51 | the inner loop appends one line per currency, USD then EUR |
| Relay.ReportEmptyWhenNoDays | hw_mod_5_ad_2.py:38 | a day count of 0 or below gives the empty report |
| Relay.ReportIsJoinedBlocks | hw_mod_5_ad_2.py:37-55 | without a missing `exchangeRate`, the report is exactly `days` blocks in offset order joined by blank lines, a failed day contributing only its failure line |
| Relay.MissingKeyFailsCommand | hw_mod_5_ad_2.py:47 | a missing `exchangeRate` on any day makes the whole command raise KeyError |
| Relay.BadDayCountFailsCommand | hw_mod_5_ad_2.py:35 | a non-integer first parameter makes the command raise ValueError before any fetch |
| Relay.BareCommandIsOneDay | hw_mod_5_ad_2.py:35 | `exchange` and `exchange 1` route to commands with the same report |
| Relay.ExchangeTokenRoute | hw_mod_5_ad_2.py:62-63 | `exchange`, one space and any single non-empty token without whitespace is a command whose one parameter is that token |
| Relay.ExchangeTwoRoute | hw_mod_5_ad_2.py:62-63 | `exchange 2` is a command with the single parameter `2` |
| Relay.TwoFailedDays | hw_mod_5_ad_2.py:35-55 | when every query fails, a two-day report is today's failure line, a blank line and yesterday's failure line |
| Relay.CurrencyRate | hw_mod_5_ad_2.py:18-31 | `fetch_currency_rate` gives `Failed to fetch data` for a failed query, KeyError exactly when `exchangeRate` is missing, and otherwise the same line a report block holds |
| Relay.TurnPasses | hw_mod_5_ad_2.py:62-70 | when one turn completes without raising: a command needs its report and a live sender, chat needs every other client alive |
| Relay.TurnDelivery | hw_mod_5_ad_2.py:62-70 | what one turn may send: the command's report to its sender, or the chat message to another client |
| Relay.TurnDelivered | hw_mod_5_ad_2.py:62-70 | what a passing turn must have sent: the command's report to its sender, or the chat message to every other client |
| Relay.TurnRaises | hw_mod_5_ad_2.py:62-70 | the exception a raising turn carries: the report's own error, `ConnectionClosed` of a dead sender of a report, or `ConnectionClosed` of some dead other client for chat |
| Relay.TurnMade | hw_mod_5_ad_2.py:62-70 | what one turn sent: only deliveries `TurnDelivery` allows, only to members whose connection is open (a send to a closed one raises and delivers nothing), and no connection twice |
| Relay.Concat | hw_mod_5_ad_2.py:61-70 | the deliveries of a session's turns one after the other, in turn order; `InConcat` states that each comes from one turn |
| Relay.InConcat | hw_mod_5_ad_2.py:61-70 | every delivery of a session was made by one of its turns |
| Relay.CommandTurnSendsReport | hw_mod_5_ad_2.py:63-66 | a command's turn that passed sent exactly one message, its report, to the sender and to nobody else |
| Relay.ChatTurnSendsToOthers | hw_mod_5_ad_2.py:67-70 | a chat turn sends the message unchanged, and only to open members other than the sender |
| Relay.DeadSenderCommandSendsNothing | hw_mod_5_ad_2.py:63-66 | a command turn of a closed connection sends nothing, since its one recipient is the sender |
| Relay.FailedCommandSendsNothing | hw_mod_5_ad_2.py:63-66 | a command whose report raises sends nothing |
| Relay.LoggedBy | hw_mod_5_ad_2.py:64-65 | the turn of a command logs it once its report exists, so a command whose report raises logs nothing |
| Relay.Commands | hw_mod_5_ad_2.py:61-65 | the commands among a session's messages, in order |
| Relay.CommandsAreCommands | hw_mod_5_ad_2.py:61-65 | every entry of `Commands(messages)` is a command taken from `messages` |
| Relay.Server.constructor | hw_mod_5_ad_2.py:10 | the client set starts empty, with nothing sent or logged |
| Relay.Server.Add | hw_mod_5_ad_2.py:59 | `clients.add` adds the connection and changes nothing else |
| Relay.Server.Remove | hw_mod_5_ad_2.py:72 | `clients.remove` removes the connection, and raises KeyError exactly when it was not registered |
| Relay.Server.Broadcast | hw_mod_5_ad_2.py:67-70 | every delivery made carries the message, goes to a registered client other than the sender and goes there once; the loop completes exactly when no other client is dead, and then every other client received the message; otherwise the error names a dead recipient |
| Relay.Server.HandleMessage | hw_mod_5_ad_2.py:61-70 | a command computes its report first: on error nothing is sent or logged; otherwise it is logged, and sent to the sender alone (a dead sender raises); chat is broadcast to the other clients and logs nothing; the turn passes exactly when `TurnPasses` holds, every new delivery satisfies `TurnDelivery` and goes to an open connection, and the log grows by `LoggedBy` |
| Relay.Server.Turn | hw_mod_5_ad_2.py:61-70 | one turn with the session's connection registered: `more` is exactly what it appended to `sent` and satisfies `TurnMade`; it passes exactly when `TurnPasses` holds, and then `TurnDelivered` holds of `more`; a raising turn's error is the one `TurnRaises` names; the log grows by `LoggedBy` |
| Relay.SessionMade | hw_mod_5_ad_2.py:61-70 | the record a session leaves: it ends `Closed` exactly when every message was handled; `turns` holds one entry per turn that ran, the handled turns plus the raising one; each entry satisfies `TurnMade` for its own message; each handled turn passed and satisfies `TurnDelivered`; a `Raised` end carries the error `TurnRaises` names for the next message |
| Relay.SessionLive | hw_mod_5_ad_2.py:61-70 | every delivery of a session goes to a member whose connection is open |
| Relay.Server.Serve | hw_mod_5_ad_2.py:61-70 | the `async for` loop handles the messages in order up to the first turn that raises, leaving a record that satisfies `SessionMade`; the new `sent` is the turns' deliveries concatenated in turn order; the log grows by the handled commands, plus the raising turn's command when its report existed |
| Relay.Server.HandleClient | hw_mod_5_ad_2.py:58-72 | the session adds its connection and always removes it again without error, so afterwards it is not a member; in between it states what `Serve` does with the connection registered: the new deliveries are the turns' deliveries in turn order, each turn sending only what its own message allows and only to open connections, with no connection twice (`SessionLive` gathers this over the session); no message after the raising one is handled; every handled chat message reached every other client and every handled command's report reached the sender; a `Raised` end carries the error of the turn that raised |
| Relay.ExchangeTwoFailedReport | hw_mod_5_ad_2.py:34-63 | when every query fails, `exchange 2` is a command whose report is today's failure line, a blank line and yesterday's failure line |
| Relay.ExchangeXFails | hw_mod_5_ad_2.py:35 | `exchange x` is a command whose report raises ValueError for `x` |
| Relay.BadCommandThenHello | hw_mod_5_ad_2.py:35-72 | a session that receives `exchange x` and then `hello` raises ValueError on its first turn, ends with its connection removed, sends nothing (so `hello` never reaches the other peer) and logs nothing |
| Relay.HelloTurn | hw_mod_5_ad_2.py:67-70 | with peers 1 and 2, peer 1's turn for `hello` sends `hello` to peer 2 and nothing else |
| Relay.ExchangeTwoTurn | hw_mod_5_ad_2.py:63-66 | peer 1's turn for `exchange 2` that delivered sends peer 1 the two-day report and nothing else |
| Relay.HelloThenExchangeTurns | hw_mod_5_ad_2.py:61-70 | the two turns of a session over `hello` and `exchange 2` send, in this order, `hello` to peer 2 and the report to peer 1 |
| Relay.DeadPeerMissesHello | hw_mod_5_ad_2.py:58-72 | with peers 2 and 3 connected and 3's connection closed, peer 1's session over `hello` never delivers to peer 3 |
| Relay.DeadSenderExchange | hw_mod_5_ad_2.py:58-72 | a session over `exchange 2` whose own connection has closed sends nothing at all, whatever the rate API answers |
| Relay.DeadSenderTurns | hw_mod_5_ad_2.py:61-66 | the turns of such a session deliver nothing |
| Relay.HelloThenExchangeSession | hw_mod_5_ad_2.py:58-72 | from the record a session over `hello` and `exchange 2` leaves, with every query failing: it handled both messages, sent `hello` to peer 2 and then the two failure lines to peer 1, and logged only the command |
| Relay.HelloThenExchange | hw_mod_5_ad_2.py:58-72 | a session of peer 1 over `hello` and `exchange 2`, with peer 2 connected and every query failing, ends `Closed` with peer 1 removed; `sent` is exactly `hello` to peer 2 followed by the report to peer 1, and the log holds the command |
| Relay.TwoPeers | hw_mod_5_ad_2.py:58-70 | with two peers and a rate API that always fails, `hello` from peer 1 reaches peer 2 alone, and `exchange 2` passes and sends peer 1 alone its two failure lines |
| RateTool.NewFetcher | hw_mod_5_ad_1.py:14-19 | construction fails with ValueError exactly when days > 10, and otherwise stores the day count and the currency list unchanged |
| RateTool.Fetcher.FetchRates | hw_mod_5_ad_1.py:31-39 | `fetch_rates` issues one query per offset 0 .. days-1 in order, returns the sheets in that order, and fails as a whole when any query fails |
| RateTool.CurrencyLines | hw_mod_5_ad_1.py:49-54 | the inner loop's lines, one per requested currency; `CurrencyLinesAt` states each line |
| RateTool.SheetLines | hw_mod_5_ad_1.py:45-55 | one sheet's printed lines, two more than there are currencies; `SheetLinesAt` states each line |
| RateTool.SheetLinesAt | hw_mod_5_ad_1.py:44-55 | one sheet prints two more lines than there are currencies: the date line, one line per currency in the given order, and a blank line |
| RateTool.CurrencyLinesAt | hw_mod_5_ad_1.py:49-54 | the currency line at position `j` is the line for the `j`-th requested currency |
| RateTool.Printout | hw_mod_5_ad_1.py:43-55 | all sheets' lines in input order; `PrintoutLength` and `PrintoutAt` state its length and where each sheet's lines sit |
| RateTool.PrintRates | hw_mod_5_ad_1.py:43-55 | the nested loops print what `Printout` defines: the sheets' lines in input order |
| RateTool.PrintSheet | hw_mod_5_ad_1.py:45-55 | the body of the outer loop prints one sheet's lines |
| RateTool.PrintoutLength | hw_mod_5_ad_1.py:44-55 | the printout has exactly two more lines than there are currencies per sheet |
| RateTool.PrintoutAt | hw_mod_5_ad_1.py:44-55 | the lines of sheet `k` start at position `k` times the lines per sheet, in input order |
| RateTool.MissingListMeansNoData | hw_mod_5_ad_1.py:46-54 | a sheet without `exchangeRate` prints the no-data line for every currency |
| UsdEurTool.NewFetcher | hw_mod_5_main.py:9-12 | construction fails with ValueError exactly when days > 10, and otherwise stores the day count unchanged |
| UsdEurTool.Fetcher.FetchRates | hw_mod_5_main.py:21-27 | one query per offset 0 .. days-1 in order, sheets returned in that order, and the whole fetch fails when any query fails |
| UsdEurTool.UsdEurLayout | hw_mod_5_main.py:32-49 | each sheet prints four lines: the date line, the USD line, the EUR line and a blank line |
| UsdEurTool.UsdEurSheet | hw_mod_5_main.py:33-49 | for the pair USD, EUR the general printer writes the date, USD, EUR and blank lines of one sheet |
| UsdEurTool.PrintSheet | hw_mod_5_main.py:33-49 | one sheet's USD and EUR lookups and four printed lines are the general printer's for the pair USD, EUR |
| UsdEurTool.PrintRates | hw_mod_5_main.py:31-49 | the loop prints four lines per sheet in input order, with the USD line before the EUR line, each from the first matching entry |

## Left out

- Websocket transport (`websockets.serve`, `async for`, `send`): sends are appends to `sent`, and a closed connection is a member of the `dead` parameter.
- HTTP through aiohttp and JSON decoding: each API answer is a `FetchOutcome`. Entries are assumed to carry `currency`, `purchaseRate` and `saleRate`, so a KeyError on an entry's field is not modelled. An `exchangeRate` of JSON `null` is not distinguished from a missing key. Nor is a `date` of JSON `null`: both printers then write `Date: None`, because `get` returns the stored None rather than the default `N/A`, while the model's date is only present or missing.
- The `chat.log` audit file and its timestamp: only the raw command text is kept, in `commandLog`.
- Clock, calendar and `strftime`: the date of offset `i` is `dateOf(i)`, which is total. In the relay, `datetime.now() - timedelta(days=i)` (hw_mod_5_ad_2.py:39) raises OverflowError once the date would fall before year 1; on 2026-10-15 that first happens at `i` = 739,904. So for a day count above 739,904 the model gives a report where the relay raises and ends the session.
- asyncio concurrency: sessions run one step at a time, and the client set does not change during a broadcast.
- Relay.Server.HandleClient: a session runs against a frozen environment. One `dateOf`, one `provider` and one `dead` set serve all of its turns, and `Serve` changes only `sent` and `commandLog`, so no other client joins or leaves between its turns. In the relay each `exchange` reads `datetime.now()` again (hw_mod_5_ad_2.py:39), each query goes to the API afresh (hw_mod_5_ad_2.py:42), peers may close at any time, and other sessions add and remove clients between this session's turns (hw_mod_5_ad_2.py:59, hw_mod_5_ad_2.py:72). For example, `exchange 1` sent before and after midnight in one session gives the same report in the model. A changing environment is covered turn by turn only: a caller may interleave `Relay.Server.Turn` with `Add` and `Remove` and pass each turn its own `dateOf`, `provider` and `dead`.
- Exceptions from the relay's I/O are not modelled. These are an aiohttp connection error or time-out from `session.get` (hw_mod_5_ad_2.py:42), an undecodable body from `response.json()` (hw_mod_5_ad_2.py:44), and a failure to open or write `chat.log` in `log_command` (hw_mod_5_ad_2.py:13-15, 65). In the relay each of these ends the session with no reply; in the `log_command` case the report was already computed but is never sent. The model's only fetch failure is a non-200 `Failed`, which gives a failure line, so the per-day isolation that `Relay.ReportIsJoinedBlocks` states holds only for a non-200 status. The two fetchers need no such line: there any exception fails the whole `gather`, as `FetchFailed` already does.
- Rates.FetchAll: `gather` reports the exception of some failing query; the model names one failing date but not which one, because the order in which the queries complete is not modelled.
- Float rendering of rates: `purchaseRate` and `saleRate` are opaque strings.
- Text.ParseInt: Unicode decimal digits other than `0`-`9` are not accepted, and surrounding whitespace is not handled (a split token never has any).
- Text.ParseInt: the limit on the number of digits `int()` converts (4300 by default since Python 3.11, raising ValueError above it) is not modelled, because it depends on the interpreter version and on `sys.set_int_max_str_digits`; a longer numeral parses here, so `DayCount` and `Report` give a value where such an interpreter raises.
- Process entry: argparse, `input()`, `main` and the module-level calls in `hw_mod_5_ad_1.py` and `hw_mod_5_main.py`.
- The order in which `for client in clients` visits the set: the broadcast picks any unvisited client.
