# Crypto signal bot: verified model of the signal pipeline

This project models the signal pipeline of `bot.py`, a Telegram bot that
scrapes the Bybit derivatives overview for `…USDT` symbols, fetches hourly
candles for each, scores them with a handful of technical rules and sends
the results to a chat, on demand (`/nowsignal`) or periodically
(`/auto15`, `/auto30`, `/auto60`, stopped by `/stopauto`).

The model and its proofs are written in Dafny, in these modules:

- `Sequences` (sequences.dfy): sequence helpers the pipeline relies on. Order-preserving de-duplication, filtering, flattening and joining.
- `Discovery` (discovery.dfy): `_extract_symbols_from_html` and `get_top_symbols`.
  - Pages are given as the HTML each page yielded, with `None` for a page whose every URL failed.
  - The regular expression is a tokenizer parameter.
  - Extraction is a method that fills a dictionary in a loop. Discovery is a method with the nested page and token loops and their early exits.
  - Both are proved against the functions `Dedup`, `Gathered` and `TopSymbols`.
- `Ohlcv` (ohlcv.dfy): `fetch_ohlcv`.
  - Python's `str.replace` is modelled exactly, so the three candidate spellings are computed, not assumed.
  - The exchange is an oracle from a spelling to an optional list of bars.
- `Analysis` (analysis.dfy): `detect_candlestick`, `detect_double_top_bottom`, `support_resistance` and `analyze_symbol`.
  - Prices are exact reals.
  - The SMA, EMA and RSI readings are inputs. `None` stands for a reading that failed or is NaN.
  - The scoring is a method that updates the side and the reason list step by step. It is proved equal to the function `Score`, which defines the report.
- `Cycle` (cycle.dfy): one cycle of `nowsignal_cmd` and of `auto_loop`.
  - The symbol loop, the skipping of failed fetches and the chunks of 25 lines are modelled.
  - Messages are values appended to an outbox.
- `AutoTasks` (autotasks.dfy): the `auto_tasks` registry. It is a class whose map field the start and stop handlers update.

The status codes follow the source: 0 for OK, 2 for a failed fetch, 3 for unavailable pages.

Three points the model keeps as the code has them:

- `auto_tasks` is keyed by the period ("15", "30", "60"), not by the chat. A second chat asking for a running period gets nothing.
- `nowsignal_cmd` announces at most 40 symbols but analyses up to 50 (`TOP_SYMBOL_LIMIT`). The model keeps both numbers.
- `auto_loop` only checks the code after discovery. `nowsignal_cmd` also checks that the list is non-empty; the two agree because code 0 always comes with symbols.

## Model

| member | source | states |
|---|---|---|
| Sequences.Dedup | bot.py:57-61 | the result has no duplicates, holds exactly the input's elements and is no longer than the input |
| Sequences.DedupFirstAppearance | bot.py:56-61 | the de-duplicated elements appear in the order of their first occurrence in the input |
| Sequences.DedupPrefix | bot.py:95-97 | de-duplicating a prefix gives a prefix of de-duplicating the whole, which is why stopping early keeps the first symbols |
| Discovery.ExtractSymbols | bot.py:51-61 | no or empty HTML gives []; otherwise the dict-filling loop returns each matched token exactly once, in order of first appearance |
| Discovery.GatheredPrefix | bot.py:71-101 | reading fewer pages gathers a prefix of the tokens of all pages |
| Discovery.MergePage | bot.py:94-99 | the inner loop adds the unseen tokens of a page in order; it stops early only once `limit` symbols are known, and otherwise reads the whole page |
| Discovery.StoppedAtTop | bot.py:98-107 | stopping at `limit` symbols or after the last page yields the first `limit` distinct symbols over all pages; it is non-empty exactly when some page had a token |
| Discovery.GetTopSymbols | bot.py:63-109 | the code is 0 or 3, and 3 comes with []; the list has no duplicates, has at most `limit` symbols, all found on the pages; for `limit > 0` it is exactly the first `limit` distinct symbols, and the code is 0 exactly when some page had a token |
| Ohlcv.ReplaceAll | bot.py:120 | `str.replace`, scanning left to right without overlaps; its properties are stated by ReplaceAllAbsent and ReplaceAllSuffix |
| Ohlcv.ReplaceAllSuffix | bot.py:120 | `str.replace` on a string whose only occurrence of the pattern is at the end replaces just that one |
| Ohlcv.ReplaceAllAbsent | bot.py:120 | `str.replace` with a pattern that does not occur changes nothing |
| Ohlcv.CandidatesOfQuoted | bot.py:120 | for "XUSDT" the candidates are "X/USDT", "X/USDT:USDT", "XUSDT", in that order |
| Ohlcv.CandidatesOfUnquoted | bot.py:120 | a symbol without "USDT" is tried three times unchanged |
| Ohlcv.Candidates | bot.py:120 | the three spellings in the order tried; what they are for a quoted and an unquoted symbol is stated by CandidatesOfQuoted and CandidatesOfUnquoted |
| Ohlcv.FirstNonEmpty | bot.py:122-131 | the result is the non-empty answer of the first candidate whose fetch returned bars, all earlier ones having raised or returned nothing; None exactly when no candidate returned bars |
| Ohlcv.FetchOhlcv | bot.py:117-138 | the candidate loop with early return yields that first non-empty answer with code 0, or None with code 2 |
| Analysis.PatternsInOrder | bot.py:142-152 | the patterns list names each test that held, once, in the order Doji, Hammer, Bullish Engulfing |
| Analysis.DetectCandlestick | bot.py:141-155 | detect_candlestick; its properties are stated by CandlestickPatterns |
| Analysis.CandlestickPatterns | bot.py:141-155 | detect_candlestick returns an in-order subsequence of Doji, Hammer, Bullish Engulfing; Doji and Hammer exactly when the last bar has that shape, Bullish Engulfing exactly when there are at least two bars and `c>o, pc<po, c>po, o<pc`; [] for no bars |
| Analysis.DetectDoubleTopBottom | bot.py:157-168 | None for fewer than 5 bars; "Double Top" exactly when the last five closes are `c0<c1>c2<c3<c4`, "Double Bottom" exactly when `c0>c1<c2>c3>c4`; never anything else |
| Analysis.MinLow | bot.py:171 | the minimum bounds every low and is one of them |
| Analysis.MaxHigh | bot.py:172 | the maximum bounds every high and is one of them |
| Analysis.SupportResistance | bot.py:170-173 | support_resistance on a non-empty window; its properties are stated by LevelsAreExtremes |
| Analysis.LevelsAreExtremes | bot.py:170-173 | support is the lowest low and resistance the highest high of the last min(10, n) bars; both are attained |
| Analysis.IndicatorRules | bot.py:196-213 | the step-by-step updates of side and reason end in the side the trend rule decides, else the RSI rule, else HOLD, with the RSI reason before the EMA reason |
| Analysis.ComputeRisk | bot.py:220-225 | the risk branch computes RiskOf: the distance to support (LONG) or resistance (SHORT) as a percentage of the price, 0 for HOLD and when price or level is 0 |
| Analysis.ApplyRules | bot.py:196-228 | the whole scoring tail produces the record Verdict defines: side, reasons in order RSI, EMA, Pat, Fig, reason text, close-in and risk |
| Analysis.AnalyzeSymbol | bot.py:175-229 | analysing bars yields the specified report; it fails (the source raises in support_resistance) exactly for an empty window |
| Analysis.ScoreDefined | bot.py:175-182 | a report exists exactly for a non-empty window and carries the symbol analysed |
| Analysis.TrendOverridesRsi | bot.py:199-213 | when EMA and SMA are both known and differ, they decide LONG or SHORT whatever RSI says |
| Analysis.HoldIffNoRule | bot.py:196-213 | the side is HOLD exactly when neither the RSI rule nor the EMA/SMA rule fired |
| Analysis.SideIgnoresShapes | bot.py:215-218 | patterns, figures, price and levels never change the side, which depends on the indicators alone |
| Analysis.ReasonsInitials | bot.py:199-218 | every reason is non-empty and starts with the letter of its rule (R, E, P or F) |
| Analysis.NoStrongReasonIff | bot.py:228 | the reason text is "No strong reason" exactly when the reason list is empty |
| Analysis.CloseInAndHoldRisk | bot.py:220-227 | close-in is "2h" exactly when the side is not HOLD, and HOLD has risk 0 |
| Analysis.LongRiskRange | bot.py:221 | for 0 < support <= price the LONG risk percentage lies in [0, 100) |
| Analysis.ShortRiskRange | bot.py:223 | for 0 < price <= resistance the SHORT risk percentage is non-negative |
| Analysis.RiskOfBounds | bot.py:220-225 | with 0 <= support <= price <= resistance, LONG risk is in [0, 100) and SHORT risk is non-negative, a zero price or level falling back to risk 0 |
| Analysis.RiskBounds | bot.py:170-225 | on well-formed bars (0 <= low <= open, close <= high) the reported LONG risk is in [0, 100) and the SHORT risk non-negative |
| Cycle.Chunks | bot.py:274-276 | every chunk has 1 to 25 lines and all but the last exactly 25 |
| Cycle.ChunksCount | bot.py:275 | there are ceil(len / 25) chunks |
| Cycle.ChunksFlatten | bot.py:274-276 | the chunks concatenated give back the lines in order |
| Cycle.Chunk | bot.py:275-276 | the `range(0, len, 25)` slicing loop produces exactly those chunks |
| Cycle.SendChunks | bot.py:272-276 | one report message per chunk, in order |
| Cycle.ReportsCarryLines | bot.py:272-276 | the report messages together carry exactly the lines, in order, at most 25 per message |
| Cycle.AnalysisFollowsFetch | bot.py:261-267 | a symbol yields exactly one line, about that symbol, when its fetch succeeds, and none otherwise (fetched windows are never empty, so analysis cannot fail) |
| Cycle.OnlyFetchFailures | bot.py:262-270 | the only notice a symbol can cause is an "OHLCV FAIL, code=2", exactly when its fetch failed |
| Cycle.LinesFollowDiscovery | bot.py:259-270 | the lines of a cycle are about exactly the symbols whose fetch succeeded, in discovery order, the failed ones skipped |
| Cycle.CycleAccounting | bot.py:259-270 | every symbol yields one line or one notice; every notice is a fetch failure with code 2 for a symbol of the batch that could not be fetched |
| Cycle.ProcessSymbol | bot.py:261-270 | the loop body sends the fetch-failure notice, the analysis-error notice (interactive only) or keeps the line, as specified per symbol |
| Cycle.CollectLines | bot.py:259-270 | the loop over the batch collects exactly the specified lines and notices, in batch order |
| Cycle.ProcessBatch | bot.py:259-278 | a batch sends its notices, then its lines in chunks, or "no data" when interactive and no line was produced |
| Cycle.NowSignalReport | bot.py:252-278 | nowsignal_cmd sends "collecting", then the discovery error when the code is not 0 or the list is empty, otherwise the count (announced as at most 40) and the report of the first 50 symbols |
| Cycle.NowSignal | bot.py:251-278 | with discovery included: the error with code 3 when no page had a symbol, otherwise the count and the report of the first 50 distinct symbols |
| Cycle.AutoCycle | bot.py:295-326 | one auto_loop iteration: the error with code 3 when discovery fails, otherwise the notices and chunked lines of the first 50 symbols, with analysis errors dropped and nothing sent when there is no line |
| AutoTasks.AtMostThree | bot.py:24 | a registry keyed by period holds at most three tasks |
| AutoTasks.StartIdempotent | bot.py:329-345 | starting a period that is already running changes nothing and keeps the first task |
| AutoTasks.StartedWellKeyed | bot.py:329-345 | starting a task under its own period keeps the registry keyed by period |
| AutoTasks.Registry.constructor | bot.py:24 | the registry starts empty |
| AutoTasks.Registry.Start | bot.py:329-345 | a task is added, and the confirmation sent, exactly when its period is not yet in the registry; otherwise nothing changes |
| AutoTasks.Registry.StartAuto | bot.py:329-333 | /auto30 adds key "30" with a 30-minute task for the chat, unless "30" is present |
| AutoTasks.Registry.StartAuto15 | bot.py:335-339 | /auto15 adds key "15" with a 15-minute task for the chat, unless "15" is present |
| AutoTasks.Registry.StartAuto60 | bot.py:341-345 | /auto60 adds key "60" with a 60-minute task for the chat, unless "60" is present |
| AutoTasks.Registry.StopAuto | bot.py:347-354 | every task in the registry is cancelled once, and the registry ends empty |

## Left out

- The HTTP scraping (`_scrape_bybit_page`, `requests`, the URL variants and the dead `url` assignment) and `time.sleep`: network I/O. The pages are an input holding what each page yielded.
- The regular expression `\b[A-Z0-9]{2,12}USDT\b` and the upper-casing: the tokenizer is a parameter. Only the de-duplication and order logic is modelled.
- The ccxt client and `load_markets`: foreign network calls. The exchange is an oracle parameter; an exception is modelled as `None`.
- The pandas DataFrame and timestamp conversion: the bars are a sequence of records.
- The SMA, EMA and RSI computations of the ta library: foreign floating-point numerics. They are inputs, with NaN mapped to `None`.
- Floating point: prices are exact reals, so rounding, infinities and NaN in prices are not modelled. A zero-range Doji test, where numpy yields inf or NaN, is modelled as false.
- The text formatting of a report line (`symbol_name[:12]`, `.6f`, `.2f`, the message texts). A line is the record `Signal`; its symbol, price, close-in, reason text and risk are the printed fields. `side` and `reasons` are extra fields the printed line does not show; a reader sees the side only through "Close: 2h"/"-" and the reason text. The lemmas about the side (`TrendOverridesRsi`, `HoldIffNoRule`, `SideIgnoresShapes`) describe that internal value.
- Telegram (`_safe_reply`, `send_message`), `start`, `debug_cmd` and `main`: user interface. A sent message is a value appended to the outbox, and every send succeeds. `auto_loop` swallows `send_message` errors, so this changes nothing there.
- Cycle.NowSignalReport: does not capture a failing `_safe_reply`. That call has no handler, so in the source it aborts `nowsignal_cmd`: the remaining symbols are not fetched and no report follows. The model assumes every reply succeeds and always completes.
- asyncio: creating, running and cancelling tasks, the endless `while True` and the sleep of `auto_loop`. One iteration is modelled as `AutoCycle`; a registry entry records the chat and the period, not a running task.
- Discovery.GetTopSymbols: for `limit = 0` the contract only states the general bounds (at most `limit` symbols, code 0 or 3), because the source then stops after the first non-empty page whatever it holds. Every caller uses 50.
- The `except` branches of `get_top_symbols` and `fetch_ohlcv`: nothing modelled inside them can raise, and exchange errors are part of the oracle.
- AutoTasks.Registry.StopAuto: does not model `task.cancel()` itself. `cancelled` records which tasks would be cancelled.
