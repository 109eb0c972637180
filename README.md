# Options research scanner: a verified model of its decision logic

The scanner (`trading-research/enhanced_researcher.py`) looks for cheap options
setups. It builds a ticker universe and turns each ticker's market data into a
score and a list of reasons. It keeps the tickers that pass `min_score`, along
with a trade idea for each (direction, expiry, stock levels, suggested
contract), and sorts them by score. For the top picks it then asks an AI
provider for a news sentiment and re-scores them. It groups the results into
earnings, momentum and oversold plays, lays out a seven-day earnings calendar,
writes the report, and adds one entry to a newest-first research journal.

This Dafny project models the decisions in that pipeline. Market data, the
provider and the clock come in as parameters.

| file | module | what it holds |
|---|---|---|
| `Common.dfy` | `Common` | `Option`, `Result`, Python's `s[:n]` with a negative `n`, list comprehensions |
| `Signals.dfy` | `Signals` | one ticker's data record, the sentiment object, the configuration |
| `Scoring.dfy` | `Scoring` | `score_opportunity`: seven rules, each firing at most one bucket |
| `TradeIdeas.dfy` | `TradeIdeas` | `generate_trade_idea` and `calculate_entry_exit` |
| `OptionsChain.dfy` | `OptionsChain` | the choice of expiration and the affordable-strike suggestions |
| `Universe.dfy` | `Universe` | `get_universe` |
| `AiRequests.dfy` | `AiRequests` | the AI skip policy, the Responses 400-retry loop, the Chat fallback |
| `Aggregation.dfy` | `Aggregation` | the first pass, the sort, the enrichment loop, the categories, the calendar, the report |
| `Journal.dfy` | `Journal` | the basic journal entry, the optional AI note, the de-duplicate / prepend / cap update |

Python behaviours the model writes out explicitly:

- **Truthiness.** An RSI of 0 counts as missing, and so does 0 days to
  earnings in the two places that test `days_to_earnings` for truth.
- **Slicing.** A negative end index is handled the way Python handles it
  (`PyStop`, `PyPrefix`). It matters for `max_tickers`, `ai_top_n` and
  `RESEARCH_JOURNAL_MAX_ENTRIES`.
- **Substring tests.** The retry loop's `pat in txt` checks are modelled as
  substring search.
- **Crashes.** Two crashes become error results:
  - Slicing a `null` AI summary: a strong sentiment whose `summary` is JSON null.
  - Comparing a missing RSI with 50 in `calculate_entry_exit`.

  In the first pass these exceptions are caught and the ticker is dropped. In
  the enrichment loop they are not caught, and the run ends.

Points where this model follows the code rather than the written description:

- **The calendar's padding rows.**
  - The code pads the calendar with every universe ticker that has no result.
  - Their `earnings_date` is `None`.
  - So they never appear on any day (`Aggregation.CalendarIgnoresPadding`).
- **Day 0 is not an earnings play.**
  - The categorisation is written `0 <= days_to_earnings <= 7`.
  - Because the day count is tested for truth first, day 0 is never an earnings play.
  - The trade idea's "through earnings" expiry excludes day 0 the same way.
- **Every first-pass result has an RSI.**
  - During the first pass the data carries no trade idea.
  - So `calculate_entry_exit` uses CALL, and a missing RSI raises a TypeError.
  - The ticker is then dropped.
  - As a consequence, with provider objects whose score is a number and whose summary is absent, null or a
    string, the enrichment loop can fail only on a null summary (`Aggregation.RunResearch`).

## Model

| member | source | states |
|---|---|---|
| `Scoring.ScoreOpportunity` | trading-research/enhanced_researcher.py:892-970 | raises exactly when the sentiment is strong (\|score\| ≥ 3) with a null summary; otherwise the reasons are the fired rules' reasons in rule order and the score is the sum of their weights |
| `Scoring.AddEarningsBucket` | trading-research/enhanced_researcher.py:897-908 | the earnings section adds the earnings rule's single bucket (3 for 1-3 days, 2 for 4-7, 1 for day 0) to the running score and list |
| `Scoring.AddVolumeBucket` | trading-research/enhanced_researcher.py:910-917 | the volume section adds the volume rule's single bucket to the accumulators |
| `Scoring.AddMomentumBucket` | trading-research/enhanced_researcher.py:919-928 | the momentum section adds the momentum rule's single bucket to the accumulators |
| `Scoring.AddRsiBucket` | trading-research/enhanced_researcher.py:930-938 | the RSI section adds the RSI rule's bucket, none for a missing or zero RSI |
| `Scoring.AddOptionsBuckets` | trading-research/enhanced_researcher.py:940-956 | the options section adds the IV bucket then the affordable bucket, nothing without options |
| `Scoring.AddSentimentBucket` | trading-research/enhanced_researcher.py:958-968 | the AI section adds the sentiment rule's bucket |
| `Scoring.ScoreIsRuleSum` | trading-research/enhanced_researcher.py:892-970 | the score equals the sum over the seven rules of what each one adds |
| `Scoring.RuleBucket` | trading-research/enhanced_researcher.py:897-968 | each rule fires at most one reason, of its own factor, adding between 0 and that factor's cap |
| `Scoring.ScoreBounds` | trading-research/enhanced_researcher.py:892-970 | 0 ≤ score ≤ 12 = 3 + 2 + 2 + 1.5 + 1.5 + 0.5 + 1.5 |
| `Scoring.ReasonsInRuleOrder` | trading-research/enhanced_researcher.py:892-970 | the reasons are strictly in rule order (earnings, volume, momentum, RSI, IV, affordable, AI), so there are at most seven |
| `Scoring.ReasonForFactor` | trading-research/enhanced_researcher.py:892-970 | a factor has a reason in the list if and only if its rule fired, and that reason is the rule's |
| `Scoring.AbsentInputsAddNothing` | trading-research/enhanced_researcher.py:930-956 | a missing or zero RSI gives no RSI reason; absent options give no IV and no affordable reason |
| `Scoring.OversoldBreakoutExample` | trading-research/enhanced_researcher.py:892-970 | a $20 stock with 2.5x volume, +12% and RSI 28 scores 5.5 with heavy volume, a big up move and oversold |
| `TradeIdeas.DirectionOf` | trading-research/enhanced_researcher.py:996-1004 | CALL if and only if more bullish votes, PUT if and only if more bearish votes, STRADDLE if and only if equal |
| `TradeIdeas.BiasOf` | trading-research/enhanced_researcher.py:996-1004 | the bias is bullish for CALL, bearish for PUT, neutral for STRADDLE, and only then |
| `TradeIdeas.ExpiryOf` | trading-research/enhanced_researcher.py:1006-1015 | "through earnings" if and only if earnings are 1 to 7 days out; else the listed expiration if and only if options with an expiration exist; else "1-2 weeks out" |
| `TradeIdeas.SuggestedOption` | trading-research/enhanced_researcher.py:1026 | the call suggestion for CALL, the put suggestion for PUT and STRADDLE, nothing without options |
| `TradeIdeas.CalculateEntryExit` | trading-research/enhanced_researcher.py:717-760 | the levels use the direction already on the data, CALL when there is none; it raises if and only if that direction is CALL or PUT and the RSI is missing |
| `TradeIdeas.TradeIdeaOf` | trading-research/enhanced_researcher.py:973-1027 | raises exactly when the levels raise; otherwise CALL and a bullish bias if and only if more bullish votes, PUT and a bearish bias if and only if more bearish votes, a neutral bias if and only if the votes tie; the bias is the direction's, the expiry is `ExpiryOf`, the levels are `CalculateEntryExit`'s for the prior direction, and the suggestion matches the direction |
| `TradeIdeas.GenerateTradeIdea` | trading-research/enhanced_researcher.py:973-1027 | the counter-based procedure returns exactly the idea `TradeIdeaOf` specifies |
| `TradeIdeas.VoteCounts` | trading-research/enhanced_researcher.py:981-994 | the bullish (bearish) count is the number of the four signals voting bullish (bearish) |
| `TradeIdeas.CountsShareVotes` | trading-research/enhanced_researcher.py:981-994 | no vote is counted on both sides |
| `TradeIdeas.VotesBounded` | trading-research/enhanced_researcher.py:981-994 | each of the four signals casts at most one vote: bullish + bearish ≤ 4 |
| `TradeIdeas.MirrorFlipsDirection` | trading-research/enhanced_researcher.py:981-1004 | negating momentum, trend and sentiment and reflecting the RSI about 50 swaps CALL and PUT and keeps STRADDLE |
| `TradeIdeas.EntryExitLevels` | trading-research/enhanced_researcher.py:726-755 | with a non-negative move: CALL has stop ≤ price ≤ target and buys below the price; PUT has target ≤ price ≤ stop and buys above it; STRADDLE enters at the price |
| `TradeIdeas.RewardToRisk` | trading-research/enhanced_researcher.py:726-755 | the target lies 1.4 times as far from the price as the stop for CALL and PUT, twice as far for STRADDLE |
| `TradeIdeas.OversoldBreakoutIdea` | trading-research/enhanced_researcher.py:717-760 | the worked example is a CALL entering at 19.9 with target 20.7 and stop 19.5, using the default 5% move |
| `Signals.Titles` | trading-research/enhanced_researcher.py:1117 | a string is among the headlines if and only if it is the non-empty title of some news item; there are none if and only if every title is empty |
| `OptionsChain.Considered` | trading-research/enhanced_researcher.py:623 | only the first five listed expirations are looked at |
| `OptionsChain.ExpirationChoice` | trading-research/enhanced_researcher.py:619-635 | a choice exists if and only if a considered expiration is at least a day out; it is the first weekly one (5 to 10 days) if any, else the first future one |
| `OptionsChain.ChooseExpiration` | trading-research/enhanced_researcher.py:619-633 | the loop that remembers the nearest and the weekly expiration returns exactly `ExpirationChoice` |
| `OptionsChain.LowestStrike` | trading-research/enhanced_researcher.py:666 | an element of least strike, none for an empty table |
| `OptionsChain.HighestStrike` | trading-research/enhanced_researcher.py:667 | an element of greatest strike, none for an empty table |
| `OptionsChain.CallSuggestion` | trading-research/enhanced_researcher.py:666-685 | a call is suggested if and only if one has premium ≤ max and strike ≥ price; it has the least such strike, and break-even is strike + premium |
| `OptionsChain.PutSuggestion` | trading-research/enhanced_researcher.py:666-699 | a put is suggested if and only if one has premium ≤ max and strike ≤ price; it has the greatest such strike, and break-even is strike − premium |
| `OptionsChain.GetOptionsData` | trading-research/enhanced_researcher.py:611-704 | a snapshot exists if and only if an expiration is chosen and both of its tables are non-empty; it carries the chosen date and the two suggestions |
| `Universe.GetUniverse` | trading-research/enhanced_researcher.py:129-143 | the append loop returns the curated list plus new cached tickers, cut by Python's `[:max_tickers]` |
| `Universe.FreshMembers` | trading-research/enhanced_researcher.py:136-139 | a cached ticker is added if and only if it is not curated, and never twice |
| `Universe.UniverseShape` | trading-research/enhanced_researcher.py:129-143 | the universe is a prefix of curated + new cached tickers, at most `max_tickers` long, drawn from those lists, without duplicates when the curated list has none |
| `Universe.DefaultIgnoresCache` | trading-research/enhanced_researcher.py:71-143 | with the default cap of 100 the universe is the first 100 curated tickers, whatever is cached |
| `AiRequests.SkipPolicy` | trading-research/enhanced_researcher.py:202-209 | "low" if and only if there is no key or no headline; "skipped" if and only if neither the call nor the configuration forces the AI; otherwise the provider is asked |
| `AiRequests.ApplyRetryRules` | trading-research/enhanced_researcher.py:287-309 | the in-place edits of one 400 round equal `Relax`: the temperature rule, then the effort rule, then the unsupported-reasoning rule |
| `AiRequests.RelaxMonotone` | trading-research/enhanced_researcher.py:287-309 | a round never raises the effort back or adds a temperature and keeps the token budget; a change without a temperature strictly relaxes the effort |
| `AiRequests.TemperatureRuleInert` | trading-research/enhanced_researcher.py:264-295 | on a body without a temperature, the temperature rule changes nothing |
| `AiRequests.PostWithRetries` | trading-research/enhanced_researcher.py:278-311 | the loop ends with the reply and the number of POSTs of the retry specification `RetryFrom`: post, stop unless a 400, stop unless `Relax` changed the body, at most three times |
| `AiRequests.RetrySteps` | trading-research/enhanced_researcher.py:278-311 | 1 to 3 POSTs; every POST but the last got a 400 whose text changed the body into the next; the loop stops on a non-400, an unchanged body, or the third POST |
| `AiRequests.RetryEscalates` | trading-research/enhanced_researcher.py:264-311 | the effort only moves low → medium → removed, the token budget is kept, and a temperature never appears |
| `AiRequests.RetryVariantsAgree` | trading-research/enhanced_researcher.py:466-494 | the journal call's loop, which lacks the temperature rule, posts the same bodies as the sentiment call's |
| `AiRequests.Outcome` | trading-research/enhanced_researcher.py:311-317 | a received reply whose status is not 4xx or 5xx yields exactly the object parsed from its text (none if there is none); a transport error or an error status yields none |
| `AiRequests.SentimentChatPayload` | trading-research/enhanced_researcher.py:320-332 | 240 tokens in `max_completion_tokens` for gpt-5 models, else in `max_tokens` with temperature 0.3 |
| `AiRequests.JournalChatPayload` | trading-research/enhanced_researcher.py:505-514 | the journal's chat payload has the caller's budget and no temperature |
| `AiRequests.QueryProvider` | trading-research/enhanced_researcher.py:262-348 | the object is `ProviderAnswer`: the Responses object if that endpoint is used and yields one, else the Chat object if that endpoint is used; 1 to 3 Responses POSTs only with the empty or "responses" style; one Chat POST if and only if that endpoint is used and Responses gave nothing; no object for any other style |
| `AiRequests.GetAiSentiment` | trading-research/enhanced_researcher.py:202-353 | a skipped call posts nothing; otherwise the provider's object or the "low" placeholder; at most four POSTs |
| `AiRequests.GenerateJson` | trading-research/enhanced_researcher.py:415-533 | nothing without a key, else `ProviderAnswer` with the journal's budget and chat payload; it is stated with the temperature rule on, which `RetryVariantsAgree` shows posts the same bodies as the journal's loop without it |
| `Aggregation.FirstPass` | trading-research/enhanced_researcher.py:1092-1101 | a ticker is kept if and only if its price passes the filter of line 778, scoring does not raise, it meets `min_score`, and it has an RSI; it keeps the score, reasons and the CALL-levelled idea |
| `Aggregation.ProcessTicker` | trading-research/enhanced_researcher.py:1088-1102 | one future's handling gives exactly `FirstPass` of the fetched data, nothing when the fetch failed |
| `Aggregation.Scan` | trading-research/enhanced_researcher.py:1076-1109 | the results are the kept tickers in universe order, sorted by score |
| `Aggregation.PassedAreFresh` | trading-research/enhanced_researcher.py:851-852 | with the pending placeholder sentiment every result carries the rule-sum score and reasons and an RSI |
| `Aggregation.PassedHaveRsi` | trading-research/enhanced_researcher.py:1092-1101 | every first-pass result has an RSI |
| `Aggregation.SortByScoreSorted` | trading-research/enhanced_researcher.py:1109 | the sort orders scores from highest to lowest and is a permutation |
| `Aggregation.EnrichPrefix` | trading-research/enhanced_researcher.py:1115-1136 | the loop over the first `k` results keeps the length and leaves later results untouched |
| `Aggregation.EnrichErrorPersists` | trading-research/enhanced_researcher.py:1115-1136 | once the loop has raised, the run's outcome is that exception |
| `Aggregation.EnrichTopN` | trading-research/enhanced_researcher.py:1112-1139 | without a key or with AI off the results are unchanged; otherwise the in-place loop over `results[:ai_top_n]`, then the re-sort, or its exception |
| `Aggregation.EnrichNeverLowers` | trading-research/enhanced_researcher.py:1120-1131 | enrichment never lowers a score, keeps each ticker and price in place, and leaves results past the prefix as they were |
| `Aggregation.EnrichOneParts` | trading-research/enhanced_researcher.py:1120-1131 | one pass of the loop (`EnrichOne`) on data with an RSI raises exactly on a strong null-summary sentiment, and otherwise appends the sentiment rule's reason and adds its weight |
| `Aggregation.RescoreAddsSentiment` | trading-research/enhanced_researcher.py:958-968 | scoring placeholder data again with a new sentiment gives the old reasons followed by the sentiment rule's reason, and the old score plus its weight |
| `Aggregation.EnrichedIsRescored` | trading-research/enhanced_researcher.py:1120-1131 | enriching a fresh result equals scoring its data with the new sentiment; it raises exactly on a strong null-summary sentiment |
| `Aggregation.CategoryMembers` | trading-research/enhanced_researcher.py:1142-1144 | earnings plays are exactly the results 1 to 7 days out; momentum and oversold plays are exactly their results minus earnings plays, so neither meets the earnings plays |
| `Aggregation.CategoriesSorted` | trading-research/enhanced_researcher.py:1142-1144 | the three categories keep the score order |
| `Aggregation.BuildEarningsCalendar` | trading-research/enhanced_researcher.py:1030-1053 | seven days from today, only the first marked today, each listing the rows with that earnings date in order |
| `Aggregation.CalendarIgnoresPadding` | trading-research/enhanced_researcher.py:1146-1150 | the padding rows for unscanned tickers never show up on a day |
| `Aggregation.BuildReport` | trading-research/enhanced_researcher.py:1152-1190 | top picks are the first 10 results, categories their first 5; scanned is the universe size, passed the number of results, opportunities the number of results scoring 4 or more, earnings and oversold the category sizes; the results, calendar and time are carried over |
| `Aggregation.NoMissingRsi` | trading-research/enhanced_researcher.py:1115-1136 | when every result has an RSI, the loop can only raise on a null summary |
| `Aggregation.ScannedHaveRsi` | trading-research/enhanced_researcher.py:1092-1109 | every sorted result has an RSI |
| `Aggregation.RunResearch` | trading-research/enhanced_researcher.py:1056-1190 | the report is `BuildReport` of its results and of the seven-day calendar of those results and the padding rows; the results are score-sorted, one per kept ticker, the sorted first pass without AI and the re-sorted enrichment of its `[:ai_top_n]` prefix with AI; the run fails if and only if that enrichment raises, and then only on a null summary (for provider objects of the expected types) |
| `Journal.SummaryText` | trading-research/enhanced_researcher.py:403 | a pick's AI summary is the sentiment's text, none for a missing or null summary |
| `Journal.PicksOf` | trading-research/enhanced_researcher.py:393-405 | one pick per result, in order |
| `Journal.BasicEntry` | trading-research/enhanced_researcher.py:375-412 | stamped with the report time, or now when that is empty; carries the report's counts and, for its first five top picks, each one's ticker, score, direction and AI summary text; no AI note yet |
| `Journal.MaxEntries` | trading-research/enhanced_researcher.py:602-606 | the cap is 30 unless the setting parses as an integer, and then that integer |
| `Journal.WithNote` | trading-research/enhanced_researcher.py:589-592 | a returned note and the model name are attached; no note leaves the entry as it was |
| `Journal.WithEntryShape` | trading-research/enhanced_researcher.py:596-600 | the entry is the head; a re-run replaces the old head (length kept), otherwise the old list follows whole |
| `Journal.JournalKeepsOrder` | trading-research/enhanced_researcher.py:596-608 | after the entry come the older entries (all but a replaced head), unchanged and in order, cut by `[:max_entries]` |
| `Journal.JournalHead` | trading-research/enhanced_researcher.py:596-608 | the new entry is at the head whenever the cap leaves anything |
| `Journal.JournalLength` | trading-research/enhanced_researcher.py:596-608 | below the cap a re-run swaps the head in place and a new timestamp is prepended |
| `Journal.JournalBounded` | trading-research/enhanced_researcher.py:596-608 | a non-negative cap bounds the length, and an update adds at most one entry |
| `Journal.JournalIdempotent` | trading-research/enhanced_researcher.py:596-608 | with a non-negative cap, saving the same entry twice equals saving it once |
| `Journal.NegativeCapShrinks` | trading-research/enhanced_researcher.py:596-608 | a negative cap shortens the journal on every re-run |
| `Journal.ResearchJournal.Append` | trading-research/enhanced_researcher.py:596-608 | the in-place replace-or-insert and slice leave exactly `JournalUpdated` of the old list |
| `Journal.AppendResearchJournal` | trading-research/enhanced_researcher.py:535-608 | the journal becomes the update with the basic entry, plus the provider's note when a key is set and AI sentiment is on |

## Left out

- Market data: the yfinance history, chains, calendar and news; the pandas plumbing of `get_stock_data` and `get_options_data`. They are foreign library calls. The model takes one ticker's record, a chain per expiration date and the listed expirations (as days out) as inputs.
- RSI, average implied volatility and expected move: these are floating-point numerics over pandas series (`calculate_rsi`, the `np.sqrt` step). They are inputs.
- Rounding: `round(…, 2)` and `round(…, 1)` on prices, levels, IV and scores is not modelled. Reals are exact.
- Concurrency and timing: the thread pool's completion order is taken to be the universe order (`Aggregation.Scan`), and the sleeps are dropped.
- HTTP, JSON and `_parse_json_obj`:
  - A provider reply is a status, a text and the object parsed from it, if any.
  - Prompt texts, headers, timeouts and the error strings that are joined and raised are not modelled.
  - The callers turn every raised error into "no object".
- File I/O: `load_config`, `save_config`, the universe cache file, `_load_json_list`, `_atomic_write_json` and the report dump. What they read comes in as parameters. A missing cache file is an empty ticker list.
- Environment and clock: keys, the API style, the model name, `RESEARCH_JOURNAL_MAX_ENTRIES`, `now()` and `today()`. These become parameters. The calendar's day strings are a function of the day offset.
- Reason and title text: emoji and f-strings are modelled as `Reason` constructors and as counts.
- The journal prompt's context: the summary and the picks sent with the note request.
- The `ticker_discovery` fallback in `run_research`: its module is not part of this model, so the model starts from the `get_universe` list.
- `update_universe_from_alpaca`: its `list(set(...))` order is nondeterministic.
- `Aggregation.RunResearch`: does not model ill-typed provider objects. `_parse_json_obj` only guarantees a dict, but the model takes the object's `score` to be a number and its `summary` to be absent, null or a string. A `null` or string score (`abs` raises) or a non-string summary under a strong score (the slice raises) would end `run_research` in the enrichment loop. So "fails only on a null summary" holds for well-typed objects only.
- The report's fixed texts (descriptions, config echo, next update) and the `print` summary.
- `Aggregation.SortByScoreSorted`: proves that the sort is ordered and is a permutation. It does not prove that ties keep their order, although `InsertByScore` is written to be stable like Python's sort.
- `Universe.UniverseShape`: states "no duplicates" only under the assumption that the curated list has none. The 128-symbol list is distinct, but that fact is not proved.
- `OptionsChain.CallSuggestion`: pandas' `sort_values` does not promise an order among equal strikes. The model picks the first of them in table order.
- `OptionsChain.PutSuggestion`: the same holds for equal put strikes after the descending sort. The model picks the first of them in table order.
- The calendar's weekday label (`day`): it is a date format of the day offset, which the model does not carry.
- The option-leg guidance of `calculate_entry_exit`: it is three fixed texts, so `TradeIdeas.EntryExit` keeps only the stock levels.
- `TradeIdeas.MirrorFlipsDirection`: excludes an RSI of exactly 0 or 100, because 0 is falsy and abstains while its mirror image votes.
