/** The post-scan part of `run_research`: the first pass over the universe, the
    sort by score, the sentiment enrichment of the top picks, the three
    categories, the earnings calendar and the report summary. */
module Aggregation {
  import opened Common
  import opened Signals
  import opened Scoring
  import opened TradeIdeas

  /** A scanned ticker that passed the filters: its data, score, reasons and idea. */
  datatype Opportunity = Opportunity(signal: Signal, score: real, reasons: seq<Reason>, idea: TradeIdea)

  /** An exception the enrichment loop does not catch: it ends the whole run. */
  datatype RunError = NullSummary | MissingRsi

  // ----- the first pass -----

  /** What the first pass keeps of one ticker's data: nothing when the price
      filter drops it, when scoring or the trade idea raises (the exception is
      caught and the ticker skipped), or when it scores below `min_score`. The
      trade idea's levels use CALL, as the data carries no idea yet. */
  function FirstPass(s: Signal, config: Config): (r: Option<Opportunity>)
    ensures r.Some? <==>
              s.price <= config.maxStockPrice && !AiRuleRaises(s.sentiment)
              && TotalWeight(ScoreReasons(s)) >= config.minScore && s.rsi.Some?
    ensures r.Some? ==>
              && r.value.signal == s
              && r.value.score == TotalWeight(ScoreReasons(s))
              && r.value.reasons == ScoreReasons(s)
              && r.value.idea == TradeIdeaOf(s, ScoreReasons(s), None).value
  {
    if s.price > config.maxStockPrice || AiRuleRaises(s.sentiment) then None
    else
      var score := TotalWeight(ScoreReasons(s));
      if score < config.minScore then None
      else match TradeIdeaOf(s, ScoreReasons(s), None)
        case Err(_) => None
        case Ok(idea) => Some(Opportunity(s, score, ScoreReasons(s), idea))
  }

  /** The body of the first-pass loop for one ticker (`fetched` is what
      `get_stock_data` built, before its price filter; nothing if it failed). */
  method ProcessTicker(fetched: Option<Signal>, config: Config) returns (r: Option<Opportunity>)
    ensures fetched.None? ==> r.None?
    ensures fetched.Some? ==> r == FirstPass(fetched.value, config)
  {
    if fetched.None? || fetched.value.price > config.maxStockPrice {
      return None;
    }
    var s := fetched.value;
    var scored := ScoreOpportunity(s);
    if scored.Err? {
      return None;
    }
    if scored.value.score < config.minScore {
      return None;
    }
    var idea := GenerateTradeIdea(s, scored.value.reasons, None);
    if idea.Err? {
      return None;
    }
    r := Some(Opportunity(s, scored.value.score, scored.value.reasons, idea.value));
  }

  /** The opportunities of a scan, in universe order. */
  function Passed(universe: seq<string>, fetch: string -> Option<Signal>, config: Config): seq<Opportunity> {
    if universe == [] then []
    else
      var earlier := Passed(universe[..|universe| - 1], fetch, config);
      var fetched := fetch(universe[|universe| - 1]);
      if fetched.Some? && FirstPass(fetched.value, config).Some? then earlier + [FirstPass(fetched.value, config).value]
      else earlier
  }

  /** The first pass: every ticker of the universe, then the sort by score. The
      pool's completion order is taken to be the universe order. */
  method Scan(universe: seq<string>, fetch: string -> Option<Signal>, config: Config) returns (results: seq<Opportunity>)
    ensures results == SortByScore(Passed(universe, fetch, config))
  {
    results := [];
    for i := 0 to |universe|
      invariant results == Passed(universe[..i], fetch, config)
    {
      assert universe[..i + 1][..i] == universe[..i];
      var opportunity := ProcessTicker(fetch(universe[i]), config);
      if opportunity.Some? {
        results := results + [opportunity.value];
      }
    }
    assert universe[..|universe|] == universe;
    results := SortByScore(results);
  }

  /** The state a first-pass opportunity is in: scored from scratch, with the
      placeholder sentiment, an RSI, and ticker data that passed the filters. */
  predicate FreshOpportunity(o: Opportunity) {
    && o.signal.sentiment == PENDING_SENTIMENT
    && o.score == TotalWeight(ScoreReasons(o.signal))
    && o.reasons == ScoreReasons(o.signal)
    && o.signal.rsi.Some?
  }

  /** Every result of a scan over data with the placeholder sentiment is fresh. */
  lemma {:induction false} PassedAreFresh(universe: seq<string>, fetch: string -> Option<Signal>, config: Config)
    requires forall t :: fetch(t).Some? ==> fetch(t).value.sentiment == PENDING_SENTIMENT
    ensures forall o :: o in Passed(universe, fetch, config) ==> FreshOpportunity(o)
  {
    if universe != [] {
      PassedAreFresh(universe[..|universe| - 1], fetch, config);
    }
  }

  /** The first pass always asks for CALL levels, so every result has an RSI. */
  lemma {:induction false} PassedHaveRsi(universe: seq<string>, fetch: string -> Option<Signal>, config: Config)
    ensures forall o :: o in Passed(universe, fetch, config) ==> o.signal.rsi.Some?
  {
    if universe != [] {
      PassedHaveRsi(universe[..|universe| - 1], fetch, config);
    }
  }

  // ----- sorting by score, highest first -----

  predicate SortedByScore(s: seq<Opportunity>) {
    forall i, j :: 0 <= i < j < |s| ==> s[i].score >= s[j].score
  }

  /** Insert before the first element scoring no more, keeping ties in their order. */
  function InsertByScore(o: Opportunity, sorted: seq<Opportunity>): seq<Opportunity> {
    if sorted == [] || sorted[0].score <= o.score then [o] + sorted
    else [sorted[0]] + InsertByScore(o, sorted[1..])
  }

  /** `results.sort(key=score, reverse=True)`: an insertion sort, stable like Python's. */
  function SortByScore(s: seq<Opportunity>): seq<Opportunity> {
    if s == [] then [] else InsertByScore(s[0], SortByScore(s[1..]))
  }

  lemma {:induction false} InsertByScoreMembers(o: Opportunity, sorted: seq<Opportunity>)
    ensures multiset(InsertByScore(o, sorted)) == multiset(sorted) + multiset{o}
  {
    if sorted != [] && sorted[0].score > o.score {
      InsertByScoreMembers(o, sorted[1..]);
      assert sorted == [sorted[0]] + sorted[1..];
    }
  }

  lemma {:induction false} InsertByScoreBounded(o: Opportunity, sorted: seq<Opportunity>, bound: real)
    requires o.score <= bound
    requires forall i :: 0 <= i < |sorted| ==> sorted[i].score <= bound
    ensures forall i :: 0 <= i < |InsertByScore(o, sorted)| ==> InsertByScore(o, sorted)[i].score <= bound
  {
    if sorted != [] && sorted[0].score > o.score {
      InsertByScoreBounded(o, sorted[1..], bound);
    }
  }

  lemma {:induction false} InsertByScoreSorted(o: Opportunity, sorted: seq<Opportunity>)
    requires SortedByScore(sorted)
    ensures SortedByScore(InsertByScore(o, sorted))
  {
    if sorted != [] && sorted[0].score > o.score {
      var rest := sorted[1..];
      InsertByScoreSorted(o, rest);
      InsertByScoreBounded(o, rest, sorted[0].score);
      var tail := InsertByScore(o, rest);
      var r := [sorted[0]] + tail;
      forall i, j | 0 <= i < j < |r|
        ensures r[i].score >= r[j].score
      {
        if i > 0 {
          assert r[i] == tail[i - 1] && r[j] == tail[j - 1];
        } else {
          assert r[j] == tail[j - 1];
        }
      }
    }
  }

  /** The sort orders by score, highest first, and is a permutation. */
  lemma {:induction false} SortByScoreSorted(s: seq<Opportunity>)
    ensures SortedByScore(SortByScore(s))
    ensures multiset(SortByScore(s)) == multiset(s)
    ensures |SortByScore(s)| == |s|
  {
    if s != [] {
      SortByScoreSorted(s[1..]);
      InsertByScoreSorted(s[0], SortByScore(s[1..]));
      InsertByScoreMembers(s[0], SortByScore(s[1..]));
      assert s == [s[0]] + s[1..];
    }
    assert |multiset(SortByScore(s))| == |multiset(s)|;
  }

  // ----- the sentiment enrichment of the top picks -----

  /** One pass of the enrichment loop on a result that has headlines: the
      sentiment `sentiment` gets the bucket again, the reasons its reason, and
      the idea is regenerated, its levels using the direction of the old idea. */
  function EnrichOne(o: Opportunity, sentiment: Sentiment): Result<Opportunity, RunError> {
    if AiRuleRaises(sentiment) then Err(NullSummary)
    else
      var s := o.signal.(sentiment := sentiment);
      var score := o.score + WeightOf(AiRule(sentiment));
      var reasons := o.reasons + Fired(AiRule(sentiment));
      match TradeIdeaOf(s, reasons, Some(o.idea.direction))
      case Err(_) => Err(MissingRsi)
      case Ok(idea) => Ok(Opportunity(s, score, reasons, idea))
  }

  /** The results after the loop has visited positions `0..k`, or the first
      exception. `ai(t, h)` is the sentiment the forced provider call returns for
      ticker `t` and headlines `h`. */
  function EnrichPrefix(results: seq<Opportunity>, k: nat, ai: (string, seq<string>) -> Sentiment): (r: Result<seq<Opportunity>, RunError>)
    requires k <= |results|
    ensures r.Ok? ==> |r.value| == |results| && r.value[k..] == results[k..]
  {
    if k == 0 then Ok(results)
    else
      match EnrichPrefix(results, k - 1, ai)
      case Err(e) => Err(e)
      case Ok(rs) =>
        var o := rs[k - 1];
        var headlines := Titles(o.signal.news);
        if headlines == [] then Ok(rs)
        else
          match EnrichOne(o, ai(o.signal.ticker, headlines))
          case Err(e) => Err(e)
          case Ok(o') => Ok(rs[k - 1 := o'])
  }

  /** Once the loop has raised, it stays raised. */
  lemma {:induction false} EnrichErrorPersists(results: seq<Opportunity>, k: nat, k': nat, ai: (string, seq<string>) -> Sentiment)
    requires k <= k' <= |results|
    requires EnrichPrefix(results, k, ai).Err?
    ensures EnrichPrefix(results, k', ai) == EnrichPrefix(results, k, ai)
    decreases k' - k
  {
    if k < k' {
      EnrichErrorPersists(results, k, k' - 1, ai);
    }
  }

  /** The loop's step from position `i`: the result there is still the input's,
      and the next state is the one `EnrichPrefix` gives for `i + 1`. */
  lemma EnrichPrefixNext(results: seq<Opportunity>, i: nat, ai: (string, seq<string>) -> Sentiment, current: seq<Opportunity>)
    requires i < |results| && EnrichPrefix(results, i, ai) == Ok(current)
    ensures current[i] == results[i]
    ensures var o := current[i];
            var headlines := Titles(o.signal.news);
            var next := EnrichPrefix(results, i + 1, ai);
            && (headlines == [] ==> next == Ok(current))
            && (headlines != [] ==>
                  var e := EnrichOne(o, ai(o.signal.ticker, headlines));
                  && (e.Err? ==> next == Err(e.error))
                  && (e.Ok? ==> next == Ok(current[i := e.value])))
  {
    assert current[i..] == results[i..];
  }

  /** The enrichment stage: only with an API key and `use_ai_sentiment`, over
      `results[:ai_top_n]`, updating each result in place, then sorting again. */
  method EnrichTopN(results: seq<Opportunity>, hasKey: bool, config: Config, ai: (string, seq<string>) -> Sentiment)
    returns (r: Result<seq<Opportunity>, RunError>)
    ensures !(hasKey && config.useAiSentiment) ==> r == Ok(results)
    ensures hasKey && config.useAiSentiment ==>
              var enriched := EnrichPrefix(results, PyStop(|results|, config.aiTopN), ai);
              (r.Err? <==> enriched.Err?) && (r.Err? ==> r.error == enriched.error) &&
              (r.Ok? ==> r.value == SortByScore(enriched.value))
  {
    if !(hasKey && config.useAiSentiment) {
      return Ok(results);
    }
    var n := PyStop(|results|, config.aiTopN);
    var current := results;
    for i := 0 to n
      invariant EnrichPrefix(results, i, ai) == Ok(current)
    {
      EnrichPrefixNext(results, i, ai, current);
      var o := current[i];
      var headlines := Titles(o.signal.news);
      if headlines != [] {
        var enriched := EnrichOne(o, ai(o.signal.ticker, headlines));
        if enriched.Err? {
          EnrichErrorPersists(results, i + 1, n, ai);
          return Err(enriched.error);
        }
        current := current[i := enriched.value];
      }
    }
    r := Ok(SortByScore(current));
  }

  /** Enrichment only raises scores, keeps every ticker in its position, and
      leaves the positions past the prefix as they were. */
  lemma {:induction false} EnrichNeverLowers(results: seq<Opportunity>, k: nat, ai: (string, seq<string>) -> Sentiment)
    requires k <= |results|
    ensures var r := EnrichPrefix(results, k, ai);
            r.Ok? ==> forall i :: 0 <= i < |results| ==>
                        r.value[i].score >= results[i].score
                        && r.value[i].signal.ticker == results[i].signal.ticker
                        && r.value[i].signal.price == results[i].signal.price
                        && (i >= k ==> r.value[i] == results[i])
  {
    if k > 0 {
      EnrichNeverLowers(results, k - 1, ai);
      var prev := EnrichPrefix(results, k - 1, ai);
      if prev.Ok? {
        var o := prev.value[k - 1];
        var headlines := Titles(o.signal.news);
        if headlines != [] {
          var sent := ai(o.signal.ticker, headlines);
          RuleBucket(o.signal.(sentiment := sent), AiFactor);
        }
      }
    }
  }

  /** With an RSI on the data, one pass raises only on a strong null summary and
      otherwise adds the sentiment rule's reason and weight. */
  lemma EnrichOneParts(o: Opportunity, sentiment: Sentiment)
    requires o.signal.rsi.Some?
    ensures EnrichOne(o, sentiment).Err? <==> AiRuleRaises(sentiment)
    ensures EnrichOne(o, sentiment).Ok? ==>
              && EnrichOne(o, sentiment).value.reasons == o.reasons + Fired(AiRule(sentiment))
              && EnrichOne(o, sentiment).value.score == o.score + WeightOf(AiRule(sentiment))
  {
  }

  /** Only the sentiment rule reads the sentiment. */
  lemma SixRulesIgnoreSentiment(signal: Signal, sentiment: Sentiment)
    ensures var s := signal.(sentiment := sentiment);
            && EarningsRule(s) == EarningsRule(signal) && VolumeRule(s) == VolumeRule(signal)
            && MomentumRule(s) == MomentumRule(signal) && RsiRule(s) == RsiRule(signal)
            && IvRule(s) == IvRule(signal) && AffordableRule(s) == AffordableRule(signal)
  {
  }

  /** Scoring data that carried the placeholder with a new sentiment gives the
      old reasons followed by the sentiment rule's reason. */
  lemma RescoreReasons(signal: Signal, sentiment: Sentiment)
    requires signal.sentiment == PENDING_SENTIMENT
    ensures ScoreReasons(signal.(sentiment := sentiment)) == ScoreReasons(signal) + Fired(AiRule(sentiment))
  {
    var s := signal.(sentiment := sentiment);
    ScoreReasonsUnfolded(signal);
    ScoreReasonsUnfolded(s);
    SixRulesIgnoreSentiment(signal, sentiment);
    assert Fired(AiRule(PENDING_SENTIMENT)) == [];
    var base := Fired(EarningsRule(signal)) + Fired(VolumeRule(signal)) + Fired(MomentumRule(signal))
                + Fired(RsiRule(signal)) + Fired(IvRule(signal)) + Fired(AffordableRule(signal));
    assert ScoreReasons(signal) == base + [];
  }

  /** The rescored reasons and score: the old ones plus the sentiment rule's. */
  lemma RescoreAddsSentiment(signal: Signal, sentiment: Sentiment)
    requires signal.sentiment == PENDING_SENTIMENT
    ensures var s := signal.(sentiment := sentiment);
            && ScoreReasons(s) == ScoreReasons(signal) + Fired(AiRule(sentiment))
            && TotalWeight(ScoreReasons(s)) == TotalWeight(ScoreReasons(signal)) + WeightOf(AiRule(sentiment))
  {
    RescoreReasons(signal, sentiment);
    TotalWeightAppend(ScoreReasons(signal), Fired(AiRule(sentiment)));
    TotalWeightFired(AiRule(sentiment));
  }

  /** Enriching a fresh result is the same as scoring its data, with the new
      sentiment, from scratch: the first pass never fired the sentiment bucket,
      and enrichment adds it once. */
  lemma EnrichedIsRescored(o: Opportunity, sentiment: Sentiment)
    requires FreshOpportunity(o)
    ensures EnrichOne(o, sentiment).Ok? ==>
              var s := o.signal.(sentiment := sentiment);
              EnrichOne(o, sentiment).value.reasons == ScoreReasons(s)
              && EnrichOne(o, sentiment).value.score == TotalWeight(ScoreReasons(s))
    ensures EnrichOne(o, sentiment).Err? <==> AiRuleRaises(sentiment)
  {
    EnrichOneParts(o, sentiment);
    RescoreAddsSentiment(o.signal, sentiment);
  }

  // ----- categories -----

  /** `days_to_earnings and 0 <= days_to_earnings <= 7`: day 0 is falsy, so 1 to 7. */
  predicate IsEarningsPlay(o: Opportunity) {
    var days := DaysToEarnings(o.signal);
    days.Some? && days.value != 0 && 0 <= days.value <= 7
  }

  function EarningsPlays(results: seq<Opportunity>): seq<Opportunity> {
    Filter(results, IsEarningsPlay)
  }

  function MomentumPlays(results: seq<Opportunity>): seq<Opportunity> {
    var earnings := EarningsPlays(results);
    Filter(results, (o: Opportunity) => Abs(o.signal.momentum5d) >= 5.0 && o !in earnings)
  }

  function OversoldPlays(results: seq<Opportunity>): seq<Opportunity> {
    var earnings := EarningsPlays(results);
    Filter(results, (o: Opportunity) => RsiTruthy(o.signal.rsi) && o.signal.rsi.value <= 35.0 && o !in earnings)
  }

  /** The earnings plays are the results 1 to 7 days from earnings; the momentum
      plays (a 5-day move of 5% or more) and the oversold plays (RSI at most 35)
      are results that are not earnings plays. */
  lemma CategoryMembers(results: seq<Opportunity>)
    ensures forall o :: o in EarningsPlays(results) <==>
              o in results && DaysToEarnings(o.signal).Some? && 1 <= DaysToEarnings(o.signal).value <= 7
    ensures forall o :: o in MomentumPlays(results) <==>
              o in results && Abs(o.signal.momentum5d) >= 5.0 && !IsEarningsPlay(o)
    ensures forall o :: o in OversoldPlays(results) <==>
              o in results && RsiTruthy(o.signal.rsi) && o.signal.rsi.value <= 35.0 && !IsEarningsPlay(o)
    ensures forall o :: o in MomentumPlays(results) || o in OversoldPlays(results) ==> o !in EarningsPlays(results)
  {
  }

  lemma {:induction false} FilterKeepsSorted(s: seq<Opportunity>, p: Opportunity -> bool)
    requires SortedByScore(s)
    ensures SortedByScore(Filter(s, p))
  {
    if s != [] {
      FilterKeepsSorted(s[1..], p);
      var rest := Filter(s[1..], p);
      if p(s[0]) {
        var r := [s[0]] + rest;
        forall i, j | 0 <= i < j < |r|
          ensures r[i].score >= r[j].score
        {
          if i == 0 {
            assert r[j] in rest;
            assert r[j] in s[1..];
          } else {
            assert r[i] == rest[i - 1] && r[j] == rest[j - 1];
          }
        }
      }
    }
  }

  /** The categories of sorted results are sorted too. */
  lemma CategoriesSorted(results: seq<Opportunity>)
    requires SortedByScore(results)
    ensures SortedByScore(EarningsPlays(results))
    ensures SortedByScore(MomentumPlays(results))
    ensures SortedByScore(OversoldPlays(results))
  {
    var earnings := EarningsPlays(results);
    FilterKeepsSorted(results, IsEarningsPlay);
    FilterKeepsSorted(results, (o: Opportunity) => Abs(o.signal.momentum5d) >= 5.0 && o !in earnings);
    FilterKeepsSorted(results, (o: Opportunity) => RsiTruthy(o.signal.rsi) && o.signal.rsi.value <= 35.0 && o !in earnings);
  }

  // ----- the earnings calendar -----

  /** A row handed to `build_earnings_calendar`: a result with a day count, or a
      universe ticker that did not pass, padded with no earnings date. */
  datatype CalendarRow = Scanned(o: Opportunity) | Unscanned(ticker: string)

  datatype CalendarEntry = CalendarEntry(ticker: string, price: real, score: real)

  /** One day of the calendar (the weekday label is not modelled). */
  datatype CalendarDay = CalendarDay(date: string, isToday: bool, earnings: seq<CalendarEntry>)

  function EarningsDate(row: CalendarRow): Option<string> {
    if row.Scanned? && row.o.signal.earnings.Some? then Some(row.o.signal.earnings.value.date) else None
  }

  function Tickers(results: seq<Opportunity>): (r: seq<string>)
    ensures |r| == |results| && forall i :: 0 <= i < |results| ==> r[i] == results[i].signal.ticker
  {
    if results == [] then [] else [results[0].signal.ticker] + Tickers(results[1..])
  }

  /** `all_with_earnings` followed by the padding rows. */
  function CalendarRows(results: seq<Opportunity>, universe: seq<string>): seq<CalendarRow> {
    var tickers := Tickers(results);
    Scanned(results, (o: Opportunity) => DaysToEarnings(o.signal).Some?)
      + UnscannedRows(Filter(universe, (t: string) => t !in tickers))
  }

  function Scanned(results: seq<Opportunity>, p: Opportunity -> bool): (r: seq<CalendarRow>)
    ensures forall row :: row in r ==> row.Scanned? && row.o in results && p(row.o)
  {
    if results == [] then []
    else (if p(results[0]) then [CalendarRow.Scanned(results[0])] else []) + Scanned(results[1..], p)
  }

  function UnscannedRows(tickers: seq<string>): (r: seq<CalendarRow>)
    ensures forall row :: row in r ==> row.Unscanned?
  {
    if tickers == [] then [] else [Unscanned(tickers[0])] + UnscannedRows(tickers[1..])
  }

  /** What one row lists on a day. */
  function EntryOn(row: CalendarRow, day: string): seq<CalendarEntry> {
    if EarningsDate(row) == Some(day) then [CalendarEntry(row.o.signal.ticker, row.o.signal.price, row.o.score)] else []
  }

  /** The entries of one day: the rows whose earnings date is that day, in order. */
  function EntriesOn(rows: seq<CalendarRow>, day: string): seq<CalendarEntry> {
    if rows == [] then [] else EntryOn(rows[0], day) + EntriesOn(rows[1..], day)
  }

  /** `build_earnings_calendar`: seven days from today; `dayString(i)` is the
      date `i` days from today. */
  method BuildEarningsCalendar(rows: seq<CalendarRow>, dayString: nat -> string) returns (calendar: seq<CalendarDay>)
    ensures |calendar| == 7
    ensures forall i :: 0 <= i < 7 ==>
              calendar[i] == CalendarDay(dayString(i), i == 0, EntriesOn(rows, dayString(i)))
  {
    calendar := [];
    for i := 0 to 7
      invariant |calendar| == i
      invariant forall j :: 0 <= j < i ==>
                  calendar[j] == CalendarDay(dayString(j), j == 0, EntriesOn(rows, dayString(j)))
    {
      calendar := calendar + [CalendarDay(dayString(i), i == 0, EntriesOn(rows, dayString(i)))];
    }
  }

  lemma {:induction false} EntriesOnAppend(a: seq<CalendarRow>, b: seq<CalendarRow>, day: string)
    ensures EntriesOn(a + b, day) == EntriesOn(a, day) + EntriesOn(b, day)
  {
    if a == [] {
      assert a + b == b;
    } else {
      assert (a + b)[1..] == a[1..] + b;
      EntriesOnAppend(a[1..], b, day);
      var x, y, z := EntryOn(a[0], day), EntriesOn(a[1..], day), EntriesOn(b, day);
      assert x + (y + z) == (x + y) + z;
    }
  }

  lemma {:induction false} EntriesOnUnscanned(rows: seq<CalendarRow>, day: string)
    requires forall row :: row in rows ==> row.Unscanned?
    ensures EntriesOn(rows, day) == []
  {
    if rows != [] {
      assert rows[0] in rows;
      EntriesOnUnscanned(rows[1..], day);
    }
  }

  /** The padding rows never show up: a day lists just the results with a day
      count whose earnings date is that day. */
  lemma CalendarIgnoresPadding(results: seq<Opportunity>, universe: seq<string>, day: string)
    ensures EntriesOn(CalendarRows(results, universe), day) ==
              EntriesOn(Scanned(results, (o: Opportunity) => DaysToEarnings(o.signal).Some?), day)
  {
    var tickers := Tickers(results);
    var scanned := Scanned(results, (o: Opportunity) => DaysToEarnings(o.signal).Some?);
    var padding := UnscannedRows(Filter(universe, (t: string) => t !in tickers));
    EntriesOnAppend(scanned, padding, day);
    EntriesOnUnscanned(padding, day);
    assert EntriesOn(scanned, day) + [] == EntriesOn(scanned, day);
  }

  // ----- the report -----

  datatype ScanSummary = ScanSummary(
    totalScanned: nat,
    passedFilters: nat,
    opportunitiesFound: nat,
    earningsUpcoming: nat,
    oversoldCount: nat)

  /** The report written to `research.json` (descriptions and config echo left out). */
  datatype Report = Report(
    generatedAt: string,
    summary: ScanSummary,
    topPicks: seq<Opportunity>,
    earningsPlays: seq<Opportunity>,
    momentumPlays: seq<Opportunity>,
    oversoldPlays: seq<Opportunity>,
    calendar: seq<CalendarDay>,
    allResults: seq<Opportunity>)

  /** The report: counts over all results (opportunities score 4 or more), the
      first 10 results as top picks, the first 5 of each category. */
  function BuildReport(generatedAt: string, universe: seq<string>, results: seq<Opportunity>, calendar: seq<CalendarDay>): (r: Report)
    ensures r.topPicks <= results && |r.topPicks| == Min(10, |results|)
    ensures r.earningsPlays <= EarningsPlays(results) && |r.earningsPlays| == Min(5, |EarningsPlays(results)|)
    ensures r.momentumPlays <= MomentumPlays(results) && |r.momentumPlays| == Min(5, |MomentumPlays(results)|)
    ensures r.oversoldPlays <= OversoldPlays(results) && |r.oversoldPlays| == Min(5, |OversoldPlays(results)|)
    ensures r.summary.totalScanned == |universe| && r.summary.passedFilters == |results|
    ensures r.summary.earningsUpcoming == |EarningsPlays(results)| && r.summary.oversoldCount == |OversoldPlays(results)|
    ensures r.summary.opportunitiesFound == |Filter(results, (x: Opportunity) => x.score >= 4.0)|
    ensures r.summary.opportunitiesFound <= r.summary.passedFilters
    ensures r.allResults == results && r.calendar == calendar && r.generatedAt == generatedAt
  {
    var earnings, momentum, oversold := EarningsPlays(results), MomentumPlays(results), OversoldPlays(results);
    var opportunities := Filter(results, (x: Opportunity) => x.score >= 4.0);
    Report(
      generatedAt,
      ScanSummary(|universe|, |results|, |opportunities|, |earnings|, |oversold|),
      PyPrefix(results, 10),
      PyPrefix(earnings, 5), PyPrefix(momentum, 5), PyPrefix(oversold, 5),
      calendar,
      results)
  }

  /** With an RSI on every result, the enrichment loop can only fail on a null summary. */
  lemma {:induction false} NoMissingRsi(results: seq<Opportunity>, k: nat, ai: (string, seq<string>) -> Sentiment)
    requires k <= |results|
    requires forall o :: o in results ==> o.signal.rsi.Some?
    ensures EnrichPrefix(results, k, ai).Err? ==> EnrichPrefix(results, k, ai).error == NullSummary
  {
    if k > 0 {
      NoMissingRsi(results, k - 1, ai);
      var prev := EnrichPrefix(results, k - 1, ai);
      if prev.Ok? {
        assert prev.value[k - 1] == results[k - 1] by {
          assert prev.value[k - 1..] == results[k - 1..];
        }
        assert results[k - 1] in results;
      }
    }
  }

  lemma ScannedHaveRsi(universe: seq<string>, fetch: string -> Option<Signal>, config: Config)
    ensures forall o :: o in SortByScore(Passed(universe, fetch, config)) ==> o.signal.rsi.Some?
  {
    var passed := Passed(universe, fetch, config);
    PassedHaveRsi(universe, fetch, config);
    SortByScoreSorted(passed);
    forall o | o in SortByScore(passed)
      ensures o.signal.rsi.Some?
    {
      assert o in multiset(SortByScore(passed));
      assert o in passed;
    }
  }

  /** `run_research` from the universe on: the first pass, the enrichment, the
      categories, the calendar and the report. */
  method RunResearch(universe: seq<string>, fetch: string -> Option<Signal>, config: Config, hasKey: bool,
                     ai: (string, seq<string>) -> Sentiment, dayString: nat -> string, generatedAt: string)
    returns (r: Result<Report, RunError>)
    ensures r.Ok? ==> SortedByScore(r.value.allResults) && |r.value.allResults| == |Passed(universe, fetch, config)|
    ensures r.Ok? ==> r.value.summary.totalScanned == |universe| && |r.value.calendar| == 7
    ensures r.Ok? && !(hasKey && config.useAiSentiment) ==> r.value.allResults == SortByScore(Passed(universe, fetch, config))
    ensures r.Ok? && hasKey && config.useAiSentiment ==>
              var sorted := SortByScore(Passed(universe, fetch, config));
              var enriched := EnrichPrefix(sorted, PyStop(|sorted|, config.aiTopN), ai);
              enriched.Ok? && r.value.allResults == SortByScore(enriched.value)
    ensures r.Ok? ==> r.value == BuildReport(generatedAt, universe, r.value.allResults, r.value.calendar)
    ensures r.Ok? ==> forall i :: 0 <= i < 7 ==>
              r.value.calendar[i] == CalendarDay(dayString(i), i == 0, EntriesOn(CalendarRows(r.value.allResults, universe), dayString(i)))
    ensures r.Err? <==>
              (var sorted := SortByScore(Passed(universe, fetch, config));
               hasKey && config.useAiSentiment && EnrichPrefix(sorted, PyStop(|sorted|, config.aiTopN), ai).Err?)
    ensures r.Err? ==> r.error == NullSummary
  {
    var scanned := Scan(universe, fetch, config);
    SortByScoreSorted(Passed(universe, fetch, config));
    var enriched := EnrichTopN(scanned, hasKey, config, ai);
    if enriched.Err? {
      ScannedHaveRsi(universe, fetch, config);
      NoMissingRsi(scanned, PyStop(|scanned|, config.aiTopN), ai);
      return Err(enriched.error);
    }
    var results := enriched.value;
    if hasKey && config.useAiSentiment {
      SortByScoreSorted(EnrichPrefix(scanned, PyStop(|scanned|, config.aiTopN), ai).value);
    }
    var calendar := BuildEarningsCalendar(CalendarRows(results, universe), dayString);
    r := Ok(BuildReport(generatedAt, universe, results, calendar));
  }
}
