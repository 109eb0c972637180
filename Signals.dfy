/** The per-ticker data the scanner derives before scoring: the dictionary that
    `get_stock_data` builds, with the fields the decision logic reads. */
module Signals {
  import opened Common

  /** A lean: the trend classification of the price series, and also the bias of a trade idea. */
  datatype Lean = Bullish | Bearish | Neutral

  /** The `summary` key of a sentiment dictionary: missing, JSON null, or a string. */
  datatype Summary = Absent | Null | Text(text: string)

  datatype Confidence = Low | Pending | Skipped | Reported(name: string)

  /** The `ai_sentiment` dictionary. Its score is whatever number the provider returned. */
  datatype Sentiment = Sentiment(score: real, summary: Summary, confidence: Confidence)

  /** Placeholder set by `get_stock_data` before any provider call. */
  const PENDING_SENTIMENT := Sentiment(0.0, Null, Pending)
  /** Returned when there is no API key or no headline, and after any provider failure. */
  const LOW_SENTIMENT := Sentiment(0.0, Null, Low)
  /** Returned when the provider call is not forced. */
  const SKIPPED_SENTIMENT := Sentiment(0.0, Null, Skipped)

  /** A suggested contract (`call_suggestion` / `put_suggestion`). */
  datatype Suggestion = Suggestion(strike: real, premium: real, ivPct: real, volume: int, openInterest: int, breakEven: real)

  /** The dictionary `get_options_data` returns. */
  datatype OptionsSnapshot = OptionsSnapshot(
    expiration: string,
    dte: int,
    ivAvg: real,
    expectedMovePct: real,
    callSuggestion: Option<Suggestion>,
    putSuggestion: Option<Suggestion>)

  /** The earnings lookup: the date text, and the day count when it could be computed. */
  datatype Earnings = Earnings(date: string, daysOut: Option<int>)

  datatype Headline = Headline(title: string, publisher: string, link: string)

  datatype Signal = Signal(
    ticker: string,
    price: real,
    volSurge: real,
    momentum5d: real,
    rsi: Option<real>,
    trend: Lean,
    earnings: Option<Earnings>,
    options: Option<OptionsSnapshot>,
    news: seq<Headline>,
    sentiment: Sentiment)

  /** The run configuration (`DEFAULT_CONFIG` merged with the user's file). */
  datatype Config = Config(
    maxStockPrice: real,
    maxOptionPremium: real,
    minScore: real,
    maxTickers: int,
    useAiSentiment: bool,
    aiTopN: int,
    forceAiAll: bool)

  /** `DEFAULT_CONFIG`, with the defaults the code supplies for `ai_top_n` and `force_ai_all`. */
  const DEFAULT_CONFIG := Config(50.0, 2.0, 2.0, 100, true, 5, false)

  /** `data.get('days_to_earnings')`. */
  function DaysToEarnings(s: Signal): Option<int> {
    if s.earnings.Some? then s.earnings.value.daysOut else None
  }

  /** Python truthiness of the `rsi` field: None and 0.0 are both false. */
  predicate RsiTruthy(rsi: Option<real>) {
    rsi.Some? && rsi.value != 0.0
  }

  /** The headlines the enrichment stage sends: the titles that are not empty, in order. */
  function Titles(news: seq<Headline>): (r: seq<string>)
    ensures |r| <= |news|
    ensures forall t :: t in r ==> t != []
    ensures r == [] <==> forall i :: 0 <= i < |news| ==> news[i].title == []
    ensures forall t :: t in r <==> t != [] && exists i :: 0 <= i < |news| && news[i].title == t
  {
    if news == [] then []
    else (if news[0].title != [] then [news[0].title] else []) + Titles(news[1..])
  }
}
