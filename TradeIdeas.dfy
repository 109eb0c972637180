/** `generate_trade_idea` and `calculate_entry_exit`: a direction from four
    votes, an expiry text, and stock entry, target and stop levels. */
module TradeIdeas {
  import opened Common
  import opened Signals
  import opened Scoring

  datatype Direction = Call | Put | Straddle

  /** The expiry suggestion: through the earnings date, at the chosen listed
      expiration, or the fixed "1-2 weeks out". */
  datatype Expiry = ThroughEarnings(date: string) | AtExpiration(expiration: string, dte: int) | WeeksOut

  /** The stock levels of an idea (rounding to cents is not modelled). */
  datatype EntryExit = EntryExit(direction: Direction, entry: real, target: real, stop: real)

  /** `calculate_entry_exit` compares a missing RSI with 50, which raises a TypeError. */
  datatype IdeaError = RsiMissing

  datatype TradeIdea = TradeIdea(
    direction: Direction,
    bias: Lean,
    expiry: Expiry,
    reasons: seq<Reason>,
    entryExit: EntryExit,
    suggestedOption: Option<Suggestion>)

  // ----- the four votes -----

  function MomentumVote(s: Signal): Lean {
    if s.momentum5d > 3.0 then Bullish else if s.momentum5d < -3.0 then Bearish else Neutral
  }

  function TrendVote(s: Signal): Lean { s.trend }

  function SentimentVote(s: Signal): Lean {
    if s.sentiment.score > 0.0 then Bullish else if s.sentiment.score < 0.0 then Bearish else Neutral
  }

  /** A missing or zero RSI abstains. */
  function RsiVote(s: Signal): Lean {
    if RsiTruthy(s.rsi) && s.rsi.value < 35.0 then Bullish
    else if RsiTruthy(s.rsi) && s.rsi.value > 65.0 then Bearish
    else Neutral
  }

  function Votes(s: Signal): seq<Lean> {
    [MomentumVote(s), TrendVote(s), SentimentVote(s), RsiVote(s)]
  }

  function Count(votes: seq<Lean>, l: Lean): (n: nat)
    ensures n <= |votes|
  {
    if votes == [] then 0 else (if votes[0] == l then 1 else 0) + Count(votes[1..], l)
  }

  function BullishVotes(s: Signal): nat { Count(Votes(s), Bullish) }

  function BearishVotes(s: Signal): nat { Count(Votes(s), Bearish) }

  /** The direction the vote counts give. */
  function DirectionOf(bullish: nat, bearish: nat): (d: Direction)
    ensures d == Call <==> bullish > bearish
    ensures d == Put <==> bearish > bullish
    ensures d == Straddle <==> bullish == bearish
  {
    if bullish > bearish then Call else if bearish > bullish then Put else Straddle
  }

  /** The bias reported with a direction. */
  function BiasOf(d: Direction): (l: Lean)
    ensures (l == Bullish <==> d == Call) && (l == Bearish <==> d == Put) && (l == Neutral <==> d == Straddle)
  {
    match d
    case Call => Bullish
    case Put => Bearish
    case Straddle => Neutral
  }

  // ----- expiry, suggested contract, entry and exit -----

  /** Through earnings when they are 1 to 7 days out (day 0 is falsy), else the
      listed expiration when there is one, else "1-2 weeks out". */
  function ExpiryOf(s: Signal): (e: Expiry)
    ensures e.ThroughEarnings? <==> DaysToEarnings(s).Some? && 1 <= DaysToEarnings(s).value <= 7
    ensures e.ThroughEarnings? ==> e.date == s.earnings.value.date
    ensures e.AtExpiration? <==>
              !e.ThroughEarnings? && s.options.Some? && s.options.value.expiration != []
    ensures e.AtExpiration? ==> e.expiration == s.options.value.expiration && e.dte == s.options.value.dte
  {
    var days := DaysToEarnings(s);
    if days.Some? && 1 <= days.value <= 7 then ThroughEarnings(s.earnings.value.date)
    else if s.options.Some? && s.options.value.expiration != [] then
      AtExpiration(s.options.value.expiration, s.options.value.dte)
    else WeeksOut
  }

  /** The call suggestion for a CALL, the put suggestion for a PUT and also for a STRADDLE. */
  function SuggestedOption(s: Signal, d: Direction): (r: Option<Suggestion>)
    ensures s.options.None? ==> r.None?
    ensures s.options.Some? && d == Call ==> r == s.options.value.callSuggestion
    ensures s.options.Some? && d != Call ==> r == s.options.value.putSuggestion
  {
    if s.options.None? then None
    else if d == Call then s.options.value.callSuggestion
    else s.options.value.putSuggestion
  }

  /** The expected move in percent: the options snapshot's, else 5. */
  function ExpectedMove(s: Signal): real {
    if s.options.Some? then s.options.value.expectedMovePct else 5.0
  }

  /** `calculate_entry_exit`. The direction is the one of the idea the signal
      already carries (`prior`), CALL when it carries none. */
  function CalculateEntryExit(s: Signal, prior: Option<Direction>): (r: Result<EntryExit, IdeaError>)
    ensures r.Err? <==> prior.GetOr(Call) != Straddle && s.rsi.None?
    ensures r.Ok? ==> r.value.direction == prior.GetOr(Call)
  {
    var price, e := s.price, ExpectedMove(s);
    match prior.GetOr(Call)
    case Call =>
      if s.rsi.None? then Err(RsiMissing)
      else
        var entryPct := if s.rsi.value > 50.0 then -1.5 else -0.5;
        Ok(EntryExit(Call, price * (1.0 + entryPct / 100.0), price * (1.0 + e * 0.7 / 100.0),
                     price * (1.0 + (-e * 0.5) / 100.0)))
    case Put =>
      if s.rsi.None? then Err(RsiMissing)
      else
        var entryPct := if s.rsi.value < 50.0 then 1.5 else 0.5;
        Ok(EntryExit(Put, price * (1.0 + entryPct / 100.0), price * (1.0 + (-e * 0.7) / 100.0),
                     price * (1.0 + e * 0.5 / 100.0)))
    case Straddle =>
      Ok(EntryExit(Straddle, price, price * (1.0 + e / 100.0), price * (1.0 - e / 200.0)))
  }

  /** The idea `generate_trade_idea` returns, or the error it raises. */
  function TradeIdeaOf(s: Signal, reasons: seq<Reason>, prior: Option<Direction>): (r: Result<TradeIdea, IdeaError>)
    ensures r.Err? <==> CalculateEntryExit(s, prior).Err?
    ensures r.Ok? ==>
              && (r.value.direction == Call <==> BullishVotes(s) > BearishVotes(s))
              && (r.value.direction == Put <==> BearishVotes(s) > BullishVotes(s))
              && (r.value.bias == Bullish <==> BullishVotes(s) > BearishVotes(s))
              && (r.value.bias == Bearish <==> BearishVotes(s) > BullishVotes(s))
              && (r.value.bias == Neutral <==> BullishVotes(s) == BearishVotes(s))
              && r.value.bias == BiasOf(r.value.direction)
              && r.value.expiry == ExpiryOf(s)
              && r.value.entryExit == CalculateEntryExit(s, prior).value
              && r.value.entryExit.direction == prior.GetOr(Call)
              && r.value.suggestedOption == SuggestedOption(s, r.value.direction)
              && r.value.reasons == reasons
  {
    var direction := DirectionOf(BullishVotes(s), BearishVotes(s));
    match CalculateEntryExit(s, prior)
    case Err(e) => Err(e)
    case Ok(levels) => Ok(TradeIdea(direction, BiasOf(direction), ExpiryOf(s), reasons, levels, SuggestedOption(s, direction)))
  }

  /** `generate_trade_idea`: two vote counters, then the direction, the expiry,
      the levels and the suggested contract. */
  method GenerateTradeIdea(s: Signal, reasons: seq<Reason>, prior: Option<Direction>)
    returns (r: Result<TradeIdea, IdeaError>)
    ensures r == TradeIdeaOf(s, reasons, prior)
  {
    var bullish, bearish := 0, 0;
    if s.momentum5d > 3.0 { bullish := bullish + 1; }
    else if s.momentum5d < -3.0 { bearish := bearish + 1; }
    if s.trend == Bullish { bullish := bullish + 1; }
    else if s.trend == Bearish { bearish := bearish + 1; }
    if s.sentiment.score > 0.0 { bullish := bullish + 1; }
    else if s.sentiment.score < 0.0 { bearish := bearish + 1; }
    if RsiTruthy(s.rsi) && s.rsi.value < 35.0 { bullish := bullish + 1; }
    else if RsiTruthy(s.rsi) && s.rsi.value > 65.0 { bearish := bearish + 1; }
    VoteCounts(s);
    assert bullish == BullishVotes(s) && bearish == BearishVotes(s);

    var direction: Direction;
    var bias: Lean;
    if bullish > bearish {
      direction, bias := Call, Bullish;
    } else if bearish > bullish {
      direction, bias := Put, Bearish;
    } else {
      direction, bias := Straddle, Neutral;
    }

    var expiry := ExpiryOf(s);
    var entryExit := CalculateEntryExit(s, prior);
    if entryExit.Err? {
      return Err(entryExit.error);
    }
    r := Ok(TradeIdea(direction, bias, expiry, reasons, entryExit.value, SuggestedOption(s, direction)));
  }

  /** Counting over four votes. */
  lemma CountFour(a: Lean, b: Lean, c: Lean, d: Lean, l: Lean)
    ensures Count([a, b, c, d], l) ==
              (if a == l then 1 else 0) + (if b == l then 1 else 0) + (if c == l then 1 else 0) + (if d == l then 1 else 0)
  {
    assert [a, b, c, d][1..] == [b, c, d];
    assert [b, c, d][1..] == [c, d];
    assert [c, d][1..] == [d];
    assert [d][1..] == [];
    assert Count([d], l) == (if d == l then 1 else 0) + Count([], l);
    assert Count([c, d], l) == (if c == l then 1 else 0) + Count([d], l);
    assert Count([b, c, d], l) == (if b == l then 1 else 0) + Count([c, d], l);
    assert Count([a, b, c, d], l) == (if a == l then 1 else 0) + Count([b, c, d], l);
  }

  /** The vote counts, one vote at a time. */
  lemma VoteCounts(s: Signal)
    ensures BullishVotes(s) ==
              (if MomentumVote(s) == Bullish then 1 else 0) + (if TrendVote(s) == Bullish then 1 else 0)
              + (if SentimentVote(s) == Bullish then 1 else 0) + (if RsiVote(s) == Bullish then 1 else 0)
    ensures BearishVotes(s) ==
              (if MomentumVote(s) == Bearish then 1 else 0) + (if TrendVote(s) == Bearish then 1 else 0)
              + (if SentimentVote(s) == Bearish then 1 else 0) + (if RsiVote(s) == Bearish then 1 else 0)
  {
    CountFour(MomentumVote(s), TrendVote(s), SentimentVote(s), RsiVote(s), Bullish);
    CountFour(MomentumVote(s), TrendVote(s), SentimentVote(s), RsiVote(s), Bearish);
  }

  // ----- properties of the direction -----

  /** Each of the four signals casts at most one vote. */
  lemma {:induction false} CountsShareVotes(votes: seq<Lean>)
    ensures Count(votes, Bullish) + Count(votes, Bearish) <= |votes|
  {
    if votes != [] {
      CountsShareVotes(votes[1..]);
    }
  }

  lemma VotesBounded(s: Signal)
    ensures BullishVotes(s) + BearishVotes(s) <= 4
  {
    CountsShareVotes(Votes(s));
  }

  function FlipLean(l: Lean): Lean {
    match l
    case Bullish => Bearish
    case Bearish => Bullish
    case Neutral => Neutral
  }

  function FlipDirection(d: Direction): Direction {
    match d
    case Call => Put
    case Put => Call
    case Straddle => Straddle
  }

  /** The mirror image of a signal: momentum, trend and sentiment negated, RSI reflected about 50. */
  function Mirror(s: Signal): Signal {
    s.(momentum5d := -s.momentum5d,
       trend := FlipLean(s.trend),
       sentiment := s.sentiment.(score := -s.sentiment.score),
       rsi := if s.rsi.Some? then Some(100.0 - s.rsi.value) else None)
  }

  function FlipAll(votes: seq<Lean>): (r: seq<Lean>)
    ensures |r| == |votes|
    ensures forall i :: 0 <= i < |votes| ==> r[i] == FlipLean(votes[i])
  {
    if votes == [] then [] else [FlipLean(votes[0])] + FlipAll(votes[1..])
  }

  lemma {:induction false} CountFlipped(votes: seq<Lean>)
    ensures Count(FlipAll(votes), Bullish) == Count(votes, Bearish)
    ensures Count(FlipAll(votes), Bearish) == Count(votes, Bullish)
  {
    if votes != [] {
      CountFlipped(votes[1..]);
      assert FlipAll(votes)[1..] == FlipAll(votes[1..]);
    }
  }

  /** Mirroring a signal swaps CALL and PUT and keeps STRADDLE. An RSI of exactly
      0 or 100 is excluded: 0 is falsy and abstains, while its mirror votes. */
  lemma MirrorFlipsDirection(s: Signal)
    requires s.rsi != Some(0.0) && s.rsi != Some(100.0)
    ensures DirectionOf(BullishVotes(Mirror(s)), BearishVotes(Mirror(s))) ==
              FlipDirection(DirectionOf(BullishVotes(s), BearishVotes(s)))
  {
    var m := Mirror(s);
    assert MomentumVote(m) == FlipLean(MomentumVote(s));
    assert TrendVote(m) == FlipLean(TrendVote(s));
    assert SentimentVote(m) == FlipLean(SentimentVote(s));
    assert RsiVote(m) == FlipLean(RsiVote(s));
    assert Votes(m) == FlipAll(Votes(s));
    CountFlipped(Votes(s));
  }

  // ----- properties of the levels -----

  /** With a non-negative expected move and price: a CALL has its stop below and
      its target above the price and buys below it; a PUT mirrors that; a
      STRADDLE enters at the price. */
  lemma EntryExitLevels(s: Signal, prior: Option<Direction>)
    requires ExpectedMove(s) >= 0.0 && s.price >= 0.0
    ensures var r := CalculateEntryExit(s, prior);
            r.Ok? ==>
              match r.value.direction
              case Call => r.value.stop <= s.price <= r.value.target && (s.price > 0.0 ==> r.value.entry < s.price)
              case Put => r.value.target <= s.price <= r.value.stop && (s.price > 0.0 ==> r.value.entry > s.price)
              case Straddle => r.value.entry == s.price && r.value.stop <= s.price <= r.value.target
  {
  }

  /** The target is 1.4 times as far from the price as the stop for a CALL or a
      PUT (70% against 50% of the expected move), twice as far for a STRADDLE. */
  lemma RewardToRisk(s: Signal, prior: Option<Direction>)
    ensures var r := CalculateEntryExit(s, prior);
            r.Ok? ==>
              match r.value.direction
              case Call => r.value.target - s.price == 1.4 * (s.price - r.value.stop)
              case Put => s.price - r.value.target == 1.4 * (r.value.stop - s.price)
              case Straddle => r.value.target - s.price == 2.0 * (s.price - r.value.stop)
  {
  }

  /** The example of a $20 stock with RSI 28, up 12% in an uptrend and with no
      sentiment yet is a CALL; with no options it targets 20 * 1.035 = 20.7 and
      stops at 20 * 0.975 = 19.5, entering at 20 * 0.995 = 19.9. */
  lemma OversoldBreakoutIdea()
    ensures var s := Signal("ABC", 20.0, 2.5, 12.0, Some(28.0), Bullish, None, None, [], PENDING_SENTIMENT);
            && DirectionOf(BullishVotes(s), BearishVotes(s)) == Call
            && CalculateEntryExit(s, None) == Ok(EntryExit(Call, 19.9, 20.7, 19.5))
  {
    var s := Signal("ABC", 20.0, 2.5, 12.0, Some(28.0), Bullish, None, None, [], PENDING_SENTIMENT);
    VoteCounts(s);
  }
}
