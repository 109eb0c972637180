/** `score_opportunity`: fixed, mutually exclusive bonus buckets per factor. */
module Scoring {
  import opened Common
  import opened Signals

  /** One reason per bucket that fired (the emoji text of the source is not modelled). */
  datatype Reason =
    | EarningsSoon(days: int)      // earnings in 1..3 days: +3
    | EarningsThisWeek(days: int)  // earnings in 4..7 days: +2
    | EarningsToday                // earnings today: +1
    | HeavyVolume                  // volume surge >= 2x: +2
    | ElevatedVolume               // volume surge >= 1.5x: +1
    | BigMove(up: bool)            // |5-day momentum| >= 10%: +2
    | Move(up: bool)               // |5-day momentum| >= 5%: +1
    | Overbought                   // RSI >= 70: +1
    | Oversold                     // RSI <= 30: +1.5
    | HighIv                       // average IV >= 80%: +1
    | LowIv                        // 0 < average IV <= 30%: +1.5
    | AffordableOptions            // a call or put suggestion exists: +0.5
    | AiStrong(bullish: bool)      // |AI score| >= 3: +1.5
    | AiModerate(bullish: bool)    // |AI score| >= 2: +1

  /** The factors in rule-evaluation order. */
  datatype Factor = EarningsFactor | VolumeFactor | MomentumFactor | RsiFactor | IvFactor | AffordableFactor | AiFactor

  function Rank(f: Factor): nat {
    match f
    case EarningsFactor => 0
    case VolumeFactor => 1
    case MomentumFactor => 2
    case RsiFactor => 3
    case IvFactor => 4
    case AffordableFactor => 5
    case AiFactor => 6
  }

  function FactorOf(r: Reason): Factor {
    match r
    case EarningsSoon(_) => EarningsFactor
    case EarningsThisWeek(_) => EarningsFactor
    case EarningsToday => EarningsFactor
    case HeavyVolume => VolumeFactor
    case ElevatedVolume => VolumeFactor
    case BigMove(_) => MomentumFactor
    case Move(_) => MomentumFactor
    case Overbought => RsiFactor
    case Oversold => RsiFactor
    case HighIv => IvFactor
    case LowIv => IvFactor
    case AffordableOptions => AffordableFactor
    case AiStrong(_) => AiFactor
    case AiModerate(_) => AiFactor
  }

  /** The score a reason adds. */
  function Weight(r: Reason): real {
    match r
    case EarningsSoon(_) => 3.0
    case EarningsThisWeek(_) => 2.0
    case EarningsToday => 1.0
    case HeavyVolume => 2.0
    case ElevatedVolume => 1.0
    case BigMove(_) => 2.0
    case Move(_) => 1.0
    case Overbought => 1.0
    case Oversold => 1.5
    case HighIv => 1.0
    case LowIv => 1.5
    case AffordableOptions => 0.5
    case AiStrong(_) => 1.5
    case AiModerate(_) => 1.0
  }

  /** The largest weight a factor's bucket can add. */
  function Cap(f: Factor): real {
    match f
    case EarningsFactor => 3.0
    case VolumeFactor => 2.0
    case MomentumFactor => 2.0
    case RsiFactor => 1.5
    case IvFactor => 1.5
    case AffordableFactor => 0.5
    case AiFactor => 1.5
  }

  /** The highest score the rules can give: 3 + 2 + 2 + 1.5 + 1.5 + 0.5 + 1.5. */
  const MAX_SCORE: real := 12.0

  function Abs(x: real): real { if x < 0.0 then -x else x }

  // ----- the seven rules, each firing at most one bucket -----

  function EarningsRule(s: Signal): Option<Reason> {
    match DaysToEarnings(s)
    case None => None
    case Some(d) =>
      if 1 <= d <= 3 then Some(EarningsSoon(d))
      else if 4 <= d <= 7 then Some(EarningsThisWeek(d))
      else if d == 0 then Some(EarningsToday)
      else None
  }

  function VolumeRule(s: Signal): Option<Reason> {
    if s.volSurge >= 2.0 then Some(HeavyVolume)
    else if s.volSurge >= 1.5 then Some(ElevatedVolume)
    else None
  }

  function MomentumRule(s: Signal): Option<Reason> {
    if Abs(s.momentum5d) >= 10.0 then Some(BigMove(s.momentum5d > 0.0))
    else if Abs(s.momentum5d) >= 5.0 then Some(Move(s.momentum5d > 0.0))
    else None
  }

  function RsiRule(s: Signal): Option<Reason> {
    if !RsiTruthy(s.rsi) then None
    else if s.rsi.value >= 70.0 then Some(Overbought)
    else if s.rsi.value <= 30.0 then Some(Oversold)
    else None
  }

  function IvRule(s: Signal): Option<Reason> {
    match s.options
    case None => None
    case Some(o) =>
      if o.ivAvg >= 80.0 then Some(HighIv)
      else if o.ivAvg <= 30.0 && o.ivAvg > 0.0 then Some(LowIv)
      else None
  }

  function AffordableRule(s: Signal): Option<Reason> {
    match s.options
    case None => None
    case Some(o) =>
      if o.callSuggestion.Some? || o.putSuggestion.Some? then Some(AffordableOptions) else None
  }

  /** The sentiment bucket; the enrichment stage applies the same rule again. */
  function AiRule(sent: Sentiment): Option<Reason> {
    if Abs(sent.score) >= 3.0 then Some(AiStrong(sent.score > 0.0))
    else if Abs(sent.score) >= 2.0 then Some(AiModerate(sent.score > 0.0))
    else None
  }

  /** A strong sentiment whose `summary` is JSON null: slicing it raises a TypeError. */
  predicate AiRuleRaises(sent: Sentiment) {
    Abs(sent.score) >= 3.0 && sent.summary == Null
  }

  function Fired(o: Option<Reason>): seq<Reason> {
    if o.Some? then [o.value] else []
  }

  /** The rule outcomes in evaluation order. */
  function RuleOutcomes(s: Signal): seq<Option<Reason>> {
    [EarningsRule(s), VolumeRule(s), MomentumRule(s), RsiRule(s), IvRule(s), AffordableRule(s), AiRule(s.sentiment)]
  }

  /** The reasons of the rules that fired, in order. */
  function Flatten(os: seq<Option<Reason>>): seq<Reason> {
    if os == [] then [] else Flatten(os[..|os| - 1]) + Fired(os[|os| - 1])
  }

  /** The reasons of a signal, in rule order. */
  function ScoreReasons(s: Signal): seq<Reason> {
    Flatten(RuleOutcomes(s))
  }

  function TotalWeight(reasons: seq<Reason>): real {
    if reasons == [] then 0.0 else Weight(reasons[0]) + TotalWeight(reasons[1..])
  }

  datatype Scored = Scored(score: real, reasons: seq<Reason>)

  datatype ScoreError = SummaryIsNull

  /** `score_opportunity`: a running `score` and a `reasons` list that each
      section of rules adds to, in rule order. */
  method ScoreOpportunity(s: Signal) returns (r: Result<Scored, ScoreError>)
    ensures r.Err? <==> AiRuleRaises(s.sentiment)
    ensures r.Ok? ==> r.value.reasons == ScoreReasons(s)
    ensures r.Ok? ==> r.value.score == TotalWeight(ScoreReasons(s))
  {
    var score: real := 0.0;
    var reasons: seq<Reason> := [];
    score, reasons := AddEarningsBucket(s, score, reasons);
    assert reasons == Fired(EarningsRule(s));
    score, reasons := AddVolumeBucket(s, score, reasons);
    score, reasons := AddMomentumBucket(s, score, reasons);
    score, reasons := AddRsiBucket(s, score, reasons);
    score, reasons := AddOptionsBuckets(s, score, reasons);
    if AiRuleRaises(s.sentiment) {
      return Err(SummaryIsNull);
    }
    score, reasons := AddSentimentBucket(s.sentiment, score, reasons);
    ScoreReasonsUnfolded(s);
    ScoreIsRuleSum(s);
    r := Ok(Scored(score, reasons));
  }

  /** Earnings catalyst. */
  method AddEarningsBucket(s: Signal, score0: real, reasons0: seq<Reason>) returns (score: real, reasons: seq<Reason>)
    ensures reasons == reasons0 + Fired(EarningsRule(s)) && score == score0 + WeightOf(EarningsRule(s))
  {
    score, reasons := score0, reasons0;
    var days := DaysToEarnings(s);
    if days.Some? {
      var d := days.value;
      if 1 <= d <= 3 {
        score := score + 3.0;
        reasons := reasons + [EarningsSoon(d)];
      } else if 4 <= d <= 7 {
        score := score + 2.0;
        reasons := reasons + [EarningsThisWeek(d)];
      } else if d == 0 {
        score := score + 1.0;
        reasons := reasons + [EarningsToday];
      }
    }
  }

  /** Volume surge. */
  method AddVolumeBucket(s: Signal, score0: real, reasons0: seq<Reason>) returns (score: real, reasons: seq<Reason>)
    ensures reasons == reasons0 + Fired(VolumeRule(s)) && score == score0 + WeightOf(VolumeRule(s))
  {
    score, reasons := score0, reasons0;
    if s.volSurge >= 2.0 {
      score := score + 2.0;
      reasons := reasons + [HeavyVolume];
    } else if s.volSurge >= 1.5 {
      score := score + 1.0;
      reasons := reasons + [ElevatedVolume];
    }
  }

  /** Five-day momentum. */
  method AddMomentumBucket(s: Signal, score0: real, reasons0: seq<Reason>) returns (score: real, reasons: seq<Reason>)
    ensures reasons == reasons0 + Fired(MomentumRule(s)) && score == score0 + WeightOf(MomentumRule(s))
  {
    score, reasons := score0, reasons0;
    var momentum := s.momentum5d;
    if Abs(momentum) >= 10.0 {
      score := score + 2.0;
      reasons := reasons + [BigMove(momentum > 0.0)];
    } else if Abs(momentum) >= 5.0 {
      score := score + 1.0;
      reasons := reasons + [Move(momentum > 0.0)];
    }
  }

  /** RSI extremes (a missing or zero RSI is skipped). */
  method AddRsiBucket(s: Signal, score0: real, reasons0: seq<Reason>) returns (score: real, reasons: seq<Reason>)
    ensures reasons == reasons0 + Fired(RsiRule(s)) && score == score0 + WeightOf(RsiRule(s))
  {
    score, reasons := score0, reasons0;
    if RsiTruthy(s.rsi) {
      var rsi := s.rsi.value;
      if rsi >= 70.0 {
        score := score + 1.0;
        reasons := reasons + [Overbought];
      } else if rsi <= 30.0 {
        score := score + 1.5;
        reasons := reasons + [Oversold];
      }
    }
  }

  /** The `if options:` section: the IV bucket and the affordable-options bonus. */
  method AddOptionsBuckets(s: Signal, score0: real, reasons0: seq<Reason>) returns (score: real, reasons: seq<Reason>)
    ensures reasons == reasons0 + Fired(IvRule(s)) + Fired(AffordableRule(s))
    ensures score == score0 + WeightOf(IvRule(s)) + WeightOf(AffordableRule(s))
  {
    score, reasons := score0, reasons0;
    if s.options.Some? {
      var iv := s.options.value.ivAvg;
      if iv >= 80.0 {
        score := score + 1.0;
        reasons := reasons + [HighIv];
      } else if iv <= 30.0 && iv > 0.0 {
        score := score + 1.5;
        reasons := reasons + [LowIv];
      }
      if s.options.value.callSuggestion.Some? || s.options.value.putSuggestion.Some? {
        score := score + 0.5;
        reasons := reasons + [AffordableOptions];
      }
    }
  }

  /** The sentiment bucket; the enrichment stage runs the same code again. */
  method AddSentimentBucket(sent: Sentiment, score0: real, reasons0: seq<Reason>) returns (score: real, reasons: seq<Reason>)
    ensures reasons == reasons0 + Fired(AiRule(sent)) && score == score0 + WeightOf(AiRule(sent))
  {
    score, reasons := score0, reasons0;
    if Abs(sent.score) >= 3.0 {
      score := score + 1.5;
      reasons := reasons + [AiStrong(sent.score > 0.0)];
    } else if Abs(sent.score) >= 2.0 {
      score := score + 1.0;
      reasons := reasons + [AiModerate(sent.score > 0.0)];
    }
  }

  function WeightOf(o: Option<Reason>): real {
    if o.Some? then Weight(o.value) else 0.0
  }

  /** The score is the sum of what each rule adds. */
  lemma ScoreIsRuleSum(s: Signal)
    ensures TotalWeight(ScoreReasons(s)) ==
              WeightOf(EarningsRule(s)) + WeightOf(VolumeRule(s)) + WeightOf(MomentumRule(s)) + WeightOf(RsiRule(s))
              + WeightOf(IvRule(s)) + WeightOf(AffordableRule(s)) + WeightOf(AiRule(s.sentiment))
  {
    ScoreReasonsUnfolded(s);
    var e, v, m, rs, i, a, ai :=
      Fired(EarningsRule(s)), Fired(VolumeRule(s)), Fired(MomentumRule(s)), Fired(RsiRule(s)),
      Fired(IvRule(s)), Fired(AffordableRule(s)), Fired(AiRule(s.sentiment));
    TotalWeightAppend(e, v);
    TotalWeightAppend(e + v, m);
    TotalWeightAppend(e + v + m, rs);
    TotalWeightAppend(e + v + m + rs, i);
    TotalWeightAppend(e + v + m + rs + i, a);
    TotalWeightAppend(e + v + m + rs + i + a, ai);
    TotalWeightFired(EarningsRule(s));
    TotalWeightFired(VolumeRule(s));
    TotalWeightFired(MomentumRule(s));
    TotalWeightFired(RsiRule(s));
    TotalWeightFired(IvRule(s));
    TotalWeightFired(AffordableRule(s));
    TotalWeightFired(AiRule(s.sentiment));
  }

  lemma TotalWeightFired(o: Option<Reason>)
    ensures TotalWeight(Fired(o)) == WeightOf(o)
  {
    if o.Some? {
      assert Fired(o)[1..] == [];
    }
  }

  lemma {:induction false} TotalWeightAppend(a: seq<Reason>, b: seq<Reason>)
    ensures TotalWeight(a + b) == TotalWeight(a) + TotalWeight(b)
  {
    if a == [] {
      assert a + b == b;
    } else {
      assert (a + b)[1..] == a[1..] + b;
      TotalWeightAppend(a[1..], b);
    }
  }

  /** One more outcome adds what it fired at the end. */
  lemma FlattenSnoc(os: seq<Option<Reason>>, x: Option<Reason>)
    ensures Flatten(os + [x]) == Flatten(os) + Fired(x)
  {
    assert (os + [x])[..|os|] == os;
  }

  /** Two to seven outcomes flatten to the concatenation of what each one fired. */
  lemma FlattenTwo(a: Option<Reason>, b: Option<Reason>)
    ensures Flatten([a, b]) == Fired(a) + Fired(b)
  {
    FlattenSnoc([a], b);
    assert [a] + [b] == [a, b];
    assert [a][..0] == [];
  }

  lemma FlattenThree(a: Option<Reason>, b: Option<Reason>, c: Option<Reason>)
    ensures Flatten([a, b, c]) == Fired(a) + Fired(b) + Fired(c)
  {
    FlattenTwo(a, b);
    FlattenSnoc([a, b], c);
    assert [a, b] + [c] == [a, b, c];
  }

  lemma FlattenFour(a: Option<Reason>, b: Option<Reason>, c: Option<Reason>, d: Option<Reason>)
    ensures Flatten([a, b, c, d]) == Fired(a) + Fired(b) + Fired(c) + Fired(d)
  {
    FlattenThree(a, b, c);
    FlattenSnoc([a, b, c], d);
    assert [a, b, c] + [d] == [a, b, c, d];
  }

  lemma FlattenFive(a: Option<Reason>, b: Option<Reason>, c: Option<Reason>, d: Option<Reason>, e: Option<Reason>)
    ensures Flatten([a, b, c, d, e]) == Fired(a) + Fired(b) + Fired(c) + Fired(d) + Fired(e)
  {
    FlattenFour(a, b, c, d);
    FlattenSnoc([a, b, c, d], e);
    assert [a, b, c, d] + [e] == [a, b, c, d, e];
  }

  lemma FlattenSix(a: Option<Reason>, b: Option<Reason>, c: Option<Reason>, d: Option<Reason>, e: Option<Reason>,
                   f: Option<Reason>)
    ensures Flatten([a, b, c, d, e, f]) == Fired(a) + Fired(b) + Fired(c) + Fired(d) + Fired(e) + Fired(f)
  {
    FlattenFive(a, b, c, d, e);
    FlattenSnoc([a, b, c, d, e], f);
    assert [a, b, c, d, e] + [f] == [a, b, c, d, e, f];
  }

  lemma FlattenSeven(a: Option<Reason>, b: Option<Reason>, c: Option<Reason>, d: Option<Reason>, e: Option<Reason>,
                     f: Option<Reason>, g: Option<Reason>)
    ensures Flatten([a, b, c, d, e, f, g]) ==
              Fired(a) + Fired(b) + Fired(c) + Fired(d) + Fired(e) + Fired(f) + Fired(g)
  {
    FlattenSix(a, b, c, d, e, f);
    FlattenSnoc([a, b, c, d, e, f], g);
    assert [a, b, c, d, e, f] + [g] == [a, b, c, d, e, f, g];
  }

  /** Same, for the outcomes of a signal. */
  lemma ScoreReasonsUnfolded(s: Signal)
    ensures ScoreReasons(s) ==
              Fired(EarningsRule(s)) + Fired(VolumeRule(s)) + Fired(MomentumRule(s)) + Fired(RsiRule(s))
              + Fired(IvRule(s)) + Fired(AffordableRule(s)) + Fired(AiRule(s.sentiment))
  {
    FlattenSeven(EarningsRule(s), VolumeRule(s), MomentumRule(s), RsiRule(s), IvRule(s), AffordableRule(s), AiRule(s.sentiment));
  }

  // ----- properties of the scorer -----

  /** The factor whose rule is evaluated in position `k`. */
  function FactorAt(k: nat): Factor
    requires k < 7
  {
    [EarningsFactor, VolumeFactor, MomentumFactor, RsiFactor, IvFactor, AffordableFactor, AiFactor][k]
  }

  /** The rule that scores a factor. */
  function RuleFor(s: Signal, f: Factor): Option<Reason> {
    match f
    case EarningsFactor => EarningsRule(s)
    case VolumeFactor => VolumeRule(s)
    case MomentumFactor => MomentumRule(s)
    case RsiFactor => RsiRule(s)
    case IvFactor => IvRule(s)
    case AffordableFactor => AffordableRule(s)
    case AiFactor => AiRule(s.sentiment)
  }

  /** Each rule fires at most one bucket, of its own factor, adding between 0 and the factor's cap. */
  lemma RuleBucket(s: Signal, f: Factor)
    ensures RuleFor(s, f).Some? ==> FactorOf(RuleFor(s, f).value) == f
    ensures 0.0 <= WeightOf(RuleFor(s, f)) <= Cap(f)
  {
  }

  /** The score lies between 0 and 3 + 2 + 2 + 1.5 + 1.5 + 0.5 + 1.5 = 12. */
  lemma ScoreBounds(s: Signal)
    ensures 0.0 <= TotalWeight(ScoreReasons(s)) <= MAX_SCORE
  {
    ScoreIsRuleSum(s);
    RuleBucket(s, EarningsFactor);
    RuleBucket(s, VolumeFactor);
    RuleBucket(s, MomentumFactor);
    RuleBucket(s, RsiFactor);
    RuleBucket(s, IvFactor);
    RuleBucket(s, AffordableFactor);
    RuleBucket(s, AiFactor);
  }

  /** Outcome `k` of a list, when present, belongs to the factor of rank `k`. */
  predicate Ranked(os: seq<Option<Reason>>) {
    forall k :: 0 <= k < |os| && os[k].Some? ==> Rank(FactorOf(os[k].value)) == k
  }

  /** In position `k` of the outcome list is the rule of rank `k`. */
  lemma OutcomesRanked(s: Signal)
    ensures Ranked(RuleOutcomes(s))
    ensures forall k :: 0 <= k < 7 ==> RuleOutcomes(s)[k] == RuleFor(s, FactorAt(k))
  {
    RuleBucket(s, EarningsFactor);
    RuleBucket(s, VolumeFactor);
    RuleBucket(s, MomentumFactor);
    RuleBucket(s, RsiFactor);
    RuleBucket(s, IvFactor);
    RuleBucket(s, AffordableFactor);
    RuleBucket(s, AiFactor);
  }

  /** Factor ranks strictly increase along a list of reasons. */
  predicate InRuleOrder(rs: seq<Reason>) {
    forall i, j :: 0 <= i < j < |rs| ==> Rank(FactorOf(rs[i])) < Rank(FactorOf(rs[j]))
  }

  /** Flattening ranked outcomes gives reasons in rank order, each reason being
      the outcome in the position of its rank. */
  lemma {:induction false} FlattenRanked(os: seq<Option<Reason>>)
    requires Ranked(os)
    ensures InRuleOrder(Flatten(os))
    ensures forall i :: 0 <= i < |Flatten(os)| ==>
              Rank(FactorOf(Flatten(os)[i])) < |os| && os[Rank(FactorOf(Flatten(os)[i]))] == Some(Flatten(os)[i])
    ensures forall k :: 0 <= k < |os| && os[k].Some? ==> os[k].value in Flatten(os)
    ensures |Flatten(os)| <= |os|
  {
    if os != [] {
      var n := |os|;
      var init := os[..n - 1];
      assert Ranked(init) by {
        forall k | 0 <= k < |init| && init[k].Some?
          ensures Rank(FactorOf(init[k].value)) == k
        {
          assert init[k] == os[k];
        }
      }
      FlattenRanked(init);
      var fi := Flatten(init);
      var f := Flatten(os);
      assert f == fi + Fired(os[n - 1]);
      forall k | 0 <= k < n && os[k].Some?
        ensures os[k].value in f
      {
        if k < n - 1 {
          assert init[k] == os[k];
        }
      }
    }
  }

  /** The reasons come in rule order, one factor at most once:
      earnings, volume, momentum, RSI, IV, affordable, AI. */
  lemma ReasonsInRuleOrder(s: Signal)
    ensures InRuleOrder(ScoreReasons(s))
    ensures |ScoreReasons(s)| <= 7
  {
    OutcomesRanked(s);
    FlattenRanked(RuleOutcomes(s));
  }

  /** A factor appears among the reasons exactly when its rule fired, and then
      with the bucket that rule chose. */
  lemma ReasonForFactor(s: Signal, f: Factor)
    ensures (exists i :: 0 <= i < |ScoreReasons(s)| && FactorOf(ScoreReasons(s)[i]) == f) <==> RuleFor(s, f).Some?
    ensures forall i :: 0 <= i < |ScoreReasons(s)| && FactorOf(ScoreReasons(s)[i]) == f ==>
              ScoreReasons(s)[i] == RuleFor(s, f).value
  {
    var os, rs := RuleOutcomes(s), ScoreReasons(s);
    OutcomesRanked(s);
    FlattenRanked(os);
    var k := Rank(f);
    assert FactorAt(k) == f;
    if RuleFor(s, f).Some? {
      assert os[k].Some?;
      var i :| 0 <= i < |rs| && rs[i] == os[k].value;
      assert FactorOf(rs[i]) == f by { RuleBucket(s, f); }
    }
    forall i | 0 <= i < |rs| && FactorOf(rs[i]) == f
      ensures rs[i] == RuleFor(s, f).value
    {
      assert os[k] == Some(rs[i]);
    }
  }

  /** A missing or zero RSI and a missing options snapshot add nothing. */
  lemma AbsentInputsAddNothing(s: Signal)
    ensures !RsiTruthy(s.rsi) ==> forall i :: 0 <= i < |ScoreReasons(s)| ==> FactorOf(ScoreReasons(s)[i]) != RsiFactor
    ensures s.options.None? ==>
              forall i :: 0 <= i < |ScoreReasons(s)| ==>
                FactorOf(ScoreReasons(s)[i]) != IvFactor && FactorOf(ScoreReasons(s)[i]) != AffordableFactor
  {
    ReasonForFactor(s, RsiFactor);
    ReasonForFactor(s, IvFactor);
    ReasonForFactor(s, AffordableFactor);
  }

  /** A $20 stock up 12% over five days, RSI 28, volume 2.5 times its average,
      no earnings date and no options scores 2 + 2 + 1.5 = 5.5. */
  lemma OversoldBreakoutExample()
    ensures var s := Signal("ABC", 20.0, 2.5, 12.0, Some(28.0), Bullish, None, None, [], PENDING_SENTIMENT);
            ScoreReasons(s) == [HeavyVolume, BigMove(true), Oversold] && TotalWeight(ScoreReasons(s)) == 5.5
  {
    var s := Signal("ABC", 20.0, 2.5, 12.0, Some(28.0), Bullish, None, None, [], PENDING_SENTIMENT);
    ScoreReasonsUnfolded(s);
    assert ScoreReasons(s) == [HeavyVolume, BigMove(true), Oversold];
    ScoreIsRuleSum(s);
  }
}
