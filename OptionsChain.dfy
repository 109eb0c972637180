/** Expiration choice and affordable-strike suggestions of `get_options_data`.
    Dates are given as whole days from today; the chain tables as lists of quotes. */
module OptionsChain {
  import opened Common
  import opened Signals

  /** A listed expiration: its date text and how many days out it is. */
  datatype Expiration = Expiration(date: string, daysOut: int)

  /** One row of a calls or puts table. `None` stands for a missing (NaN) count. */
  datatype Quote = Quote(strike: real, lastPrice: real, impliedVolatility: real, volume: Option<int>, openInterest: Option<int>)

  datatype Chain = Chain(calls: seq<Quote>, puts: seq<Quote>)

  /** Only this many listed expirations are looked at. */
  const CONSIDERED := 5

  predicate IsFuture(e: Expiration) { e.daysOut >= 1 }

  predicate IsWeekly(e: Expiration) { 5 <= e.daysOut <= 10 }

  /** The listed expirations the choice looks at. */
  function Considered(expirations: seq<Expiration>): (r: seq<Expiration>)
    ensures r <= expirations && |r| == Min(CONSIDERED, |expirations|)
  {
    expirations[..Min(CONSIDERED, |expirations|)]
  }

  /** The expiration the scanner targets: the first weekly one (5 to 10 days out)
      among the considered ones, else the first one at least a day out. */
  function ExpirationChoice(expirations: seq<Expiration>): (r: Option<Expiration>)
    ensures r.Some? <==> exists e :: e in Considered(expirations) && IsFuture(e)
    ensures r.Some? ==> r.value in Considered(expirations) && IsFuture(r.value)
    ensures (exists e :: e in Considered(expirations) && IsWeekly(e)) ==>
              r.Some? && IsWeekly(r.value)
    ensures r.Some? && IsWeekly(r.value) ==>
              exists i :: 0 <= i < |Considered(expirations)| && Considered(expirations)[i] == r.value &&
                          forall j :: 0 <= j < i ==> !IsWeekly(Considered(expirations)[j])
    ensures r.Some? && !IsWeekly(r.value) ==>
              exists i :: 0 <= i < |Considered(expirations)| && Considered(expirations)[i] == r.value &&
                          forall j :: 0 <= j < i ==> !IsFuture(Considered(expirations)[j])
  {
    var window := Considered(expirations);
    match FirstWhere(window, IsWeekly)
    case Some(i) => assert window[i] in window && IsFuture(window[i]); Some(window[i])
    case None =>
      match FirstWhere(window, IsFuture)
      case Some(i) => Some(window[i])
      case None => None
  }

  /** The loop over the first five listed expirations that remembers the first
      future one and the first weekly one. */
  method ChooseExpiration(expirations: seq<Expiration>) returns (target: Option<Expiration>)
    ensures target == ExpirationChoice(expirations)
  {
    var window := Considered(expirations);
    var nearest: Option<Expiration> := None;
    var weekly: Option<Expiration> := None;
    for i := 0 to |window|
      invariant nearest == (match FirstWhere(window[..i], IsFuture)
                            case Some(k) => Some(window[k]) case None => None)
      invariant weekly == (match FirstWhere(window[..i], IsWeekly)
                           case Some(k) => Some(window[k]) case None => None)
    {
      FirstWhereExtend(window, i, IsFuture);
      FirstWhereExtend(window, i, IsWeekly);
      var e := window[i];
      if e.daysOut >= 1 {
        if nearest.None? {
          nearest := Some(e);
        }
        if 5 <= e.daysOut <= 10 && weekly.None? {
          weekly := Some(e);
        }
      }
    }
    assert window[..|window|] == window;
    target := if weekly.Some? then weekly else nearest;
  }

  /** Extending the searched prefix by one element keeps an earlier hit and
      otherwise finds the new element if it matches. */
  lemma FirstWhereExtend<T>(s: seq<T>, i: nat, p: T -> bool)
    requires i < |s|
    ensures FirstWhere(s[..i + 1], p) ==
              match FirstWhere(s[..i], p)
              case Some(k) => Some(k)
              case None => if p(s[i]) then Some(i) else None
  {
    var a, b := FirstWhere(s[..i], p), FirstWhere(s[..i + 1], p);
    assert forall j :: 0 <= j < i ==> s[..i + 1][j] == s[..i][j];
    assert s[..i + 1][i] == s[i];
    match a
    case Some(k) => {
      assert b.Some? && b.value <= k;
      assert b.value == k;
    }
    case None => {
      if p(s[i]) {
        assert b.Some? && b.value == i;
      } else {
        assert b.None?;
      }
    }
  }

  predicate AffordableCall(q: Quote, price: real, maxPremium: real) {
    q.lastPrice <= maxPremium && q.strike >= price
  }

  predicate AffordablePut(q: Quote, price: real, maxPremium: real) {
    q.lastPrice <= maxPremium && q.strike <= price
  }

  /** A quote of least strike (the first such in list order). */
  function LowestStrike(qs: seq<Quote>): (r: Option<Quote>)
    ensures r.None? <==> qs == []
    ensures r.Some? ==> r.value in qs && forall q :: q in qs ==> r.value.strike <= q.strike
  {
    if qs == [] then None
    else match LowestStrike(qs[1..])
      case None => Some(qs[0])
      case Some(q) => if q.strike < qs[0].strike then Some(q) else Some(qs[0])
  }

  /** A quote of greatest strike (the first such in list order). */
  function HighestStrike(qs: seq<Quote>): (r: Option<Quote>)
    ensures r.None? <==> qs == []
    ensures r.Some? ==> r.value in qs && forall q :: q in qs ==> q.strike <= r.value.strike
  {
    if qs == [] then None
    else match HighestStrike(qs[1..])
      case None => Some(qs[0])
      case Some(q) => if q.strike > qs[0].strike then Some(q) else Some(qs[0])
  }

  /** The dictionary built from the chosen row (`round` is not modelled). */
  function SuggestionOf(q: Quote, breakEven: real): Suggestion {
    Suggestion(q.strike, q.lastPrice, q.impliedVolatility * 100.0,
               q.volume.GetOr(0), q.openInterest.GetOr(0), breakEven)
  }

  /** The call to suggest: the lowest affordable strike at or above the price. */
  function CallSuggestion(calls: seq<Quote>, price: real, maxPremium: real): (r: Option<Suggestion>)
    ensures r.Some? <==> exists q :: q in calls && AffordableCall(q, price, maxPremium)
    ensures r.Some? ==> exists q :: q in calls && AffordableCall(q, price, maxPremium) &&
                          r.value == SuggestionOf(q, q.strike + q.lastPrice) &&
                          forall q' :: q' in calls && AffordableCall(q', price, maxPremium) ==> q.strike <= q'.strike
    ensures r.Some? ==> r.value.strike >= price && r.value.premium <= maxPremium &&
                        r.value.breakEven == r.value.strike + r.value.premium
  {
    var eligible := Filter(calls, q => AffordableCall(q, price, maxPremium));
    match LowestStrike(eligible)
    case None => None
    case Some(q) => Some(SuggestionOf(q, q.strike + q.lastPrice))
  }

  /** The put to suggest: the highest affordable strike at or below the price. */
  function PutSuggestion(puts: seq<Quote>, price: real, maxPremium: real): (r: Option<Suggestion>)
    ensures r.Some? <==> exists q :: q in puts && AffordablePut(q, price, maxPremium)
    ensures r.Some? ==> exists q :: q in puts && AffordablePut(q, price, maxPremium) &&
                          r.value == SuggestionOf(q, q.strike - q.lastPrice) &&
                          forall q' :: q' in puts && AffordablePut(q', price, maxPremium) ==> q'.strike <= q.strike
    ensures r.Some? ==> r.value.strike <= price && r.value.premium <= maxPremium &&
                        r.value.breakEven == r.value.strike - r.value.premium
  {
    var eligible := Filter(puts, q => AffordablePut(q, price, maxPremium));
    match HighestStrike(eligible)
    case None => None
    case Some(q) => Some(SuggestionOf(q, q.strike - q.lastPrice))
  }

  /** `get_options_data` after the market-data calls: `chainFor` is the chain the
      provider returns for an expiration date; the average implied volatility and
      the expected move are the numbers computed from its at-the-money quotes. */
  method GetOptionsData(expirations: seq<Expiration>, chainFor: string -> Chain, price: real, config: Config,
                        ivAvgPct: real, expectedMovePct: real)
    returns (snapshot: Option<OptionsSnapshot>)
    ensures snapshot.Some? <==>
              ExpirationChoice(expirations).Some? &&
              chainFor(ExpirationChoice(expirations).value.date).calls != [] &&
              chainFor(ExpirationChoice(expirations).value.date).puts != []
    ensures snapshot.Some? ==>
              var target := ExpirationChoice(expirations).value;
              var chain := chainFor(target.date);
              && snapshot.value.expiration == target.date
              && snapshot.value.dte == target.daysOut
              && target.daysOut >= 1
              && snapshot.value.ivAvg == ivAvgPct
              && snapshot.value.expectedMovePct == expectedMovePct
              && snapshot.value.callSuggestion == CallSuggestion(chain.calls, price, config.maxOptionPremium)
              && snapshot.value.putSuggestion == PutSuggestion(chain.puts, price, config.maxOptionPremium)
  {
    if expirations == [] {
      return None;
    }
    var target := ChooseExpiration(expirations);
    if target.None? {
      return None;
    }
    var chain := chainFor(target.value.date);
    if chain.calls == [] || chain.puts == [] {
      return None;
    }
    var maxPremium := config.maxOptionPremium;
    snapshot := Some(OptionsSnapshot(target.value.date, target.value.daysOut, ivAvgPct, expectedMovePct,
                                     CallSuggestion(chain.calls, price, maxPremium),
                                     PutSuggestion(chain.puts, price, maxPremium)));
  }
}
