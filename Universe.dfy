/** `get_universe`: the curated list, then the cached tickers it lacks, capped. */
module Universe {
  import opened Common

  /** The curated list of liquid, optionable tickers (128 symbols). */
  const ROBINHOOD_POPULAR: seq<string> := [
    "AAPL", "MSFT", "GOOGL", "GOOG", "AMZN", "META", "NVDA", "TSLA", "AMD", "INTC",
    "MU", "QCOM", "AVGO", "TSM", "MRVL", "ON", "RIVN", "LCID", "NIO", "XPEV",
    "LI", "FSR", "PLUG", "FCEL", "BE", "SOFI", "HOOD", "COIN", "PYPL", "SQ",
    "AFRM", "UPST", "GME", "AMC", "BBBY", "COST", "WMT", "TGT", "HD", "LOW",
    "MRNA", "BNTX", "PFE", "JNJ", "ABBV", "BMY", "LLY", "NVO", "CRM", "SNOW",
    "PLTR", "NET", "DDOG", "ZS", "CRWD", "PANW", "NFLX", "DIS", "ROKU", "SPOT",
    "SNAP", "PINS", "RBLX", "ABNB", "UBER", "LYFT", "DAL", "UAL", "AAL", "LUV",
    "CCL", "RCL", "NCLH", "XOM", "CVX", "OXY", "SLB", "DVN", "FANG", "MRO",
    "JPM", "BAC", "GS", "MS", "C", "WFC", "SCHW", "V", "MA", "AXP",
    "BA", "CAT", "DE", "UPS", "FDX", "T", "VZ", "TMUS", "CMCSA", "O",
    "SPG", "AMT", "PLD", "GOLD", "NEM", "FCX", "CLF", "X", "TLRY", "CGC",
    "ACB", "BBIG", "MULN", "SNDL", "WISH", "CLOV", "SPCE", "BABA", "JD", "PDD",
    "BIDU", "SPY", "QQQ", "IWM", "DIA", "XLF", "XLE", "XLK"]

  /** The cached tickers that are neither in `base` nor earlier in `cached`, in order:
      what the append loop adds to `base`. */
  function Fresh(base: seq<string>, cached: seq<string>): seq<string> {
    if cached == [] then []
    else
      var earlier := Fresh(base, cached[..|cached| - 1]);
      var t := cached[|cached| - 1];
      if t in base + earlier then earlier else earlier + [t]
  }

  /** The universe for a cached ticker list and a `max_tickers` setting. */
  function UniverseOf(cached: seq<string>, maxTickers: int): seq<string> {
    PyPrefix(ROBINHOOD_POPULAR + Fresh(ROBINHOOD_POPULAR, cached), maxTickers)
  }

  /** `get_universe` after reading the cache file (`cached` is empty when there is none). */
  method GetUniverse(cached: seq<string>, maxTickers: int) returns (universe: seq<string>)
    ensures universe == UniverseOf(cached, maxTickers)
  {
    var tickers := ROBINHOOD_POPULAR;
    for i := 0 to |cached|
      invariant tickers == ROBINHOOD_POPULAR + Fresh(ROBINHOOD_POPULAR, cached[..i])
    {
      assert cached[..i + 1][..i] == cached[..i];
      var t := cached[i];
      if t !in tickers {
        tickers := tickers + [t];
      }
    }
    assert cached[..|cached|] == cached;
    universe := PyPrefix(tickers, maxTickers);
  }

  /** A ticker is fresh exactly when it is cached and not in the base list; no
      fresh ticker repeats, and none is in the base list. */
  lemma {:induction false} FreshMembers(base: seq<string>, cached: seq<string>)
    ensures forall x :: x in Fresh(base, cached) <==> x in cached && x !in base
    ensures NoDuplicates(Fresh(base, cached))
    ensures NoDuplicates(base) ==> NoDuplicates(base + Fresh(base, cached))
  {
    if cached != [] {
      var init := cached[..|cached| - 1];
      FreshMembers(base, init);
      assert forall x :: x in cached <==> x in init || x == cached[|cached| - 1] by {
        assert cached == init + [cached[|cached| - 1]];
      }
      var earlier := Fresh(base, init);
      var t := cached[|cached| - 1];
      if t !in base + earlier {
        var f := earlier + [t];
        assert NoDuplicates(f) by {
          forall i, j | 0 <= i < j < |f|
            ensures f[i] != f[j]
          {
            if j == |earlier| {
              assert f[i] in earlier;
            }
          }
        }
        if NoDuplicates(base) {
          var m := base + f;
          forall i, j | 0 <= i < j < |m|
            ensures m[i] != m[j]
          {
            if i < |base| && j >= |base| {
              assert m[j] in f;
            }
          }
        }
      }
    }
  }

  /** The universe is a prefix of the curated list followed by the fresh cached
      tickers, of length at most `max_tickers` when that is not negative; it holds
      a ticker only if that ticker is curated or cached, and no ticker twice when
      the curated list has none twice. */
  lemma UniverseShape(cached: seq<string>, maxTickers: int)
    ensures UniverseOf(cached, maxTickers) <= ROBINHOOD_POPULAR + Fresh(ROBINHOOD_POPULAR, cached)
    ensures maxTickers >= 0 ==> |UniverseOf(cached, maxTickers)| <= maxTickers
    ensures forall x :: x in UniverseOf(cached, maxTickers) ==> x in ROBINHOOD_POPULAR || x in cached
    ensures NoDuplicates(ROBINHOOD_POPULAR) ==> NoDuplicates(UniverseOf(cached, maxTickers))
  {
    FreshMembers(ROBINHOOD_POPULAR, cached);
    var merged := ROBINHOOD_POPULAR + Fresh(ROBINHOOD_POPULAR, cached);
    var u := UniverseOf(cached, maxTickers);
    forall x | x in u
      ensures x in ROBINHOOD_POPULAR || x in cached
    {
      var i :| 0 <= i < |u| && u[i] == x;
      assert merged[i] == x;
    }
    if NoDuplicates(ROBINHOOD_POPULAR) {
      forall i, j | 0 <= i < j < |u|
        ensures u[i] != u[j]
      {
        assert u[i] == merged[i] && u[j] == merged[j];
      }
    }
  }

  /** With the default `max_tickers` of 100 the universe is the first 100
      curated tickers, whatever the cache holds: the curated list alone has 128. */
  lemma DefaultIgnoresCache(cached: seq<string>)
    ensures UniverseOf(cached, 100) == ROBINHOOD_POPULAR[..100]
  {
    assert |ROBINHOOD_POPULAR| == 128;
    var merged := ROBINHOOD_POPULAR + Fresh(ROBINHOOD_POPULAR, cached);
    assert merged[..100] == ROBINHOOD_POPULAR[..100];
  }
}
