/**
 * The price service: the current price of a token with its two fallbacks, the stored
 * price history, the moving average over it, and the volatility-based risk hint.
 */
module Prices {
  import opened Base
  import opened Models
  import opened Seqs

  /** A price in US dollars per token, as the live source and the store report it. */
  type Price = r: real | r > 0.0 witness 1.0

  /** The price reported when neither the live source nor the store has one. */
  const DefaultPrice: Price := 1.0

  /** One calendar day in milliseconds. */
  const DayMs: int := 86_400_000

  /**
   * The live price source: the US dollar price it reports for a CoinGecko token id,
   * or None when the request fails or the response has no price for that id.
   */
  type Quotes = string -> Option<Price>

  // ---------------------------------------------------------------- token ids

  predicate IsUpper(c: char) {
    'A' <= c <= 'Z'
  }

  function LowerChar(c: char): char {
    if IsUpper(c) then (c as int + 32) as char else c
  }

  predicate NoUpper(s: string) {
    forall i :: 0 <= i < |s| ==> !IsUpper(s[i])
  }

  /** `toLowerCase`, on the ASCII letters. */
  function ToLower(s: string): (r: string)
    ensures |r| == |s|
    ensures forall i :: 0 <= i < |s| ==> r[i] == LowerChar(s[i])
  {
    if s == [] then [] else [LowerChar(s[0])] + ToLower(s[1..])
  }

  /** A lower-cased string has no upper-case letter, and lower-casing it again changes nothing. */
  lemma ToLowerIsLower(s: string)
    ensures NoUpper(ToLower(s))
    ensures ToLower(ToLower(s)) == ToLower(s)
  {
  }

  /** A string without upper-case letters is its own lower-case form. */
  lemma ToLowerOfLower(s: string)
    requires NoUpper(s)
    ensures ToLower(s) == s
  {
  }

  /** The CoinGecko ids of the tokens the platform knows. */
  const CoinGeckoIds: map<string, string> :=
    map["INJ" := "injective-protocol", "TON" := "the-open-network", "SONIC" := "sonic-3"]

  /** The CoinGecko id of a symbol: the known id, or else the symbol in lower case. */
  function TokenId(symbol: string): (id: string)
    ensures NoUpper(id)
    ensures symbol in CoinGeckoIds ==> id == CoinGeckoIds[symbol]
    ensures symbol !in CoinGeckoIds ==> id == ToLower(symbol)
    ensures symbol !in CoinGeckoIds ==> |id| == |symbol| && (NoUpper(symbol) ==> id == symbol)
  {
    if symbol in CoinGeckoIds then
      assert NoUpper("injective-protocol") && NoUpper("the-open-network") && NoUpper("sonic-3");
      CoinGeckoIds[symbol]
    else
      ToLowerIsLower(symbol);
      if NoUpper(symbol) then ToLowerOfLower(symbol); ToLower(symbol) else ToLower(symbol)
  }

  /** The three known symbols map to their CoinGecko ids; the lookup is case-sensitive. */
  lemma KnownTokenIds()
    ensures TokenId("INJ") == "injective-protocol"
    ensures TokenId("TON") == "the-open-network"
    ensures TokenId("SONIC") == "sonic-3"
    ensures TokenId("inj") == "inj"
  {
    assert "inj" !in CoinGeckoIds;
  }

  // ---------------------------------------------------------------- stored samples

  /** Every stored sample has a positive price. */
  ghost predicate PositivePrices(samples: seq<TokenPrice>) {
    forall s :: s in samples ==> s.price > 0.0
  }

  function SamplesOf(samples: seq<TokenPrice>, symbol: string): (r: seq<TokenPrice>)
    ensures forall s :: s in r <==> s in samples && s.symbol == symbol
  {
    Filter(samples, (s: TokenPrice) => s.symbol == symbol)
  }

  /** The sort key of the (symbol, newest-first) index. */
  function NewestFirstKey(s: TokenPrice): int {
    -s.timestamp
  }

  /** The newest stored sample of a symbol: the samples of that symbol, newest first, the first one. */
  function Latest(samples: seq<TokenPrice>, symbol: string): (r: Option<TokenPrice>)
    ensures r.None? <==> forall s :: s in samples ==> s.symbol != symbol
    ensures r.Some? ==> r.value in samples && r.value.symbol == symbol
    ensures r.Some? ==> forall s :: s in samples && s.symbol == symbol ==> s.timestamp <= r.value.timestamp
  {
    var mine := SamplesOf(samples, symbol);
    if mine == [] then
      None
    else
      SortByHeadIsLeast(mine, NewestFirstKey);
      Some(SortBy(mine, NewestFirstKey)[0])
  }

  /** The sample a successful live fetch stores: the store must accept it for the fetch to count. */
  function LiveSample(symbol: string, quotes: Quotes, now: Time): (r: Option<TokenPrice>)
    ensures r.Some? <==> quotes(TokenId(symbol)).Some? && symbol != ""
    ensures r.Some? ==> r.value == TokenPrice(symbol, quotes(TokenId(symbol)).value, now)
  {
    var live := quotes(TokenId(symbol));
    if live.None? then None
    else
      match NewSample(Some(symbol), Some(live.value as real), Some(now), now)
      case Ok(sample) => Some(sample)
      case Err(_) => None
  }

  /**
   * The price fetchCurrentPrice reports: the live price when it is fetched and stored;
   * otherwise the price of the newest stored sample of the symbol; otherwise 1.0.
   */
  function CurrentPrice(samples: seq<TokenPrice>, symbol: string, quotes: Quotes): (p: Price)
    requires PositivePrices(samples)
    ensures LiveSample(symbol, quotes, 0).Some? ==> p == quotes(TokenId(symbol)).value
    ensures LiveSample(symbol, quotes, 0).None? && (exists s :: s in samples && s.symbol == symbol) ==>
      exists s :: s in samples && s.symbol == symbol && s.price == p &&
        forall t :: t in samples && t.symbol == symbol ==> t.timestamp <= s.timestamp
    ensures LiveSample(symbol, quotes, 0).None? && (forall s :: s in samples ==> s.symbol != symbol) ==>
      p == DefaultPrice
  {
    var live := quotes(TokenId(symbol));
    if live.Some? && symbol != "" then live.value
    else
      match Latest(samples, symbol)
      case Some(sample) => sample.price
      case None => DefaultPrice
  }

  /** What a fetch appends to the store: the live sample if there is one, else nothing. */
  function Appended(symbol: string, quotes: Quotes, now: Time): (r: seq<TokenPrice>)
    ensures |r| <= 1
    ensures r != [] <==> LiveSample(symbol, quotes, now).Some?
    ensures r != [] ==> r[0].symbol == symbol && r[0].price == quotes(TokenId(symbol)).value && r[0].timestamp == now
  {
    match LiveSample(symbol, quotes, now)
    case Some(sample) => [sample]
    case None => []
  }

  /** The first day of the window `days` days back from `now`. */
  function WindowStart(now: Time, days: int): Time {
    now - days * DayMs
  }

  function PricesOf(window: seq<TokenPrice>): (r: seq<real>)
    ensures |r| == |window|
    ensures forall i :: 0 <= i < |window| ==> r[i] == window[i].price
  {
    seq(|window|, i requires 0 <= i < |window| => window[i].price)
  }

  // ---------------------------------------------------------------- statistics

  /** The arithmetic mean, with 0 for an empty sequence (the `|| 0` of the source). */
  function Mean(xs: seq<real>): real {
    if xs == [] then 0.0 else Sum(xs) / |xs| as real
  }

  /** The mean of values between `lo` and `hi` lies between them. */
  lemma MeanBetween(xs: seq<real>, lo: real, hi: real)
    requires xs != []
    requires forall i :: 0 <= i < |xs| ==> lo <= xs[i] <= hi
    ensures lo <= Mean(xs) <= hi
  {
    var n := |xs| as real;
    SumBounds(xs, lo, hi);
    assert n * lo <= Sum(xs) <= n * hi;
    assert Mean(xs) == Sum(xs) / n;
    assert lo == (n * lo) / n && hi == (n * hi) / n;
  }

  /** The return from the k-th price to the next: (p[k+1] - p[k]) / p[k]. */
  function DailyReturn(prices: seq<TokenPrice>, k: nat): real
    requires k + 1 < |prices| && prices[k].price > 0.0
  {
    (prices[k + 1].price - prices[k].price) / prices[k].price
  }

  /** The return of each consecutive pair of prices. */
  function Returns(prices: seq<TokenPrice>): seq<real>
    requires PositivePrices(prices)
  {
    seq(if prices == [] then 0 else |prices| - 1,
        k requires 0 <= k < |prices| - 1 => assert prices[k] in prices; DailyReturn(prices, k))
  }

  function Square(x: real): real {
    x * x
  }

  lemma SquareNonNegative(x: real)
    ensures Square(x) >= 0.0
  {
    if x < 0.0 {
      assert Square(x) == (-x) * (-x);
    }
  }

  function SquaredDeviations(xs: seq<real>, avg: real): (r: seq<real>)
    ensures |r| == |xs|
    ensures forall i :: 0 <= i < |r| ==> r[i] >= 0.0
  {
    var r := seq(|xs|, i requires 0 <= i < |xs| => Square(xs[i] - avg));
    assert forall i :: 0 <= i < |r| ==> r[i] >= 0.0 by {
      forall i | 0 <= i < |r| ensures r[i] >= 0.0 {
        SquareNonNegative(xs[i] - avg);
      }
    }
    r
  }

  /** The variance of the daily returns; the volatility is its square root. */
  function Variance(xs: seq<real>): (v: real)
    ensures v >= 0.0
    ensures xs == [] ==> v == 0.0
  {
    var deviations := SquaredDeviations(xs, Mean(xs));
    if deviations == [] then 0.0
    else
      SumNonNegative(deviations);
      Mean(deviations)
  }

  // ---------------------------------------------------------------- risk

  datatype RiskLevel = Low | Medium | High

  datatype RiskAnalysis = RiskAnalysis(riskLevel: RiskLevel, recommendation: string, suggestedInvestment: int)

  const LowVolatility: real := 0.03
  const HighVolatility: real := 0.07

  /** The level of a volatility: below 0.03 low, above 0.07 high, medium in between. */
  function VolatilityLevel(volatility: real): RiskLevel {
    if volatility < LowVolatility then Low
    else if volatility > HighVolatility then High
    else Medium
  }

  /** The recommendation that follows the token symbol, for each level. */
  const LowAdvice: string := " has shown low volatility recently. Consider a conservative investment."
  const MediumAdvice: string := " has shown moderate volatility. A balanced approach is recommended."
  const HighAdvice: string := " has shown high volatility recently. Only invest what you can afford to lose."

  /** The recommendation and suggested investment that go with each level. */
  function Profile(symbol: string, level: RiskLevel): RiskAnalysis {
    match level
    case Low =>
      RiskAnalysis(Low, symbol + LowAdvice, 10)
    case High =>
      RiskAnalysis(High, symbol + HighAdvice, 30)
    case Medium =>
      RiskAnalysis(Medium, symbol + MediumAdvice, 20)
  }

  /** The thresholds and the amounts they suggest. */
  lemma RiskThresholds(symbol: string, volatility: real)
    ensures VolatilityLevel(volatility) == Low <==> volatility < 0.03
    ensures VolatilityLevel(volatility) == High <==> volatility > 0.07
    ensures VolatilityLevel(volatility) == Medium <==> 0.03 <= volatility <= 0.07
    ensures Profile(symbol, Low).suggestedInvestment == 10
    ensures Profile(symbol, Medium).suggestedInvestment == 20
    ensures Profile(symbol, High).suggestedInvestment == 30
    ensures Profile(symbol, VolatilityLevel(volatility)).riskLevel == VolatilityLevel(volatility)
  {
  }

  /** Comparing a non-negative volatility with a threshold is comparing its square with the squared threshold. */
  lemma {:induction false} SquareOrder(v: real, t: real)
    requires v >= 0.0 && t > 0.0
    ensures v < t <==> v * v < t * t
  {
    var vv, vt, tt := v * v, v * t, t * t;
    if v < t {
      assert vv <= vt;
      assert vt < tt;
    } else {
      assert vv >= vt;
      assert vt >= tt;
    }
  }

  /** The level of a variance, against the squared thresholds. */
  function VarianceLevel(variance: real): RiskLevel {
    if variance < LowVolatility * LowVolatility then Low
    else if variance > HighVolatility * HighVolatility then High
    else Medium
  }

  /** Classifying the variance against the squared thresholds gives the level of its square root. */
  lemma VarianceLevelIsVolatilityLevel(volatility: real)
    requires volatility >= 0.0
    ensures VolatilityLevel(volatility) == VarianceLevel(volatility * volatility)
  {
    SquareOrder(volatility, LowVolatility);
    SquareOrder(volatility, HighVolatility);
  }

  /** Fewer than two prices in the window give no returns, a variance of 0, and the low profile. */
  lemma FewPricesMeanLowRisk(symbol: string, prices: seq<TokenPrice>)
    requires PositivePrices(prices) && |prices| < 2
    ensures Returns(prices) == []
    ensures VarianceLevel(Variance(Returns(prices))) == Low
  {
  }

  // ---------------------------------------------------------------- the service

  class PriceService {
    /** The TokenPrice collection, in insertion order. */
    var samples: seq<TokenPrice>

    ghost predicate Valid()
      reads this
    {
      PositivePrices(samples)
    }

    constructor (stored: seq<TokenPrice>)
      requires PositivePrices(stored)
      ensures Valid() && samples == stored
    {
      samples := stored;
    }

    /**
     * fetchCurrentPrice: the live price, stored as a new sample; when the live fetch or
     * the store fails, the newest stored price of the symbol; and failing that, 1.0.
     */
    method FetchCurrentPrice(symbol: string, quotes: Quotes, now: Time) returns (price: Price)
      requires Valid()
      modifies this
      ensures Valid()
      ensures price == CurrentPrice(old(samples), symbol, quotes)
      ensures samples == old(samples) + Appended(symbol, quotes, now)
    {
      var tokenId := TokenId(symbol);
      var live := quotes(tokenId);
      if live.Some? {
        var created := NewSample(Some(symbol), Some(live.value as real), Some(now), now);
        if created.Ok? {
          samples := samples + [created.value];
          price := live.value;
          return;
        }
      }
      var latest := Latest(samples, symbol);
      if latest.Some? {
        price := latest.value.price;
      } else {
        price := DefaultPrice;
      }
    }

    /** getHistoricalPrices: the samples of `symbol` from the last `days` days, oldest first. */
    function GetHistoricalPrices(symbol: string, days: int, now: Time): (r: seq<TokenPrice>)
      reads this
      ensures forall s :: s in r <==> s in samples && s.symbol == symbol && s.timestamp >= WindowStart(now, days)
      ensures forall i, j :: 0 <= i < j < |r| ==> r[i].timestamp <= r[j].timestamp
      ensures forall s :: multiset(r)[s] == (if s.symbol == symbol && s.timestamp >= WindowStart(now, days) then multiset(samples)[s] else 0)
    {
      var start := WindowStart(now, days);
      var keep := (s: TokenPrice) => s.symbol == symbol && s.timestamp >= start;
      var window := Filter(samples, keep);
      FilterCount(samples, keep);
      SortByMembers(window, (s: TokenPrice) => s.timestamp);
      SortBy(window, (s: TokenPrice) => s.timestamp)
    }

    /** calculateMovingAverage: the mean price over the window, or the current price when the window is empty. */
    method CalculateMovingAverage(symbol: string, days: int, quotes: Quotes, now: Time) returns (average: real)
      requires Valid()
      modifies this
      ensures Valid()
      ensures old(GetHistoricalPrices(symbol, days, now)) == [] ==>
        average == CurrentPrice(old(samples), symbol, quotes) && samples == old(samples) + Appended(symbol, quotes, now)
      ensures old(GetHistoricalPrices(symbol, days, now)) != [] ==>
        average == Mean(PricesOf(old(GetHistoricalPrices(symbol, days, now)))) && samples == old(samples)
    {
      var prices := GetHistoricalPrices(symbol, days, now);
      if |prices| == 0 {
        var current := FetchCurrentPrice(symbol, quotes, now);
        average := current;
        return;
      }
      average := Sum(PricesOf(prices)) / |prices| as real;
    }

    /** calculateMovingAverage over a non-empty window lies between its lowest and highest price. */
    lemma MovingAverageWithinWindow(symbol: string, days: int, now: Time, lo: real, hi: real)
      requires GetHistoricalPrices(symbol, days, now) != []
      requires forall s :: s in samples && s.symbol == symbol ==> lo <= s.price <= hi
      ensures lo <= Mean(PricesOf(GetHistoricalPrices(symbol, days, now))) <= hi
    {
      var window := GetHistoricalPrices(symbol, days, now);
      MeanBetween(PricesOf(window), lo, hi);
    }

    /** Every window of a valid store holds positive prices, so its daily returns are defined. */
    lemma WindowIsPositive(symbol: string, days: int, now: Time)
      requires Valid()
      ensures PositivePrices(GetHistoricalPrices(symbol, days, now))
    {
      var window := GetHistoricalPrices(symbol, days, now);
      assert forall s :: s in window ==> s in samples;
    }

    /** The daily-returns loop of analyzeRisk. */
    static method DailyReturns(prices: seq<TokenPrice>) returns (daily: seq<real>)
      requires PositivePrices(prices)
      ensures |daily| == if prices == [] then 0 else |prices| - 1
      ensures daily == Returns(prices)
    {
      ghost var expected := Returns(prices);
      daily := [];
      var i := 1;
      while i < |prices|
        invariant 1 <= i <= if prices == [] then 1 else |prices|
        invariant daily == expected[..i - 1]
      {
        assert prices[i - 1] in prices;
        var dailyReturn := (prices[i].price - prices[i - 1].price) / prices[i - 1].price;
        assert dailyReturn == expected[i - 1];
        daily := daily + [dailyReturn];
        assert expected[..i] == expected[..i - 1] + [expected[i - 1]];
        i := i + 1;
      }
      assert expected[..|expected|] == expected;
    }

    /**
     * analyzeRisk: the 30-day window's daily returns, their variance, and the classification;
     * it also fetches the current price, with that fetch's effect on the store.
     */
    method AnalyzeRisk(symbol: string, quotes: Quotes, now: Time) returns (analysis: RiskAnalysis)
      requires Valid()
      modifies this
      ensures Valid()
      ensures samples == old(samples) + Appended(symbol, quotes, now)
      ensures analysis == Profile(symbol, VarianceLevel(Variance(Returns(old(GetHistoricalPrices(symbol, 30, now))))))
    {
      WindowIsPositive(symbol, 30, now);
      var prices := GetHistoricalPrices(symbol, 30, now);
      var currentPrice := FetchCurrentPrice(symbol, quotes, now);
      var daily := DailyReturns(prices);
      var variance := Variance(daily);
      analysis := Classify(symbol, variance);
    }

    /** The classification step of analyzeRisk: medium unless the variance is below or above the thresholds. */
    static method Classify(symbol: string, variance: real) returns (analysis: RiskAnalysis)
      ensures analysis == Profile(symbol, VarianceLevel(variance))
    {
      var riskLevel := Medium;
      var suggestedInvestment := 20;
      var recommendation := "";
      ghost var level := VarianceLevel(variance);
      if variance < LowVolatility * LowVolatility {
        riskLevel := Low;
        suggestedInvestment := 10;
        recommendation := symbol + LowAdvice;
        assert level == Low;
      } else if variance > HighVolatility * HighVolatility {
        riskLevel := High;
        suggestedInvestment := 30;
        recommendation := symbol + HighAdvice;
        assert level == High;
      } else {
        recommendation := symbol + MediumAdvice;
        assert level == Medium;
      }
      analysis := RiskAnalysis(riskLevel, recommendation, suggestedInvestment);
      assert analysis == Profile(symbol, level);
    }
  }
}
