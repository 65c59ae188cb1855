/** The rule-based assistant: the trend prediction for one stock, the top
    three gainers, the news summary, and the chat dispatcher whose buy
    branch applies the ledger's purchase rule. */
module AiAgent {
  import opened Js
  import opened Sorting
  import opened StockData
  import opened Portfolio

  // ------------------------------------------------------------ prediction

  /** The five bands of `changePercent`. */
  datatype Band = StrongUptrend | LikelyUptrend | BearishTrend | SlightlyBearish | Sideways

  /** The band a change percent falls in; exactly one applies. */
  function BandOf(cp: real): (b: Band)
    ensures b == StrongUptrend <==> cp > 1.5
    ensures b == LikelyUptrend <==> 0.5 < cp <= 1.5
    ensures b == BearishTrend <==> cp < -1.5
    ensures b == SlightlyBearish <==> -1.5 <= cp < -0.5
    ensures b == Sideways <==> -0.5 <= cp <= 0.5
  {
    if cp > 1.5 then StrongUptrend
    else if cp > 0.5 then LikelyUptrend
    else if cp < -1.5 then BearishTrend
    else if cp < -0.5 then SlightlyBearish
    else Sideways
  }

  function Label(b: Band): string {
    match b
    case StrongUptrend => "Strong Uptrend"
    case LikelyUptrend => "Likely Uptrend"
    case BearishTrend => "Bearish Trend"
    case SlightlyBearish => "Slightly Bearish"
    case Sideways => "Sideways Movement"
  }

  function Confidence(b: Band): nat {
    match b
    case StrongUptrend => 85
    case LikelyUptrend => 72
    case BearishTrend => 80
    case SlightlyBearish => 68
    case Sideways => 75
  }

  function Color(b: Band): string {
    match b
    case StrongUptrend => "green"
    case LikelyUptrend => "green"
    case BearishTrend => "red"
    case SlightlyBearish => "red"
    case Sideways => "yellow"
  }

  function Icon(b: Band): string {
    match b
    case StrongUptrend => "\U{1F4C8}"
    case LikelyUptrend => "\U{1F4C8}"
    case BearishTrend => "\U{1F4C9}"
    case SlightlyBearish => "\U{1F4C9}"
    case Sideways => "\U{27A1}\U{FE0F}"
  }

  /** The bands from most bearish to most bullish. */
  function Rank(b: Band): nat {
    match b
    case BearishTrend => 0
    case SlightlyBearish => 1
    case Sideways => 2
    case LikelyUptrend => 3
    case StrongUptrend => 4
  }

  /** A larger change never gives a more bearish band, and the colour is
      green exactly for the two uptrend bands and red for the two downtrend
      bands. */
  lemma {:induction false} BandsOrdered(cp1: real, cp2: real)
    requires cp1 <= cp2
    ensures Rank(BandOf(cp1)) <= Rank(BandOf(cp2))
    ensures Color(BandOf(cp1)) == "green" <==> cp1 > 0.5
    ensures Color(BandOf(cp1)) == "red" <==> cp1 < -0.5
  {
  }

  /** The object `getPrediction` returns. `momentumPositive` is the choice
      the three `reasoning` sentences make (`changePercent >= 0`); their
      wording is not modelled. */
  datatype Prediction = Prediction(
    symbol: string,
    name: string,
    currentPrice: real,
    prediction: string,
    icon: string,
    confidence: nat,
    color: string,
    momentumPositive: bool,
    targetPrice: real,
    timeframe: string)

  /** `getPrediction(symbol)`: `null` for an unknown symbol; otherwise the
      band of the stock's change percent and a target 5% above the price
      when the change is not negative, 5% below otherwise, to the cent. */
  function GetPrediction(t: seq<Quote>, symbol: string): (r: Option<Prediction>)
    ensures r.None? <==> GetStockBySymbol(t, symbol).None?
    ensures r.Some? ==>
      var q := GetStockBySymbol(t, symbol).value;
      var b := BandOf(q.changePercent);
      && r.value.symbol == q.symbol && r.value.name == q.name && r.value.currentPrice == q.price
      && r.value.prediction == Label(b) && r.value.confidence == Confidence(b)
      && r.value.color == Color(b) && r.value.icon == Icon(b)
      && r.value.momentumPositive == (q.changePercent >= 0.0)
      && -0.005 <= r.value.targetPrice - q.price * (if q.changePercent >= 0.0 then 1.05 else 0.95) <= 0.005
  {
    match GetStockBySymbol(t, symbol)
    case None => None
    case Some(q) =>
      var b := BandOf(q.changePercent);
      var multiplier := if q.changePercent >= 0.0 then 1.05 else 0.95;
      Some(Prediction(q.symbol, q.name, q.price, Label(b), Icon(b), Confidence(b), Color(b),
                      q.changePercent >= 0.0, Round2(q.price * multiplier), "1-2 weeks"))
  }

  /** For a price above ten cents the target lies above the price after a
      non-negative change and below it after a negative one. */
  lemma TargetFollowsMomentum(t: seq<Quote>, symbol: string)
    requires GetStockBySymbol(t, symbol).Some?
    requires GetStockBySymbol(t, symbol).value.price > 0.1
    ensures var q := GetStockBySymbol(t, symbol).value;
      var p := GetPrediction(t, symbol).value;
      (q.changePercent >= 0.0 ==> p.targetPrice > q.price) && (q.changePercent < 0.0 ==> p.targetPrice < q.price)
  {
  }

  // -------------------------------------------------------- recommendations

  /** One of `topPicks`; `change` is the stock's change percent. */
  datatype Pick = Pick(symbol: string, name: string, price: real, change: real, reason: string)

  const StrongMomentum := "Strong upward momentum"
  const PositiveAction := "Positive price action"

  function PickOf(q: Quote): (p: Pick)
    ensures p.symbol == q.symbol && p.price == q.price && p.change == q.changePercent
    ensures p.reason == StrongMomentum <==> q.changePercent > 1.0
  {
    Pick(q.symbol, q.name, q.price, q.changePercent, if q.changePercent > 1.0 then StrongMomentum else PositiveAction)
  }

  function ChangePercentOf(q: Quote): real {
    q.changePercent
  }

  /** `getRecommendations()`'s `topPicks`: the table sorted by change
      percent, largest first (ties in table order), cut to three. */
  function TopPicks(t: seq<Quote>): (r: seq<Pick>)
    ensures |r| == Min(3, |t|)
    ensures forall i, j :: 0 <= i < j < |r| ==> r[i].change >= r[j].change
    ensures forall k :: 0 <= k < |r| ==> (r[k].reason == StrongMomentum <==> r[k].change > 1.0)
  {
    var sorted := SortDesc(t, ChangePercentOf);
    var n := Min(3, |t|);
    seq(n, k requires 0 <= k < n => PickOf(sorted[k]))
  }

  /** The picks are the picks of the first `min(3, |t|)` entries of the table
      rearranged, stably, into descending order of change percent: entries
      of equal change keep their table order, so of two stocks tied for the
      last place the earlier one in the table is picked. */
  lemma {:induction false} TopPicksOfSortedTable(t: seq<Quote>)
    ensures exists s: seq<Quote> ::
      && multiset(s) == multiset(t) && SortedDesc(s, ChangePercentOf)
      && (forall v :: WithKey(s, ChangePercentOf, v) == WithKey(t, ChangePercentOf, v))
      && |TopPicks(t)| == Min(3, |t|) <= |s|
      && (forall k :: 0 <= k < |TopPicks(t)| ==> TopPicks(t)[k] == PickOf(s[k]))
  {
    var s := SortDesc(t, ChangePercentOf);
    SortDescStable(t, ChangePercentOf);
    TopPicksOfSort(t);
    assert SortedDesc(s, ChangePercentOf) && multiset(s) == multiset(t);
  }

  lemma TopPicksOfSort(t: seq<Quote>)
    ensures var s := SortDesc(t, ChangePercentOf);
      && |TopPicks(t)| == Min(3, |t|) <= |s|
      && forall k :: 0 <= k < |TopPicks(t)| ==> TopPicks(t)[k] == PickOf(s[k])
  {
  }

  /** Every pick is the pick of a stock of the table. */
  lemma {:induction false} PicksComeFromTable(t: seq<Quote>)
    ensures forall p :: p in TopPicks(t) ==> exists q :: q in t && p == PickOf(q)
  {
    var sorted := SortDesc(t, ChangePercentOf);
    var r := TopPicks(t);
    forall p | p in r ensures exists q :: q in t && p == PickOf(q) {
      var k :| 0 <= k < |r| && r[k] == p;
      assert multiset(sorted) == multiset(t);
      assert sorted[k] in multiset(sorted);
      assert r[k] == PickOf(sorted[k]);
    }
  }

  /** The picks are the top gainers: a stock whose pick was not chosen has
      a change percent no larger than any chosen one. */
  lemma {:induction false} TopPicksAreTop(t: seq<Quote>, q: Quote)
    requires q in t && PickOf(q) !in TopPicks(t)
    ensures forall k :: 0 <= k < |TopPicks(t)| ==> q.changePercent <= TopPicks(t)[k].change
  {
    var sorted := SortDesc(t, ChangePercentOf);
    var n := Min(3, |t|);
    assert q in multiset(sorted);
    assert forall k :: 0 <= k < n ==> TopPicks(t)[k] == PickOf(sorted[k]);
    assert q !in sorted[..n];
    TopOfSorted(sorted, ChangePercentOf, n, q);
    assert forall k :: 0 <= k < n ==> TopPicks(t)[k].change == sorted[k].changePercent;
  }

  /** The object `getRecommendations` returns; the three suggestion texts
      are fixed. */
  datatype Recommendations = Recommendations(topPicks: seq<Pick>, riskLevel: string, diversificationScore: nat)

  function GetRecommendations(t: seq<Quote>): (r: Recommendations)
    ensures r.topPicks == TopPicks(t) && |r.topPicks| <= 3
    ensures r.riskLevel == "Moderate" && r.diversificationScore == 75
  {
    Recommendations(TopPicks(t), "Moderate", 75)
  }

  // ------------------------------------------------------------------ news

  /** The object `getNewsSummary` returns, with the word choices of its
      sentences in place of their text. */
  datatype News = News(
    symbol: string,
    sentiment: string,
    momentum: string,
    outlook: string,
    marketSentiment: string,
    volume: string)

  /** `getNewsSummary(symbol)`: `null` for an unknown symbol; otherwise
      Positive/Bullish exactly for a positive change, "positive momentum"
      for a non-negative one, and optimistic/cautious/monitoring for a
      change above 1, below -1, or in between. */
  function GetNewsSummary(t: seq<Quote>, symbol: string): (r: Option<News>)
    ensures r.None? <==> GetStockBySymbol(t, symbol).None?
    ensures r.Some? ==>
      var cp := GetStockBySymbol(t, symbol).value.changePercent;
      && (r.value.sentiment == "Positive" <==> cp > 0.0)
      && (r.value.marketSentiment == "Bullish" <==> cp > 0.0)
      && (r.value.momentum == "positive momentum" <==> cp >= 0.0)
      && (r.value.outlook == "optimistic" <==> cp > 1.0)
      && (r.value.outlook == "cautious" <==> cp < -1.0)
  {
    match GetStockBySymbol(t, symbol)
    case None => None
    case Some(q) =>
      var cp := q.changePercent;
      Some(News(q.symbol,
                if cp > 0.0 then "Positive" else "Negative",
                if cp >= 0.0 then "positive momentum" else "downward pressure",
                if cp > 1.0 then "optimistic" else if cp < -1.0 then "cautious" else "monitoring",
                if cp > 0.0 then "Bullish" else "Bearish",
                q.volume))
  }

  /** On a flat day the summary is mixed: Negative and Bearish, yet
      "positive momentum". */
  lemma FlatDayIsNegative(t: seq<Quote>, symbol: string)
    requires GetStockBySymbol(t, symbol).Some? && GetStockBySymbol(t, symbol).value.changePercent == 0.0
    ensures GetNewsSummary(t, symbol).value.sentiment == "Negative"
    ensures GetNewsSummary(t, symbol).value.marketSentiment == "Bearish"
    ensures GetNewsSummary(t, symbol).value.momentum == "positive momentum"
  {
  }

  // ------------------------------------------------------ symbol detection

  /** The first entry, in table order, whose lower-cased key occurs in the
      lower-cased message. */
  function FirstTicker(t: seq<Quote>, lower: string): (r: Option<nat>)
    ensures r.Some? ==> r.value < |t| && Contains(lower, ToLower(t[r.value].symbol))
    ensures r.Some? ==> forall j :: 0 <= j < r.value ==> !Contains(lower, ToLower(t[j].symbol))
    ensures r.None? <==> forall j :: 0 <= j < |t| ==> !Contains(lower, ToLower(t[j].symbol))
  {
    if t == [] then None
    else if Contains(lower, ToLower(t[0].symbol)) then Some(0)
    else
      match FirstTicker(t[1..], lower)
      case None => None
      case Some(k) => Some(k + 1)
  }

  function TickerSymbol(t: seq<Quote>, lower: string): Option<string> {
    match FirstTicker(t, lower)
    case None => None
    case Some(i) => Some(t[i].symbol)
  }

  /** The company-name fallback, tried in this order. */
  function KeywordSymbol(lower: string): (r: Option<string>)
    ensures r.Some? ==> r.value in MockSymbols()
    ensures Contains(lower, "apple") ==> r == Some("AAPL")
  {
    if Contains(lower, "apple") then Some("AAPL")
    else if Contains(lower, "google") || Contains(lower, "alphabet") then Some("GOOGL")
    else if Contains(lower, "microsoft") then Some("MSFT")
    else if Contains(lower, "amazon") then Some("AMZN")
    else if Contains(lower, "tesla") then Some("TSLA")
    else if Contains(lower, "nvidia") then Some("NVDA")
    else if Contains(lower, "meta") || Contains(lower, "facebook") then Some("META")
    else if Contains(lower, "netflix") then Some("NFLX")
    else None
  }

  /** The symbol the chat acts on: the first ticker in the message, and the
      company names only when no ticker occurs. It is always a key of the
      table. */
  function DetectedSymbol(t: seq<Quote>, lower: string): (r: Option<string>)
    requires HasMockKeys(t)
    ensures TickerSymbol(t, lower).Some? ==> r == TickerSymbol(t, lower)
    ensures TickerSymbol(t, lower).None? ==> r == KeywordSymbol(lower)
    ensures r.Some? ==> exists j :: 0 <= j < |t| && t[j].symbol == r.value
  {
    match TickerSymbol(t, lower)
    case Some(s) => Some(s)
    case None =>
      var k := KeywordSymbol(lower);
      if k.Some? then
        assert exists j :: 0 <= j < |MockSymbols()| && MockSymbols()[j] == k.value;
        var j :| 0 <= j < |MockSymbols()| && MockSymbols()[j] == k.value;
        assert t[j].symbol == k.value;
        k
      else k
  }

  /** The `for ... of Object.keys(mockStocks)` loop with its `break`. */
  method DetectTicker(t: seq<Quote>, lower: string) returns (symbol: Option<string>)
    ensures symbol == TickerSymbol(t, lower)
  {
    symbol := None;
    var i := 0;
    while i < |t|
      invariant 0 <= i <= |t|
      invariant symbol.None?
      invariant forall j :: 0 <= j < i ==> !Contains(lower, ToLower(t[j].symbol))
    {
      if Contains(lower, ToLower(t[i].symbol)) {
        symbol := Some(t[i].symbol);
        assert FirstTicker(t, lower) == Some(i) by {
          FirstTickerAt(t, lower, i);
        }
        return;
      }
      i := i + 1;
    }
  }

  lemma {:induction false} FirstTickerAt(t: seq<Quote>, lower: string, i: nat)
    requires i < |t| && Contains(lower, ToLower(t[i].symbol))
    requires forall j :: 0 <= j < i ==> !Contains(lower, ToLower(t[j].symbol))
    ensures FirstTicker(t, lower) == Some(i)
  {
    var r := FirstTicker(t, lower);
    assert r.Some?;
    assert !(r.value < i);
    assert !(i < r.value);
  }

  // --------------------------------------------------------- share counts

  predicate IsDigit(c: char) {
    '0' <= c <= '9'
  }

  /** The characters `\s` matches. */
  predicate IsSpace(c: char) {
    c == '\t' || c == '\n' || c == '\U{000B}' || c == '\U{000C}' || c == '\r' || c == ' ' ||
    c == '\U{00A0}' || c == '\U{1680}' || ('\U{2000}' <= c <= '\U{200A}') || c == '\U{2028}' ||
    c == '\U{2029}' || c == '\U{202F}' || c == '\U{205F}' || c == '\U{3000}' || c == '\U{FEFF}'
  }

  /** The end of the digit run starting at `p`. */
  function RunEnd(s: string, p: nat): (e: nat)
    requires p <= |s|
    ensures p <= e <= |s|
    ensures forall k :: p <= k < e ==> IsDigit(s[k])
    ensures e == |s| || !IsDigit(s[e])
    decreases |s| - p
  {
    if p < |s| && IsDigit(s[p]) then RunEnd(s, p + 1) else p
  }

  /** The end of the whitespace run starting at `p`. */
  function SpaceEnd(s: string, p: nat): (e: nat)
    requires p <= |s|
    ensures p <= e <= |s|
    ensures forall k :: p <= k < e ==> IsSpace(s[k])
    ensures e == |s| || !IsSpace(s[e])
    decreases |s| - p
  {
    if p < |s| && IsSpace(s[p]) then SpaceEnd(s, p + 1) else p
  }

  /** `parseInt` of a string of decimal digits. */
  function DigitsValue(d: string): nat
    requires forall k :: 0 <= k < |d| ==> IsDigit(d[k])
  {
    if d == [] then 0
    else
      assert IsDigit(d[|d| - 1]);
      DigitsValue(d[..|d| - 1]) * 10 + (d[|d| - 1] as int - '0' as int)
  }

  /** `share` or `stock`, in any letter case, at position `w`. */
  predicate UnitAt(s: string, w: nat) {
    w + 5 <= |s| && (ToLower(s[w..w + 5]) == "share" || ToLower(s[w..w + 5]) == "stock")
  }

  /** `/(\d+)\s*(share|stock)/i` matches at position `p`. Greedy `\d+` and
      `\s*` cannot succeed by giving characters back (a shorter digit run is
      followed by a digit, shorter whitespace by whitespace), so the match at
      `p` takes the whole run of digits and of whitespace. */
  predicate PhraseAt(s: string, p: nat) {
    p < |s| && IsDigit(s[p]) && UnitAt(s, SpaceEnd(s, RunEnd(s, p)))
  }

  /** The leftmost match at or after `p`. */
  function FirstPhrase(s: string, p: nat): (r: Option<nat>)
    requires p <= |s|
    ensures r.Some? ==> p <= r.value < |s| && PhraseAt(s, r.value)
    decreases |s| - p
  {
    if p == |s| then None
    else if PhraseAt(s, p) then Some(p)
    else FirstPhrase(s, p + 1)
  }

  /** The match found is the leftmost: no position from `p` up to it, or
      up to the end when there is none, starts a match. */
  lemma {:induction false} FirstPhraseLeftmost(s: string, p: nat, q: nat)
    requires p <= q < |s|
    requires FirstPhrase(s, p).None? || q < FirstPhrase(s, p).value
    ensures !PhraseAt(s, q)
    decreases q - p
  {
    assert !PhraseAt(s, p);
    if q > p {
      assert FirstPhrase(s, p) == FirstPhrase(s, p + 1);
      FirstPhraseLeftmost(s, p + 1, q);
    }
  }

  /** `sharesMatch ? parseInt(sharesMatch[1]) : null`. */
  function SharesPhrase(s: string): Option<nat> {
    match FirstPhrase(s, 0)
    case None => None
    case Some(p) => Some(DigitsValue(s[p..RunEnd(s, p)]))
  }

  /** A digit before a match would make the match start there, so the
      leftmost match begins a run of digits: the count read is the whole
      number as written ("12 shares" is 12, not 2). */
  lemma {:induction false} PhraseStartsNumber(s: string)
    requires FirstPhrase(s, 0).Some?
    ensures var p := FirstPhrase(s, 0).value; p == 0 || !IsDigit(s[p - 1])
  {
    var p := FirstPhrase(s, 0).value;
    if p > 0 && IsDigit(s[p - 1]) {
      PhraseExtendsBack(s, p - 1);
      FirstPhraseLeftmost(s, 0, p - 1);
      assert false;
    }
  }

  /** A match right after a digit extends back over that digit. */
  lemma PhraseExtendsBack(s: string, q: nat)
    requires q + 1 < |s| && IsDigit(s[q]) && PhraseAt(s, q + 1)
    ensures PhraseAt(s, q)
  {
    assert RunEnd(s, q) == RunEnd(s, q + 1);
  }

  /** The first digit at or after `p`. */
  function FirstDigit(s: string, p: nat): (r: Option<nat>)
    requires p <= |s|
    ensures r.Some? ==> p <= r.value < |s| && IsDigit(s[r.value])
    ensures r.Some? ==> forall q :: p <= q < r.value ==> !IsDigit(s[q])
    ensures r.None? ==> forall q :: p <= q < |s| ==> !IsDigit(s[q])
    decreases |s| - p
  {
    if p == |s| then None
    else if IsDigit(s[p]) then Some(p)
    else FirstDigit(s, p + 1)
  }

  /** `message.match(/(\d+)/)`: the first number in the message. */
  function FirstNumber(s: string): Option<nat> {
    match FirstDigit(s, 0)
    case None => None
    case Some(p) => Some(DigitsValue(s[p..RunEnd(s, p)]))
  }

  /** The chat's share count: the number before "share"/"stock" when there
      is one and it is not 0, else the first number in the message (which
      may be 0), else 5. */
  function ChatShares(message: string): (n: nat)
    ensures SharesPhrase(message).Some? && SharesPhrase(message).value != 0 ==> n == SharesPhrase(message).value
    ensures (SharesPhrase(message).None? || SharesPhrase(message).value == 0) && FirstNumber(message).Some? ==>
      n == FirstNumber(message).value
    ensures FirstNumber(message).None? ==> n == 5
  {
    match SharesPhrase(message)
    case Some(k) =>
      if k != 0 then k
      else FirstNumber(message).value
    case None =>
      match FirstNumber(message)
      case Some(k) => k
      case None => 5
  }

  /** A match of the share pattern contains a digit, so without any digit
      in the message the chat buys the default 5 shares. */
  lemma {:induction false} NoDigitsBuysFive(message: string)
    requires forall k :: 0 <= k < |message| ==> !IsDigit(message[k])
    ensures ChatShares(message) == 5
  {
    assert FirstDigit(message, 0).None?;
    assert FirstPhrase(message, 0).None?;
  }

  // -------------------------------------------------------------- intents

  datatype Intent = PriceQuery | BuyOrder | PortfolioQuery | RecommendationQuery | BalanceQuery | General

  /** Some word of `words` occurs in the lower-cased message. */
  predicate Mentions(lower: string, words: seq<string>) {
    exists k :: 0 <= k < |words| && Contains(lower, words[k])
  }

  const PriceWords := ["price", "cost", "trading", "worth"]
  const BuyWords := ["buy", "purchase", "get", "invest"]
  const PortfolioWords := ["portfolio", "holdings", "stocks i own", "what do i have"]
  const RecommendWords := ["recommend", "suggest", "should i buy", "what to invest"]
  const BalanceWords := ["balance", "how much money", "cash"]

  /** The branch the message takes: the first whose words occur, in the
      order price, buy, portfolio, recommendations, balance; price and buy
      also need a detected symbol. */
  function ChatIntent(lower: string, hasSymbol: bool): (i: Intent)
    ensures i == PriceQuery <==> Mentions(lower, PriceWords) && hasSymbol
    ensures i == BuyOrder <==> !Mentions(lower, PriceWords) && Mentions(lower, BuyWords) && hasSymbol
    ensures i == PortfolioQuery <==>
      !(Mentions(lower, PriceWords) && hasSymbol) && !(Mentions(lower, BuyWords) && hasSymbol)
      && Mentions(lower, PortfolioWords)
    ensures i == RecommendationQuery <==>
      !(Mentions(lower, PriceWords) && hasSymbol) && !(Mentions(lower, BuyWords) && hasSymbol)
      && !Mentions(lower, PortfolioWords) && Mentions(lower, RecommendWords)
    ensures i == BalanceQuery <==>
      !(Mentions(lower, PriceWords) && hasSymbol) && !(Mentions(lower, BuyWords) && hasSymbol)
      && !Mentions(lower, PortfolioWords) && !Mentions(lower, RecommendWords) && Mentions(lower, BalanceWords)
    ensures i == General <==>
      !(Mentions(lower, PriceWords) && hasSymbol) && !(Mentions(lower, BuyWords) && hasSymbol)
      && !Mentions(lower, PortfolioWords) && !Mentions(lower, RecommendWords) && !Mentions(lower, BalanceWords)
  {
    if Mentions(lower, PriceWords) && hasSymbol then PriceQuery
    else if Mentions(lower, BuyWords) && hasSymbol then BuyOrder
    else if Mentions(lower, PortfolioWords) then PortfolioQuery
    else if Mentions(lower, RecommendWords) then RecommendationQuery
    else if Mentions(lower, BalanceWords) then BalanceQuery
    else General
  }

  /** "should i buy" and "what to invest" contain the buy words "buy" and
      "invest", so with a symbol and no price word such a question places
      an order instead of asking for recommendations. */
  lemma {:induction false} ShouldIBuyPlacesOrder(lower: string)
    requires Contains(lower, "should i buy") || Contains(lower, "what to invest")
    requires !Mentions(lower, PriceWords)
    ensures ChatIntent(lower, true) == BuyOrder
    ensures ChatIntent(lower, false) != BuyOrder
  {
    if Contains(lower, "should i buy") {
      var i :| OccursAt(lower, "should i buy", i);
      assert lower[i + 9..i + 12] == lower[i..i + 12][9..12];
      assert OccursAt(lower, "buy", i + 9);
      assert Contains(lower, BuyWords[0]);
    } else {
      var i :| OccursAt(lower, "what to invest", i);
      assert lower[i + 8..i + 14] == lower[i..i + 14][8..14];
      assert OccursAt(lower, "invest", i + 8);
      assert Contains(lower, BuyWords[3]);
    }
  }

  // ------------------------------------------------------------------ chat

  /** The `type` and `data` of a chat reply (the reply sentences are not
      modelled). */
  datatype ChatReply =
    | PriceReply(stock: Quote)
    | InsufficientBalanceReply(totalCost: real, balance: real)
    | BuySuccessReply(symbol: string, shares: nat, price: real, totalCost: real, newBalance: real)
    | PortfolioEmptyReply
    | PortfolioReply(holdings: seq<Holding>, totalInvested: real)
    | RecommendationReply(recs: Recommendations)
    | BalanceReply(balance: real)
    | GeneralReply

  /** The reply and the user's balance and holdings afterwards. */
  datatype ChatEffect = ChatEffect(reply: ChatReply, balance: real, holdings: seq<Holding>)

  /** The `reduce` of `shares * averagePrice` over the user's holdings. */
  function SumCost(hs: seq<Holding>): real {
    if hs == [] then 0.0 else SumCost(hs[..|hs| - 1]) + hs[|hs| - 1].shares * hs[|hs| - 1].averagePrice
  }

  function SumTotalInvested(hs: seq<Holding>): real {
    if hs == [] then 0.0 else SumTotalInvested(hs[..|hs| - 1]) + hs[|hs| - 1].totalInvested
  }

  /** With every holding's cost basis equal to shares times average price,
      the figure the portfolio reply labels "Total invested" is the sum of
      the cost bases. */
  lemma {:induction false} PortfolioTotalIsInvested(hs: seq<Holding>)
    requires forall k :: 0 <= k < |hs| ==> CostConsistent(hs[k])
    ensures SumCost(hs) == SumTotalInvested(hs)
  {
    if hs != [] {
      PortfolioTotalIsInvested(hs[..|hs| - 1]);
    }
  }

  /** The buy branch: `shares` of `stock` at the table price, by the
      ledger's purchase rule. */
  function ChatBuy(balance: real, hs: seq<Holding>, stock: Quote, user: UserId, shares: nat, now: int): (e: ChatEffect)
    ensures e.reply.BuySuccessReply? <==> balance >= shares as real * stock.price
    ensures e.reply.InsufficientBalanceReply? <==> balance < shares as real * stock.price
    ensures e.reply.InsufficientBalanceReply? ==>
      e == ChatEffect(InsufficientBalanceReply(shares as real * stock.price, balance), balance, hs)
    ensures e.reply.BuySuccessReply? ==>
      && e.reply == BuySuccessReply(stock.symbol, shares, stock.price, shares as real * stock.price, e.balance)
      && e.balance == balance - shares as real * stock.price && e.balance >= 0.0
      && e.holdings == BuyHoldings(hs, user, stock.symbol, stock.name, shares as real, stock.price, now)
  {
    var cost := shares as real * stock.price;
    var t := PurchaseTrade(balance, hs, user, stock.symbol, stock.name, shares as real, stock.price, now);
    if balance < cost then ChatEffect(InsufficientBalanceReply(cost, balance), t.balance, t.holdings)
    else ChatEffect(BuySuccessReply(stock.symbol, shares, stock.price, cost, t.balance), t.balance, t.holdings)
  }

  /** For a positive share count of a named quote with a non-zero price, a
      chat buy is `POST /buy` with the quote's symbol, name and table price:
      accepted in the same cases, leaving the same balance and holdings. */
  lemma ChatBuyIsBuyRoute(balance: real, hs: seq<Holding>, stock: Quote, user: UserId, shares: nat, now: int)
    requires shares > 0 && stock.symbol != "" && stock.name != "" && stock.price != 0.0
    ensures var e := ChatBuy(balance, hs, stock, user, shares, now);
      var req := BuyRequest(Some(stock.symbol), Some(stock.name), Some(shares as real), Some(stock.price));
      var t := BuyTrade(balance, hs, user, req, now);
      && (e.reply.BuySuccessReply? <==> t.response.Ok?)
      && e.balance == t.balance && e.holdings == t.holdings
  {
  }

  /** The portfolio branch: the user's holdings and their summed cost. */
  function PortfolioSummary(hs: seq<Holding>, user: UserId): ChatReply {
    var mine := UserHoldings(hs, user);
    if mine == [] then PortfolioEmptyReply else PortfolioReply(mine, SumCost(mine))
  }

  /** `processChatMessage` for `user` with the given balance and holdings,
      against the current market table. */
  function Chat(balance: real, hs: seq<Holding>, market: seq<Quote>, user: UserId, message: string, now: int): (e: ChatEffect)
    requires HasMockKeys(market)
    ensures var i := ChatIntent(ToLower(message), DetectedSymbol(market, ToLower(message)).Some?);
      && (e.reply.PriceReply? <==> i == PriceQuery)
      && (e.reply.BuySuccessReply? || e.reply.InsufficientBalanceReply? <==> i == BuyOrder)
      && (e.reply.PortfolioReply? || e.reply.PortfolioEmptyReply? <==> i == PortfolioQuery)
      && (e.reply.RecommendationReply? <==> i == RecommendationQuery)
      && (e.reply.BalanceReply? <==> i == BalanceQuery)
      && (e.reply.GeneralReply? <==> i == General)
    ensures e.reply.BalanceReply? ==> e.reply.balance == balance
    ensures e.reply.PriceReply? ==>
      && DetectedSymbol(market, ToLower(message)).Some?
      && Lookup(market, DetectedSymbol(market, ToLower(message)).value) == Some(e.reply.stock)
      && Some(e.reply.stock.symbol) == DetectedSymbol(market, ToLower(message))
    ensures e.reply.RecommendationReply? ==> e.reply.recs == GetRecommendations(market)
    ensures e.reply.PortfolioReply? ==>
      e.reply == PortfolioReply(UserHoldings(hs, user), SumCost(UserHoldings(hs, user))) && UserHoldings(hs, user) != []
    ensures e.reply.PortfolioEmptyReply? <==> ChatIntent(ToLower(message), DetectedSymbol(market, ToLower(message)).Some?) == PortfolioQuery && UserHoldings(hs, user) == []
  {
    var lower := ToLower(message);
    var symbol := DetectedSymbol(market, lower);
    match ChatIntent(lower, symbol.Some?)
    case PriceQuery =>
      ChatEffect(PriceReply(Lookup(market, symbol.value).value), balance, hs)
    case BuyOrder =>
      ChatBuy(balance, hs, Lookup(market, symbol.value).value, user, ChatShares(message), now)
    case PortfolioQuery =>
      ChatEffect(PortfolioSummary(hs, user), balance, hs)
    case RecommendationQuery =>
      ChatEffect(RecommendationReply(GetRecommendations(market)), balance, hs)
    case BalanceQuery =>
      ChatEffect(BalanceReply(balance), balance, hs)
    case General =>
      ChatEffect(GeneralReply, balance, hs)
  }

  /** A chat buy follows the ledger's purchase rule: refused without enough
      balance, and then nothing changes; otherwise the balance is debited
      exactly shares times the table price and the user's holding of the
      symbol grows by exactly those shares. */
  lemma {:induction false} ChatBuyFollowsPurchaseRule(balance: real, hs: seq<Holding>, stock: Quote, user: UserId, shares: nat, now: int)
    requires UniqueKeys(hs)
    ensures var e := ChatBuy(balance, hs, stock, user, shares, now);
      var cost := shares as real * stock.price;
      && (balance < cost ==> e == ChatEffect(InsufficientBalanceReply(cost, balance), balance, hs))
      && (balance >= cost ==>
            && e.reply == BuySuccessReply(stock.symbol, shares, stock.price, cost, balance - cost)
            && e.balance == balance - cost
            && SharesHeld(e.holdings, user, stock.symbol) == SharesHeld(hs, user, stock.symbol) + shares as real)
  {
    var e := ChatBuy(balance, hs, stock, user, shares, now);
    var cost := shares as real * stock.price;
    if balance < cost {
      assert e.reply.InsufficientBalanceReply?;
    } else {
      var t := PurchaseTrade(balance, hs, user, stock.symbol, stock.name, shares as real, stock.price, now);
      assert e.holdings == t.holdings == BuyHoldings(hs, user, stock.symbol, stock.name, shares as real, stock.price, now);
      BuyAddsShares(hs, user, stock.symbol, stock.name, shares as real, stock.price, now);
    }
  }

  /** Only a buy order changes the balance or the holdings, and a buy order
      is the buy branch on the table entry of the detected symbol. */
  lemma {:induction false} OnlyBuyChangesLedger(balance: real, hs: seq<Holding>, market: seq<Quote>, user: UserId, message: string, now: int)
    requires HasMockKeys(market)
    ensures var e := Chat(balance, hs, market, user, message, now);
      var lower := ToLower(message);
      var symbol := DetectedSymbol(market, lower);
      && (ChatIntent(lower, symbol.Some?) != BuyOrder ==> e.balance == balance && e.holdings == hs)
      && (ChatIntent(lower, symbol.Some?) == BuyOrder ==>
            e == ChatBuy(balance, hs, Lookup(market, symbol.value).value, user, ChatShares(message), now))
  {
  }

  /** The buy branch of `processChatMessage`: the ledger's purchase of
      `shares` of the table entry at its table price. */
  method ChatPurchase(ledger: Ledger, stock: Quote, user: UserId, shares: nat, now: int)
    returns (reply: ChatReply)
    requires ledger.Valid() && user in ledger.balances
    requires stock.symbol != "" && stock.name != ""
    modifies ledger
    ensures ledger.Valid()
    ensures var e := ChatBuy(old(ledger.balances[user]), old(ledger.holdings), stock, user, shares, now);
      reply == e.reply && ledger.balances == old(ledger.balances)[user := e.balance] && ledger.holdings == e.holdings
  {
    var totalCost := shares as real * stock.price;
    var r := ledger.Purchase(user, stock.symbol, stock.name, shares as real, stock.price, now);
    if r.Err? {
      return InsufficientBalanceReply(totalCost, ledger.balances[user]);
    }
    return BuySuccessReply(stock.symbol, shares, stock.price, totalCost, ledger.balances[user]);
  }

  /** `processChatMessage(message, userId, userBalance, ...)` on the ledger;
      `userBalance` is the user's balance when the message arrives. */
  method ProcessChatMessage(ledger: Ledger, market: seq<Quote>, user: UserId, message: string, now: int)
    returns (reply: ChatReply)
    requires ledger.Valid() && user in ledger.balances
    requires HasMockKeys(market) && Named(market)
    modifies ledger
    ensures ledger.Valid()
    ensures var e := Chat(old(ledger.balances[user]), old(ledger.holdings), market, user, message, now);
      reply == e.reply && ledger.balances == old(ledger.balances)[user := e.balance] && ledger.holdings == e.holdings
  {
    var lower := ToLower(message);
    var symbol := DetectTicker(market, lower);
    if symbol.None? {
      symbol := KeywordSymbol(lower);
    }
    assert symbol == DetectedSymbol(market, lower);
    ghost var intent := ChatIntent(lower, symbol.Some?);
    ghost var balance, hs := ledger.balances[user], ledger.holdings;
    ghost var e := Chat(balance, hs, market, user, message, now);
    assert ledger.balances == ledger.balances[user := balance];
    var shares := ChatShares(message);

    if Mentions(lower, PriceWords) && symbol.Some? {
      assert intent == PriceQuery;
      reply := PriceReply(Lookup(market, symbol.value).value);
      assert e == ChatEffect(reply, balance, hs);
      return;
    }

    if Mentions(lower, BuyWords) && symbol.Some? {
      assert intent == BuyOrder;
      var stock := Lookup(market, symbol.value).value;
      LookupNamed(market, symbol.value);
      assert e == ChatBuy(balance, hs, stock, user, shares, now);
      reply := ChatPurchase(ledger, stock, user, shares, now);
      return;
    }
    assert intent != PriceQuery && intent != BuyOrder;

    if Mentions(lower, PortfolioWords) {
      assert intent == PortfolioQuery;
      assert e == ChatEffect(PortfolioSummary(hs, user), balance, hs);
      var mine := UserHoldings(ledger.holdings, user);
      if |mine| == 0 {
        return PortfolioEmptyReply;
      }
      return PortfolioReply(mine, SumCost(mine));
    }

    if Mentions(lower, RecommendWords) {
      assert intent == RecommendationQuery;
      assert e == ChatEffect(RecommendationReply(GetRecommendations(market)), balance, hs);
      return RecommendationReply(GetRecommendations(market));
    }

    if Mentions(lower, BalanceWords) {
      assert intent == BalanceQuery;
      assert e == ChatEffect(BalanceReply(balance), balance, hs);
      return BalanceReply(ledger.balances[user]);
    }

    assert intent == General;
    assert e == ChatEffect(GeneralReply, balance, hs);
    return GeneralReply;
  }
}
