/** The mock market table (`mockStocks`) and its readers: lookup by symbol,
    price lookup, search, and the synthetic price history for charts. */
module StockData {
  import opened Js

  /** One entry of `mockStocks`. The table's key is the quote's own symbol. */
  datatype Quote = Quote(
    symbol: string,
    name: string,
    price: real,
    change: real,
    changePercent: real,
    volume: string,
    marketCap: string,
    pe: real,
    high52w: real,
    low52w: real)

  /** No two entries share a key, as in a JavaScript object. */
  ghost predicate DistinctSymbols(t: seq<Quote>) {
    forall i, j :: 0 <= i < j < |t| ==> t[i].symbol != t[j].symbol
  }

  /** The keys of `mockStocks`, in insertion order. */
  function MockSymbols(): seq<string> {
    ["AAPL", "GOOGL", "MSFT", "AMZN", "TSLA", "NVDA", "META", "NFLX"]
  }

  /** The table as seeded at process start. */
  function MockStocks(): seq<Quote> {
    [
      Quote("AAPL", "Apple Inc.", 178.45, 2.34, 1.33, "52.3M", "2.83T", 29.5, 198.23, 124.17),
      Quote("GOOGL", "Alphabet Inc.", 142.65, -1.24, -0.86, "28.1M", "1.79T", 27.3, 153.78, 102.21),
      Quote("MSFT", "Microsoft Corporation", 378.91, 4.56, 1.22, "22.4M", "2.82T", 35.1, 398.45, 309.45),
      Quote("AMZN", "Amazon.com Inc.", 156.23, 3.12, 2.04, "45.6M", "1.61T", 78.4, 171.28, 118.35),
      Quote("TSLA", "Tesla Inc.", 242.84, -5.67, -2.28, "112.3M", "771B", 75.2, 299.29, 152.37),
      Quote("NVDA", "NVIDIA Corporation", 495.22, 8.91, 1.83, "38.7M", "1.22T", 98.6, 502.66, 276.58),
      Quote("META", "Meta Platforms Inc.", 358.67, 6.45, 1.83, "15.2M", "913B", 28.7, 384.33, 224.21),
      Quote("NFLX", "Netflix Inc.", 445.78, -2.34, -0.52, "4.2M", "192B", 41.3, 485.23, 344.73)
    ]
  }

  /** The table has exactly the seeded keys in the seeded order. The simulator
      only rewrites prices, so this holds for the table's whole lifetime. */
  ghost predicate HasMockKeys(t: seq<Quote>) {
    |t| == |MockSymbols()| && forall i :: 0 <= i < |t| ==> t[i].symbol == MockSymbols()[i]
  }

  /** Every entry has a non-empty key and a company name. */
  ghost predicate Named(t: seq<Quote>) {
    forall i :: 0 <= i < |t| ==> t[i].symbol != "" && t[i].name != ""
  }

  /** The seeded table has the seeded keys, each once, and every entry a
      name. */
  lemma MockStocksWellFormed()
    ensures HasMockKeys(MockStocks())
    ensures DistinctSymbols(MockStocks())
    ensures Named(MockStocks())
  {
    var t := MockStocks();
    assert forall i :: 0 <= i < |t| ==> t[i].symbol == MockSymbols()[i];
    forall i | 0 <= i < |t| ensures SeedRow(t[i].symbol[0], t[i].symbol[1]) == i { }
    forall i, j | 0 <= i < j < |t| ensures t[i].symbol != t[j].symbol {
      assert SeedRow(t[i].symbol[0], t[i].symbol[1]) != SeedRow(t[j].symbol[0], t[j].symbol[1]);
    }
  }

  /** The row of a seeded key, told by its first two letters alone. */
  function SeedRow(c0: char, c1: char): int {
    match (c0, c1)
    case ('A', 'A') => 0
    case ('G', 'O') => 1
    case ('M', 'S') => 2
    case ('A', 'M') => 3
    case ('T', 'S') => 4
    case ('N', 'V') => 5
    case ('M', 'E') => 6
    case ('N', 'F') => 7
    case _ => -1
  }

  /** `mockStocks[key]`: the index of the entry whose key is exactly `key`. */
  function IndexOf(t: seq<Quote>, key: string): (r: Option<nat>)
    ensures r.Some? ==> r.value < |t| && t[r.value].symbol == key
    ensures r.Some? ==> forall j :: 0 <= j < r.value ==> t[j].symbol != key
    ensures r.None? <==> forall j :: 0 <= j < |t| ==> t[j].symbol != key
  {
    if |t| == 0 then None
    else if t[0].symbol == key then Some(0)
    else
      match IndexOf(t[1..], key)
      case None => None
      case Some(k) => Some(k + 1)
  }

  /** `mockStocks[key]`, or `undefined` when `key` is not a key. */
  function Lookup(t: seq<Quote>, key: string): (r: Option<Quote>)
    ensures r.Some? <==> exists j :: 0 <= j < |t| && t[j].symbol == key
    ensures r.Some? ==> r.value in t && r.value.symbol == key
  {
    match IndexOf(t, key)
    case None => None
    case Some(k) => Some(t[k])
  }

  /** In a named table, every entry found has a key and a name. */
  lemma LookupNamed(t: seq<Quote>, key: string)
    requires Named(t) && Lookup(t, key).Some?
    ensures Lookup(t, key).value.symbol != "" && Lookup(t, key).value.name != ""
  {
    var k := IndexOf(t, key).value;
    assert Lookup(t, key).value == t[k];
  }

  /** `getAllStocks()`: `Object.values(mockStocks)`, every entry in table order. */
  function GetAllStocks(t: seq<Quote>): (r: seq<Quote>)
    ensures |r| == |t| && forall i :: 0 <= i < |t| ==> r[i] == t[i]
  {
    t
  }

  /** `getStockBySymbol(symbol)`: case-insensitive lookup, `null` if unknown. */
  function GetStockBySymbol(t: seq<Quote>, symbol: string): (r: Option<Quote>)
    ensures r.Some? <==> exists j :: 0 <= j < |t| && t[j].symbol == ToUpper(symbol)
    ensures r.Some? ==> r.value in t && r.value.symbol == ToUpper(symbol)
  {
    Lookup(t, ToUpper(symbol))
  }

  /** `getStockPrice(symbol)`: the price of the entry found case-insensitively,
      `null` if unknown. */
  function GetStockPrice(t: seq<Quote>, symbol: string): (r: Option<real>)
    ensures r.Some? <==> GetStockBySymbol(t, symbol).Some?
    ensures r.Some? ==> exists j :: 0 <= j < |t| && t[j].symbol == ToUpper(symbol) && t[j].price == r.value
  {
    match GetStockBySymbol(t, symbol)
    case None => None
    case Some(q) => Some(q.price)
  }

  /** Looking a symbol up in any letter case finds the same entry. */
  lemma {:induction false} LookupIgnoresCase(t: seq<Quote>, a: string, b: string)
    requires ToUpper(a) == ToUpper(b)
    ensures GetStockBySymbol(t, a) == GetStockBySymbol(t, b)
    ensures GetStockPrice(t, a) == GetStockPrice(t, b)
  {
  }

  /** The filter predicate of `searchStocks`. */
  predicate MatchesQuery(q: Quote, query: string) {
    Contains(ToLower(q.symbol), ToLower(query)) || Contains(ToLower(q.name), ToLower(query))
  }

  /** `searchStocks(query)`: the entries whose symbol or name contains the
      query, ignoring case, in table order. */
  function SearchStocks(t: seq<Quote>, query: string): (r: seq<Quote>)
    ensures |r| <= |t|
    ensures forall q :: q in r <==> q in t && MatchesQuery(q, query)
  {
    if t == [] then []
    else
      var rest := SearchStocks(t[1..], query);
      assert t == [t[0]] + t[1..];
      if MatchesQuery(t[0], query) then [t[0]] + rest else rest
  }

  /** The search is an order-keeping filter: it distributes over
      concatenation and keeps a single entry exactly when it matches, so it
      returns the matching entries in table order, each as often as the
      table holds it. */
  lemma {:induction false} SearchStocksInOrder(a: seq<Quote>, b: seq<Quote>, query: string)
    ensures SearchStocks(a + b, query) == SearchStocks(a, query) + SearchStocks(b, query)
    ensures forall q :: SearchStocks([q], query) == if MatchesQuery(q, query) then [q] else []
  {
    SearchStocksAppend(a, b, query);
    forall q ensures SearchStocks([q], query) == if MatchesQuery(q, query) then [q] else [] {
      assert [q][1..] == [];
    }
  }

  lemma {:induction false} SearchStocksAppend(a: seq<Quote>, b: seq<Quote>, query: string)
    ensures SearchStocks(a + b, query) == SearchStocks(a, query) + SearchStocks(b, query)
  {
    if a == [] {
      assert a + b == b;
    } else {
      assert (a + b)[1..] == a[1..] + b;
      SearchStocksAppend(a[1..], b, query);
    }
  }

  /** The search keeps table order: it is the table with the non-matching
      entries removed, so a query every entry matches returns the whole table. */
  lemma {:induction false} SearchAllMatch(t: seq<Quote>, query: string)
    requires forall q :: q in t ==> MatchesQuery(q, query)
    ensures SearchStocks(t, query) == t
  {
    if t != [] {
      assert forall k :: 0 <= k < |t[1..]| ==> t[1..][k] == t[k + 1];
      SearchAllMatch(t[1..], query);
      assert MatchesQuery(t[0], query) by { assert t[0] in t; }
      assert SearchStocks(t, query) == [t[0]] + t[1..];
    }
  }

  /** The empty query matches every entry. */
  lemma EmptyQueryReturnsAll(t: seq<Quote>)
    ensures SearchStocks(t, "") == t
  {
    forall q | q in t ensures MatchesQuery(q, "") {
      ContainsEmpty(ToLower(q.symbol));
    }
    SearchAllMatch(t, "");
  }

  /** One point of the generated price history. `date` counts days, the
      calendar formatting of `toISOString()` is not modelled. */
  datatype HistoryPoint = HistoryPoint(date: int, price: real, volume: int)

  /** The point for `i` days ago, from two draws of `Math.random()`. */
  function HistoryPointAt(basePrice: real, today: int, i: int, draw: (real, real)): (p: HistoryPoint)
    requires 0.0 <= draw.1 < 1.0
    ensures p.date == today - i
    ensures p.price >= basePrice * 0.8
    ensures 10000000 <= p.volume < 60000000
  {
    var variance := (draw.0 - 0.5) * (basePrice * 0.05);
    var price := basePrice + variance - (i as real) * 0.1;
    HistoryPoint(today - i, Max(price, basePrice * 0.8), (draw.1 * 50000000.0).Floor + 10000000)
  }

  predicate ValidDraws(draws: seq<(real, real)>) {
    forall k :: 0 <= k < |draws| ==> 0.0 <= draws[k].0 < 1.0 && 0.0 <= draws[k].1 < 1.0
  }

  /** `generateHistoricalData(symbol, days)`: the key is NOT upper-cased; for
      an unknown key, or a negative `days`, the result is empty; otherwise
      `days + 1` points, oldest first, one per day up to `today`, each priced
      at least 80% of the current price. `draws[k]` are the two random
      numbers drawn in iteration `k`. */
  method GenerateHistoricalData(t: seq<Quote>, symbol: string, days: int, today: int, draws: seq<(real, real)>)
    returns (data: seq<HistoryPoint>)
    requires ValidDraws(draws)
    requires days < |draws|
    ensures Lookup(t, symbol).None? || days < 0 ==> data == []
    ensures Lookup(t, symbol).Some? && days >= 0 ==>
      |data| == days + 1 &&
      forall k :: 0 <= k < |data| ==>
        data[k] == HistoryPointAt(Lookup(t, symbol).value.price, today, days - k, draws[k]) &&
        data[k].date == today - days + k &&
        data[k].price >= Lookup(t, symbol).value.price * 0.8 &&
        10000000 <= data[k].volume < 60000000
  {
    var stock := Lookup(t, symbol);
    if stock.None? {
      return [];
    }
    data := [];
    var basePrice := stock.value.price;
    var i := days;
    while i >= 0
      invariant i <= days
      invariant days >= 0 ==> -1 <= i
      invariant days < 0 ==> i == days
      invariant |data| == days - i
      invariant forall k :: 0 <= k < |data| ==>
        data[k] == HistoryPointAt(basePrice, today, days - k, draws[k])
    {
      var k := days - i;
      var p := HistoryPointAt(basePrice, today, i, draws[k]);
      data := data + [p];
      i := i - 1;
    }
  }
}
