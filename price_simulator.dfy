/** The price tick (`simulatePriceUpdate`): one random-walk step for every
    entry of the market table, written back into the table in place, and the
    `updates` map that the broadcast sends. */
module PriceSimulator {
  import opened Js
  import opened StockData

  /** The value stored under a symbol in the returned `updates` object. */
  datatype PriceUpdate = PriceUpdate(symbol: string, price: real, change: real, changePercent: real)

  /** The reference (previous close) price `price - change` that
      `changePercent` divides by; the tick needs it to be non-zero. */
  predicate HasReference(q: Quote) {
    q.price - q.change != 0.0
  }

  /** The move percentage drawn for one tick from `r = Math.random()`. */
  function MovePercent(r: real): (pct: real)
    ensures 0.0 <= r < 1.0 ==> -0.25 <= pct < 0.25
  {
    (r - 0.5) * 0.5
  }

  /** The new price, change and change percent before `toFixed(2)`. */
  datatype RawTick = RawTick(price: real, change: real, changePercent: real)

  function RawTickOf(q: Quote, r: real): RawTick
    requires HasReference(q)
  {
    var priceChange := q.price * (MovePercent(r) / 100.0);
    var newChange := q.change + priceChange;
    RawTick(q.price + priceChange, newChange, (newChange / (q.price - q.change)) * 100.0)
  }

  /** The entry after one tick: the three written fields are the rounded raw
      values, every other field is the old one. */
  function TickQuote(q: Quote, r: real): (q': Quote)
    requires HasReference(q)
    ensures q'.symbol == q.symbol && q'.name == q.name && q'.volume == q.volume
    ensures q'.marketCap == q.marketCap && q'.pe == q.pe
    ensures q'.high52w == q.high52w && q'.low52w == q.low52w
    ensures q'.price == Round2(RawTickOf(q, r).price)
    ensures q'.change == Round2(RawTickOf(q, r).change)
    ensures q'.changePercent == Round2(RawTickOf(q, r).changePercent)
  {
    var raw := RawTickOf(q, r);
    q.(price := Round2(raw.price), change := Round2(raw.change), changePercent := Round2(raw.changePercent))
  }

  /** Before rounding, the change moves by exactly as much as the price, so
      the reference price `price - change` is what it was. */
  lemma ReferencePricePreserved(q: Quote, r: real)
    requires HasReference(q)
    ensures RawTickOf(q, r).price - RawTickOf(q, r).change == q.price - q.change
    ensures RawTickOf(q, r).change - q.change == RawTickOf(q, r).price - q.price
  {
  }

  /** Before rounding, the new change percent is the new change over the
      (unchanged) reference price: the quote invariant
      `changePercent == change / (price - change) * 100` holds for the new
      values. */
  lemma ChangePercentConsistent(q: Quote, r: real)
    requires HasReference(q)
    ensures var raw := RawTickOf(q, r);
      raw.price - raw.change != 0.0 &&
      raw.changePercent == raw.change / (raw.price - raw.change) * 100.0
  {
    ReferencePricePreserved(q, r);
  }

  /** Before rounding, one tick multiplies the price by a factor in
      [0.9975, 1.0025), so a positive price stays positive. */
  lemma {:induction false} TickKeepsPricePositive(q: Quote, r: real)
    requires HasReference(q)
    requires 0.0 <= r < 1.0
    requires q.price > 0.0
    ensures RawTickOf(q, r).price >= q.price * 0.9975
    ensures RawTickOf(q, r).price < q.price * 1.0025
    ensures RawTickOf(q, r).price > 0.0
  {
    var factor := 1.0 + MovePercent(r) / 100.0;
    var p := RawTickOf(q, r).price;
    assert p == q.price * factor;
    assert 0.9975 <= factor < 1.0025;
    MulMonotone(q.price, 0.9975, factor);
    MulStrictMonotone(q.price, factor, 1.0025);
  }

  lemma MulMonotone(p: real, a: real, b: real)
    requires p > 0.0 && a <= b
    ensures p * a <= p * b
  {
  }

  lemma MulStrictMonotone(p: real, a: real, b: real)
    requires p > 0.0 && a < b
    ensures p * a < p * b
  {
  }

  /** After rounding, a price of at least one cent stays positive. */
  lemma {:induction false} TickKeepsCentPricePositive(q: Quote, r: real)
    requires HasReference(q)
    requires 0.0 <= r < 1.0
    requires q.price >= 0.01
    ensures TickQuote(q, r).price > 0.0
  {
    TickKeepsPricePositive(q, r);
    MulMonotone(0.9975, 0.01, q.price);
  }

  /** After rounding, the reference price drifts by at most one cent a tick. */
  lemma {:induction false} RoundedReferenceDrift(q: Quote, r: real)
    requires HasReference(q)
    ensures var q' := TickQuote(q, r);
      -0.01 <= (q'.price - q'.change) - (q.price - q.change) <= 0.01
  {
    ReferencePricePreserved(q, r);
  }

  /** The whole table after one tick; `rs[i]` is the draw for entry `i`. */
  function TickAll(t: seq<Quote>, rs: seq<real>): (t': seq<Quote>)
    requires |rs| == |t|
    requires forall i :: 0 <= i < |t| ==> HasReference(t[i])
    ensures |t'| == |t|
    ensures forall i :: 0 <= i < |t| ==> t'[i] == TickQuote(t[i], rs[i])
  {
    seq(|t|, i requires 0 <= i < |t| => TickQuote(t[i], rs[i]))
  }

  /** A tick never adds, drops or reorders keys, so the table keeps the
      seeded keys, keeps them distinct and keeps every name. */
  lemma TickKeepsKeys(t: seq<Quote>, rs: seq<real>)
    requires |rs| == |t|
    requires forall i :: 0 <= i < |t| ==> HasReference(t[i])
    ensures HasMockKeys(t) ==> HasMockKeys(TickAll(t, rs))
    ensures DistinctSymbols(t) ==> DistinctSymbols(TickAll(t, rs))
    ensures Named(t) ==> Named(TickAll(t, rs))
  {
  }

  function UpdateOf(q: Quote): PriceUpdate {
    PriceUpdate(q.symbol, q.price, q.change, q.changePercent)
  }

  /** The `updates` object built by the `forEach` over the first `|t|` keys. */
  function UpdatesOf(t: seq<Quote>): map<string, PriceUpdate> {
    if t == [] then map[] else UpdatesOf(t[..|t| - 1])[t[|t| - 1].symbol := UpdateOf(t[|t| - 1])]
  }

  /** `updates` has exactly one entry per key of the table. */
  lemma {:induction false} UpdatesKeys(t: seq<Quote>)
    ensures UpdatesOf(t).Keys == set i | 0 <= i < |t| :: t[i].symbol
  {
    if t != [] {
      var init := t[..|t| - 1];
      UpdatesKeys(init);
      assert forall i :: 0 <= i < |init| ==> init[i] == t[i];
      assert (set i | 0 <= i < |t| :: t[i].symbol) == (set i | 0 <= i < |init| :: init[i].symbol) + {t[|t| - 1].symbol};
    }
  }

  /** With distinct keys, the entry under each key repeats that key's (new)
      price, change and change percent. */
  lemma {:induction false} UpdatesMatchTable(t: seq<Quote>)
    requires DistinctSymbols(t)
    ensures forall i :: 0 <= i < |t| ==> t[i].symbol in UpdatesOf(t) && UpdatesOf(t)[t[i].symbol] == UpdateOf(t[i])
  {
    if t != [] {
      var init, last := t[..|t| - 1], t[|t| - 1];
      assert forall i :: 0 <= i < |init| ==> init[i] == t[i];
      UpdatesMatchTable(init);
      forall i | 0 <= i < |init| ensures UpdatesOf(t)[t[i].symbol] == UpdateOf(t[i]) {
        assert t[i].symbol != last.symbol;
      }
    }
  }

  /** `simulatePriceUpdate()` over the table `stocks`, with `rs[i]` the draw
      of `Math.random()` for entry `i`: every entry is rewritten in place by
      one tick, and the result maps each key to its new values. */
  method SimulatePriceUpdate(stocks: array<Quote>, rs: seq<real>) returns (updates: map<string, PriceUpdate>)
    requires |rs| == stocks.Length
    requires forall i :: 0 <= i < stocks.Length ==> HasReference(stocks[i])
    modifies stocks
    ensures stocks[..] == TickAll(old(stocks[..]), rs)
    ensures updates == UpdatesOf(stocks[..])
  {
    updates := map[];
    var i := 0;
    while i < stocks.Length
      invariant 0 <= i <= stocks.Length
      invariant forall k :: 0 <= k < i ==> stocks[k] == TickQuote(old(stocks[k]), rs[k])
      invariant forall k :: i <= k < stocks.Length ==> stocks[k] == old(stocks[k])
      invariant updates == UpdatesOf(stocks[..i])
    {
      stocks[i] := TickQuote(stocks[i], rs[i]);
      updates := updates[stocks[i].symbol := UpdateOf(stocks[i])];
      assert stocks[..i + 1][..i] == stocks[..i];
      i := i + 1;
    }
    assert stocks[..stocks.Length] == stocks[..];
  }
}
