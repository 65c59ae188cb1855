/** The dashboard page's client state: the first six market quotes, kept
    current by pushed price updates, and the banner of the last triggered
    alert. */
module DashboardPage {
  import opened Js
  import opened WsClient
  import opened WatchlistPage

  /** The number of quotes the dashboard shows. */
  const Shown := 6

  /** `stocksRes.data.slice(0, 6)`: the first six quotes of the market
      list, or all of them when there are fewer. */
  function InitialStocks(all: seq<Obj>): (r: seq<Obj>)
    ensures |r| == Min(Shown, |all|)
    ensures forall k :: 0 <= k < |r| ==> r[k] == all[k]
  {
    all[..Min(Shown, |all|)]
  }

  /** `stock.symbol` as a property key, when it is a string. */
  function SymbolOf(o: Obj): Option<string> {
    if "symbol" in o && o["symbol"].Str? then Some(o["symbol"].s) else None
  }

  /** `{...stock, ...(data.data[stock.symbol] || {})}`. */
  function Refresh(stock: Obj, p: Payload): (r: Obj)
    ensures r.Keys >= stock.Keys
  {
    match SymbolOf(stock)
    case Some(s) =>
      (match Get(p, s)
       case Some(fields) => stock + fields
       case None => stock)
    case None => stock
  }

  /** The page's state. `banner` is `triggeredAlert`; `None` is null. */
  datatype Dashboard = Dashboard(stocks: seq<Obj>, banner: Option<Obj>)

  /** `handleWS(data)`. The result is `None` when the list updater throws:
      a `price_update` without a `data` object while the list is not empty,
      where `data.data[stock.symbol]` reads a property of undefined. */
  function HandleWS(d: Dashboard, msg: Message): (r: Option<Dashboard>)
    ensures r.None? <==> msg.kind == Str("price_update") && msg.data.None? && d.stocks != []
    ensures r.Some? ==> |r.value.stocks| == |d.stocks|
    ensures r.Some? && msg.kind != Str("price_update") ==> r.value.stocks == d.stocks
    ensures r.Some? ==> r.value.banner == if msg.kind == Str("alert_triggered") then msg.alert else d.banner
  {
    if msg.kind == Str("price_update") then
      match msg.data
      case None => if d.stocks == [] then Some(d) else None
      case Some(p) => Some(d.(stocks := seq(|d.stocks|, k requires 0 <= k < |d.stocks| => Refresh(d.stocks[k], p))))
    else if msg.kind == Str("alert_triggered") then
      Some(d.(banner := msg.alert))
    else Some(d)
  }

  /** A price update keeps the list's length and order: the quote at each
      position stays the same stock; one the update mentions takes the
      update's fields over its own, and any other stays as it was. */
  lemma {:induction false} PriceUpdateKeepsOrder(d: Dashboard, msg: Message, k: nat)
    requires msg.kind == Str("price_update") && msg.data.Some? && k < |d.stocks|
    ensures var r := HandleWS(d, msg).value.stocks; var s := SymbolOf(d.stocks[k]);
      var u := if s.Some? then Get(msg.data.value, s.value) else None;
      && (u.Some? ==> r[k] == d.stocks[k] + u.value)
      && (u.None? ==> r[k] == d.stocks[k])
      && (u.Some? && "symbol" !in u.value ==> SymbolOf(r[k]) == s)
  {
    var r := HandleWS(d, msg).value.stocks;
    assert r[k] == Refresh(d.stocks[k], msg.data.value);
  }

  /** The dashboard and the watchlist page agree: when the watchlist cache
      holds, under its symbol, the same quote the dashboard shows, both
      hold the same quote after a price update. */
  lemma PagesAgree(d: Dashboard, cache: Cache, msg: Message, k: nat)
    requires msg.kind == Str("price_update") && msg.data.Some? && k < |d.stocks|
    requires SymbolOf(d.stocks[k]).Some?
    requires SymbolOf(d.stocks[k]).value in cache && cache[SymbolOf(d.stocks[k]).value] == d.stocks[k]
    ensures HandlePriceUpdate(cache, msg)[SymbolOf(d.stocks[k]).value] == HandleWS(d, msg).value.stocks[k]
  {
    PriceUpdateMerges(cache, msg);
    PriceUpdateKeepsOrder(d, msg, k);
  }
}
