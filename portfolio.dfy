/** The trading ledger: `POST /buy`, `POST /sell` and `GET /summary` of the
    portfolio routes over the `Portfolio` collection and the users' cash
    balances. Each request is one atomic transition of the store. */
module Portfolio {
  import opened Js
  import opened StockData

  /** A `Portfolio` document. All fields but `purchaseDate` are required;
      `purchaseDate` defaults to the creation time. The numbers carry no
      range constraint of their own. */
  datatype Holding = Holding(
    userId: UserId,
    symbol: string,
    name: string,
    shares: real,
    averagePrice: real,
    totalInvested: real,
    purchaseDate: int)

  predicate IsKey(h: Holding, user: UserId, symbol: string) {
    h.userId == user && h.symbol == symbol
  }

  /** The `{ userId, symbol }` index is not unique: one holding per user and
      symbol is a property that buy's find-then-merge has to maintain. */
  ghost predicate UniqueKeys(hs: seq<Holding>) {
    forall i, j :: 0 <= i < j < |hs| ==> !(hs[i].userId == hs[j].userId && hs[i].symbol == hs[j].symbol)
  }

  /** The cost basis agrees with the average price. */
  ghost predicate CostConsistent(h: Holding) {
    h.totalInvested == h.shares * h.averagePrice
  }

  /** What every reachable collection satisfies: one holding per key, the
      required strings non-empty, no negative share count, and
      `totalInvested == shares * averagePrice`. */
  ghost predicate ValidHoldings(hs: seq<Holding>) {
    && UniqueKeys(hs)
    && forall i :: 0 <= i < |hs| ==>
         hs[i].symbol != "" && hs[i].name != "" && hs[i].shares >= 0.0 && CostConsistent(hs[i])
  }

  /** `Portfolio.findOne({ userId, symbol })`: the first matching document. */
  function FindHolding(hs: seq<Holding>, user: UserId, symbol: string): (r: Option<nat>)
    ensures r.Some? ==> r.value < |hs| && IsKey(hs[r.value], user, symbol)
    ensures r.Some? ==> forall j :: 0 <= j < r.value ==> !IsKey(hs[j], user, symbol)
    ensures r.None? <==> forall j :: 0 <= j < |hs| ==> !IsKey(hs[j], user, symbol)
  {
    if |hs| == 0 then None
    else if IsKey(hs[0], user, symbol) then Some(0)
    else
      match FindHolding(hs[1..], user, symbol)
      case None => None
      case Some(k) => Some(k + 1)
  }

  /** With one holding per key, the holding found is the only one. */
  lemma FindHoldingUnique(hs: seq<Holding>, user: UserId, symbol: string, j: nat)
    requires UniqueKeys(hs)
    requires j < |hs| && IsKey(hs[j], user, symbol)
    ensures FindHolding(hs, user, symbol) == Some(j)
  {
  }

  /** The shares a user holds of a symbol; zero without a holding. */
  function SharesHeld(hs: seq<Holding>, user: UserId, symbol: string): real {
    match FindHolding(hs, user, symbol)
    case None => 0.0
    case Some(i) => hs[i].shares
  }

  /** `Portfolio.find({ userId })`, in collection order. */
  function UserHoldings(hs: seq<Holding>, user: UserId): (r: seq<Holding>)
    ensures |r| <= |hs|
    ensures forall h :: h in r <==> h in hs && h.userId == user
  {
    if hs == [] then []
    else
      assert hs == [hs[0]] + hs[1..];
      if hs[0].userId == user then [hs[0]] + UserHoldings(hs[1..], user) else UserHoldings(hs[1..], user)
  }

  /** The user's holdings keep collection order: the lookup distributes over
      concatenation, and a single holding is kept exactly when it is the
      user's. */
  lemma {:induction false} UserHoldingsInOrder(a: seq<Holding>, b: seq<Holding>, user: UserId)
    ensures UserHoldings(a + b, user) == UserHoldings(a, user) + UserHoldings(b, user)
    ensures forall h :: UserHoldings([h], user) == if h.userId == user then [h] else []
  {
    UserHoldingsAppend(a, b, user);
    forall h ensures UserHoldings([h], user) == if h.userId == user then [h] else [] {
      assert [h][1..] == [];
    }
  }

  lemma {:induction false} UserHoldingsAppend(a: seq<Holding>, b: seq<Holding>, user: UserId)
    ensures UserHoldings(a + b, user) == UserHoldings(a, user) + UserHoldings(b, user)
  {
    if a == [] {
      assert a + b == b;
    } else {
      assert (a + b)[1..] == a[1..] + b;
      UserHoldingsAppend(a[1..], b, user);
    }
  }

  // ---------------------------------------------------------------- buying

  /** Buying into an existing holding: shares and cost are added and the
      average price becomes the new cost over the new share count. A count
      of zero (only reachable from a chat purchase of zero shares) would make
      the source compute 0/0; the model keeps the old average there. */
  function Merge(h: Holding, shares: real, cost: real): Holding {
    var newShares := h.shares + shares;
    var newInvested := h.totalInvested + cost;
    h.(shares := newShares,
       totalInvested := newInvested,
       averagePrice := if newShares != 0.0 then newInvested / newShares else h.averagePrice)
  }

  /** A first purchase: average price is the purchase price and the cost
      basis is `shares * price`; `purchaseDate` is the creation time. */
  function NewHolding(user: UserId, symbol: string, name: string, shares: real, price: real, now: int): Holding {
    Holding(user, symbol, name, shares, price, shares * price, now)
  }

  /** The holding that a purchase leaves under `(user, symbol)`. */
  function Purchased(hs: seq<Holding>, user: UserId, symbol: string, name: string, shares: real, price: real, now: int): Holding {
    match FindHolding(hs, user, symbol)
    case Some(i) => Merge(hs[i], shares, shares * price)
    case None => NewHolding(user, symbol, name, shares, price, now)
  }

  /** The collection after a purchase: the matching holding is merged in
      place, or a new one is appended. */
  function BuyHoldings(hs: seq<Holding>, user: UserId, symbol: string, name: string, shares: real, price: real, now: int): seq<Holding> {
    var h := Purchased(hs, user, symbol, name, shares, price, now);
    match FindHolding(hs, user, symbol)
    case Some(i) => hs[i := h]
    case None => hs + [h]
  }

  lemma MergeCostConsistent(h: Holding, shares: real, cost: real)
    requires CostConsistent(h)
    requires h.shares >= 0.0 && shares >= 0.0
    requires h.shares + shares == 0.0 ==> cost == 0.0
    ensures CostConsistent(Merge(h, shares, cost))
  {
    var newShares := h.shares + shares;
    var newInvested := h.totalInvested + cost;
    if newShares != 0.0 {
      assert newShares * (newInvested / newShares) == newInvested;
    } else {
      assert h.shares == 0.0;
    }
  }

  /** A purchase adds exactly `shares` to the user's holding of the symbol,
      adds `shares * price` to its cost basis, and keeps everything else. */
  lemma {:induction false} BuyAddsShares(hs: seq<Holding>, user: UserId, symbol: string, name: string, shares: real, price: real, now: int)
    requires UniqueKeys(hs)
    ensures var hs' := BuyHoldings(hs, user, symbol, name, shares, price, now);
      && SharesHeld(hs', user, symbol) == SharesHeld(hs, user, symbol) + shares
      && FindHolding(hs', user, symbol).Some?
      && hs'[FindHolding(hs', user, symbol).value] == Purchased(hs, user, symbol, name, shares, price, now)
      && (forall i :: 0 <= i < |hs| && !IsKey(hs[i], user, symbol) ==> hs'[i] == hs[i])
      && |hs'| <= |hs| + 1
  {
    var hs' := BuyHoldings(hs, user, symbol, name, shares, price, now);
    match FindHolding(hs, user, symbol)
    case Some(i) =>
      BuyKeepsUnique(hs, user, symbol, name, shares, price, now);
      FindHoldingUnique(hs', user, symbol, i);
    case None =>
      BuyKeepsUnique(hs, user, symbol, name, shares, price, now);
      FindHoldingUnique(hs', user, symbol, |hs|);
  }

  /** Find-then-merge never creates a second holding for a key. */
  lemma {:induction false} BuyKeepsUnique(hs: seq<Holding>, user: UserId, symbol: string, name: string, shares: real, price: real, now: int)
    requires UniqueKeys(hs)
    ensures UniqueKeys(BuyHoldings(hs, user, symbol, name, shares, price, now))
  {
    var h := Purchased(hs, user, symbol, name, shares, price, now);
    match FindHolding(hs, user, symbol)
    case Some(i) =>
      assert IsKey(h, user, symbol);
    case None =>
      var hs' := hs + [h];
      forall i, j | 0 <= i < j < |hs'|
        ensures !(hs'[i].userId == hs'[j].userId && hs'[i].symbol == hs'[j].symbol)
      {
        if j == |hs| {
          assert !IsKey(hs[i], user, symbol);
        }
      }
  }

  /** A purchase of a non-negative number of shares keeps the collection
      valid; the merged holding's average price is its cost over its shares. */
  lemma {:induction false} BuyPreservesValid(hs: seq<Holding>, user: UserId, symbol: string, name: string, shares: real, price: real, now: int)
    requires ValidHoldings(hs)
    requires symbol != "" && name != "" && shares >= 0.0
    ensures ValidHoldings(BuyHoldings(hs, user, symbol, name, shares, price, now))
  {
    BuyKeepsUnique(hs, user, symbol, name, shares, price, now);
    match FindHolding(hs, user, symbol)
    case Some(i) =>
      MergeCostConsistent(hs[i], shares, shares * price);
    case None =>
  }

  // --------------------------------------------------------------- selling

  /** A partial sale: the shares sold take their share of the cost basis
      with them (`(totalInvested / shares) * sold`); `averagePrice` is not
      written. */
  function PartialSell(h: Holding, sold: real): Holding
    requires h.shares != 0.0
  {
    h.(shares := h.shares - sold, totalInvested := h.totalInvested - (h.totalInvested / h.shares) * sold)
  }

  /** The collection after a sale from holding `i`: removed when every share
      is sold, reduced otherwise. */
  function SellHoldings(hs: seq<Holding>, i: nat, sold: real): seq<Holding>
    requires i < |hs| && hs[i].shares != 0.0
  {
    if hs[i].shares == sold then hs[..i] + hs[i + 1..] else hs[i := PartialSell(hs[i], sold)]
  }

  /** A partial sale keeps the average price field and the ratio
      `totalInvested / shares` it stands for. */
  lemma {:induction false} PartialSellKeepsAverage(h: Holding, sold: real)
    requires CostConsistent(h)
    requires h.shares > sold > 0.0
    ensures PartialSell(h, sold).averagePrice == h.averagePrice
    ensures CostConsistent(PartialSell(h, sold))
    ensures PartialSell(h, sold).totalInvested / PartialSell(h, sold).shares == h.totalInvested / h.shares
  {
    var s := h.shares;
    var a := h.averagePrice;
    assert h.totalInvested / s == a;
    var h' := PartialSell(h, sold);
    assert h'.totalInvested == s * a - a * sold;
    assert h'.totalInvested == (s - sold) * a;
    assert h'.totalInvested / h'.shares == a;
  }

  /** A valid sale (held >= sold > 0) keeps the collection valid; selling
      every share leaves no holding for the key, selling some leaves exactly
      `held - sold`. */
  lemma {:induction false} SellPreservesValid(hs: seq<Holding>, i: nat, sold: real)
    requires ValidHoldings(hs)
    requires i < |hs| && hs[i].shares >= sold > 0.0
    ensures ValidHoldings(SellHoldings(hs, i, sold))
    ensures hs[i].shares == sold ==> FindHolding(SellHoldings(hs, i, sold), hs[i].userId, hs[i].symbol).None?
    ensures SharesHeld(SellHoldings(hs, i, sold), hs[i].userId, hs[i].symbol) == hs[i].shares - sold
  {
    var hs' := SellHoldings(hs, i, sold);
    var user, symbol := hs[i].userId, hs[i].symbol;
    if hs[i].shares == sold {
      assert forall k :: 0 <= k < |hs'| ==> hs'[k] == if k < i then hs[k] else hs[k + 1];
      forall k | 0 <= k < |hs'| ensures !IsKey(hs'[k], user, symbol) {
        if k < i {
          assert !IsKey(hs[k], user, symbol);
        } else {
          assert !IsKey(hs[k + 1], user, symbol);
        }
      }
    } else {
      PartialSellKeepsAverage(hs[i], sold);
      assert IsKey(hs'[i], user, symbol);
      FindHoldingUnique(hs', user, symbol, i);
    }
  }

  // ------------------------------------------------------------- responses

  /** A response and the acting user's balance and the collection after it. */
  datatype Trade<T> = Trade(response: Result<T>, balance: real, holdings: seq<Holding>)

  datatype BuyRequest = BuyRequest(symbol: Option<string>, name: Option<string>, shares: Option<real>, price: Option<real>)
  datatype SellRequest = SellRequest(symbol: Option<string>, shares: Option<real>, price: Option<real>)

  /** `{ message: 'Purchase successful', holding, newBalance }`. */
  datatype BuyReceipt = BuyReceipt(holding: Holding, newBalance: real)
  /** `{ message: 'Sale successful', revenue, newBalance }`. */
  datatype SellReceipt = SellReceipt(revenue: real, newBalance: real)

  const AllFieldsRequired := ApiError(400, "All fields are required")
  const SharesMustBePositive := ApiError(400, "Shares must be positive")
  const InsufficientBalance := ApiError(400, "Insufficient balance")
  const StockNotInPortfolio := ApiError(404, "Stock not in portfolio")
  const InsufficientShares := ApiError(400, "Insufficient shares")

  /** The purchase rule shared by `POST /buy` and the chat assistant: refused
      when the balance is below `shares * price`, otherwise the balance is
      debited and the holding merged or created. */
  function PurchaseTrade(balance: real, hs: seq<Holding>, user: UserId, symbol: string, name: string,
                         shares: real, price: real, now: int): (t: Trade<BuyReceipt>)
    ensures balance < shares * price ==> t == Trade(Err(InsufficientBalance), balance, hs)
    ensures balance >= shares * price ==>
      && t.response.Ok? && t.balance == balance - shares * price && t.balance >= 0.0
      && t.response.value.newBalance == t.balance
      && t.holdings == BuyHoldings(hs, user, symbol, name, shares, price, now)
  {
    var cost := shares * price;
    if balance < cost then Trade(Err(InsufficientBalance), balance, hs)
    else
      Trade(Ok(BuyReceipt(Purchased(hs, user, symbol, name, shares, price, now), balance - cost)),
            balance - cost, BuyHoldings(hs, user, symbol, name, shares, price, now))
  }

  predicate BuyFieldsPresent(req: BuyRequest) {
    TruthyStr(req.symbol) && TruthyStr(req.name) && TruthyNum(req.shares) && TruthyNum(req.price)
  }

  /** `POST /buy` for the authenticated `user`. */
  function BuyTrade(balance: real, hs: seq<Holding>, user: UserId, req: BuyRequest, now: int): (t: Trade<BuyReceipt>)
    ensures t.response.Err? ==> t.balance == balance && t.holdings == hs && t.response.error.status == 400
    ensures t.response.Ok? ==> BuyFieldsPresent(req) && req.shares.value > 0.0 && t.balance >= 0.0
  {
    if !BuyFieldsPresent(req) then Trade(Err(AllFieldsRequired), balance, hs)
    else if req.shares.value <= 0.0 then Trade(Err(SharesMustBePositive), balance, hs)
    else PurchaseTrade(balance, hs, user, req.symbol.value, req.name.value, req.shares.value, req.price.value, now)
  }

  /** A buy is accepted exactly when all four fields are present and
      non-zero, the share count is positive and the balance covers the cost;
      a refused buy changes nothing, an accepted one debits exactly
      `shares * price` and adds exactly `shares` to the holding. */
  lemma {:induction false} BuyContract(balance: real, hs: seq<Holding>, user: UserId, req: BuyRequest, now: int)
    requires UniqueKeys(hs)
    ensures var t := BuyTrade(balance, hs, user, req, now);
      && (t.response.Ok? <==>
            BuyFieldsPresent(req) && req.shares.value > 0.0 && balance >= req.shares.value * req.price.value)
      && (t.response.Err? ==> t.balance == balance && t.holdings == hs)
      && (!BuyFieldsPresent(req) ==> t.response == Err(AllFieldsRequired))
      && (BuyFieldsPresent(req) && req.shares.value <= 0.0 ==> t.response == Err(SharesMustBePositive))
      && (BuyFieldsPresent(req) && req.shares.value > 0.0 && balance < req.shares.value * req.price.value ==>
            t.response == Err(InsufficientBalance))
      && (t.response.Ok? ==>
            && t.balance == balance - req.shares.value * req.price.value
            && t.response.value.newBalance == t.balance
            && SharesHeld(t.holdings, user, req.symbol.value) == SharesHeld(hs, user, req.symbol.value) + req.shares.value)
  {
    var t := BuyTrade(balance, hs, user, req, now);
    if t.response.Ok? {
      BuyAddsShares(hs, user, req.symbol.value, req.name.value, req.shares.value, req.price.value, now);
    }
  }

  /** A first buy records the purchase price as the average and
      `shares * price` as the cost basis; a buy into an existing holding
      makes the average its new cost over its new share count. */
  lemma {:induction false} BuyAveragePrice(balance: real, hs: seq<Holding>, user: UserId, req: BuyRequest, now: int)
    requires ValidHoldings(hs)
    requires BuyTrade(balance, hs, user, req, now).response.Ok?
    ensures var h := BuyTrade(balance, hs, user, req, now).response.value.holding;
      && h.averagePrice * h.shares == h.totalInvested
      && h.shares > 0.0
      && (FindHolding(hs, user, req.symbol.value).None? ==>
            h.averagePrice == req.price.value && h.totalInvested == req.shares.value * req.price.value &&
            h.purchaseDate == now)
      && (FindHolding(hs, user, req.symbol.value).Some? ==>
            var old_h := hs[FindHolding(hs, user, req.symbol.value).value];
            h.shares == old_h.shares + req.shares.value &&
            h.totalInvested == old_h.totalInvested + req.shares.value * req.price.value &&
            h.averagePrice == h.totalInvested / h.shares)
  {
    var symbol, shares, price := req.symbol.value, req.shares.value, req.price.value;
    match FindHolding(hs, user, symbol)
    case Some(i) =>
      MergeCostConsistent(hs[i], shares, shares * price);
    case None =>
  }

  predicate SellFieldsPresent(req: SellRequest) {
    TruthyStr(req.symbol) && TruthyNum(req.shares) && TruthyNum(req.price)
  }

  /** `POST /sell` for the authenticated `user`. */
  function SellTrade(balance: real, hs: seq<Holding>, user: UserId, req: SellRequest): (t: Trade<SellReceipt>)
    ensures t.response.Err? ==> t.balance == balance && t.holdings == hs
    ensures t.response.Ok? <==>
      SellFieldsPresent(req) && req.shares.value > 0.0 && FindHolding(hs, user, req.symbol.value).Some?
      && SharesHeld(hs, user, req.symbol.value) >= req.shares.value
  {
    if !SellFieldsPresent(req) then Trade(Err(AllFieldsRequired), balance, hs)
    else
      var symbol, shares, price := req.symbol.value, req.shares.value, req.price.value;
      if shares <= 0.0 then Trade(Err(SharesMustBePositive), balance, hs)
      else match FindHolding(hs, user, symbol)
        case None => Trade(Err(StockNotInPortfolio), balance, hs)
        case Some(i) =>
          if hs[i].shares < shares then Trade(Err(InsufficientShares), balance, hs)
          else
            var revenue := shares * price;
            Trade(Ok(SellReceipt(revenue, balance + revenue)), balance + revenue, SellHoldings(hs, i, shares))
  }

  /** The accepted path of `POST /sell`: with the fields present, a positive
      share count and enough shares in the holding found, the seller is
      credited the revenue and the holding is reduced or removed. */
  lemma SellAccepted(balance: real, hs: seq<Holding>, user: UserId, req: SellRequest, i: nat)
    requires SellFieldsPresent(req) && req.shares.value > 0.0
    requires FindHolding(hs, user, req.symbol.value) == Some(i) && hs[i].shares >= req.shares.value
    ensures SellTrade(balance, hs, user, req).response ==
      Ok(SellReceipt(req.shares.value * req.price.value, balance + req.shares.value * req.price.value))
    ensures SellTrade(balance, hs, user, req).balance == balance + req.shares.value * req.price.value
    ensures SellTrade(balance, hs, user, req).holdings == SellHoldings(hs, i, req.shares.value)
  {
  }

  /** A sell is refused with 404 without a holding and with 400 when it asks
      for more shares than are held, changing nothing; an accepted sell
      credits exactly `shares * price`, removes the holding when every share
      is sold and otherwise reduces it by exactly the shares sold. */
  lemma {:induction false} SellContract(balance: real, hs: seq<Holding>, user: UserId, req: SellRequest)
    requires ValidHoldings(hs)
    ensures var t := SellTrade(balance, hs, user, req);
      && (t.response.Err? ==> t.balance == balance && t.holdings == hs)
      && (SellFieldsPresent(req) && req.shares.value > 0.0 && FindHolding(hs, user, req.symbol.value).None? ==>
            t.response == Err(StockNotInPortfolio))
      && (!SellFieldsPresent(req) ==> t.response == Err(AllFieldsRequired))
      && (SellFieldsPresent(req) && req.shares.value <= 0.0 ==> t.response == Err(SharesMustBePositive))
      && ((SellFieldsPresent(req) && req.shares.value > 0.0 && FindHolding(hs, user, req.symbol.value).Some? &&
           SharesHeld(hs, user, req.symbol.value) < req.shares.value) ==> t.response == Err(InsufficientShares))
      && (t.response.Ok? ==>
            && t.balance == balance + req.shares.value * req.price.value
            && t.response.value.revenue == req.shares.value * req.price.value
            && ValidHoldings(t.holdings)
            && SharesHeld(t.holdings, user, req.symbol.value) == SharesHeld(hs, user, req.symbol.value) - req.shares.value
            && (SharesHeld(hs, user, req.symbol.value) == req.shares.value ==>
                  FindHolding(t.holdings, user, req.symbol.value).None?))
  {
    var t := SellTrade(balance, hs, user, req);
    if t.response.Ok? {
      var i := FindHolding(hs, user, req.symbol.value).value;
      SellPreservesValid(hs, i, req.shares.value);
    }
  }

  /** The sale price is taken from the request and only checked to be
      non-zero: a negative price is accepted and debits the seller. */
  lemma NegativeSellPriceDebits(balance: real, hs: seq<Holding>, user: UserId, req: SellRequest)
    requires ValidHoldings(hs)
    requires SellTrade(balance, hs, user, req).response.Ok?
    requires req.price.value < 0.0
    ensures SellTrade(balance, hs, user, req).balance < balance
  {
    var shares, price := req.shares.value, req.price.value;
    assert shares * price < 0.0 by {
      assert shares > 0.0;
    }
  }

  // --------------------------------------------------------------- summary

  /** One element of `holdingsWithCurrentValue`. `profitLossPercent` is
      `None` where the source divides by a zero cost basis (a non-finite
      number in JavaScript). */
  datatype HoldingRow = HoldingRow(
    holding: Holding,
    currentPrice: real,
    currentValue: real,
    profitLoss: real,
    profitLossPercent: Option<real>)

  /** `getStockPrice(symbol) || averagePrice`: an unknown symbol and a zero
      market price both fall back to the average price. */
  function CurrentPrice(h: Holding, market: seq<Quote>): (p: real)
    ensures GetStockPrice(market, h.symbol).None? ==> p == h.averagePrice
    ensures GetStockPrice(market, h.symbol).Some? ==>
      p == if GetStockPrice(market, h.symbol).value != 0.0 then GetStockPrice(market, h.symbol).value else h.averagePrice
  {
    match GetStockPrice(market, h.symbol)
    case Some(p) => if p != 0.0 then p else h.averagePrice
    case None => h.averagePrice
  }

  /** The row of one holding: its value at the current price, the profit
      over its cost basis, and that profit as a percentage of the cost basis
      when the basis is not zero. */
  function RowOf(h: Holding, market: seq<Quote>): (r: HoldingRow)
    ensures r.holding == h && r.currentPrice == CurrentPrice(h, market)
    ensures r.currentValue == h.shares * r.currentPrice
    ensures r.profitLoss == r.currentValue - h.totalInvested
    ensures r.profitLossPercent.Some? <==> h.totalInvested != 0.0
    ensures r.profitLossPercent.Some? ==> r.profitLossPercent.value * h.totalInvested == r.profitLoss * 100.0
  {
    var price := CurrentPrice(h, market);
    var value := h.shares * price;
    var pl := value - h.totalInvested;
    HoldingRow(h, price, value, pl, if h.totalInvested != 0.0 then Some((pl / h.totalInvested) * 100.0) else None)
  }

  /** The rows of a list of holdings, in the list's order. */
  function RowsOf(hs: seq<Holding>, market: seq<Quote>): (r: seq<HoldingRow>)
    ensures |r| == |hs|
  {
    if hs == [] then [] else RowsOf(hs[..|hs| - 1], market) + [RowOf(hs[|hs| - 1], market)]
  }

  /** Each row is the row of the holding at the same position. */
  lemma {:induction false} RowsOfAt(hs: seq<Holding>, market: seq<Quote>, k: nat)
    requires k < |hs|
    ensures RowsOf(hs, market)[k] == RowOf(hs[k], market)
  {
    if k < |hs| - 1 {
      RowsOfAt(hs[..|hs| - 1], market, k);
    }
  }

  function SumValue(rows: seq<HoldingRow>): real {
    if rows == [] then 0.0 else SumValue(rows[..|rows| - 1]) + rows[|rows| - 1].currentValue
  }

  function SumInvested(rows: seq<HoldingRow>): real {
    if rows == [] then 0.0 else SumInvested(rows[..|rows| - 1]) + rows[|rows| - 1].holding.totalInvested
  }

  function SumProfitLoss(rows: seq<HoldingRow>): real {
    if rows == [] then 0.0 else SumProfitLoss(rows[..|rows| - 1]) + rows[|rows| - 1].profitLoss
  }

  /** Appending one row adds its value and its cost to the running totals. */
  lemma SumsAppend(rows: seq<HoldingRow>, row: HoldingRow)
    ensures SumValue(rows + [row]) == SumValue(rows) + row.currentValue
    ensures SumInvested(rows + [row]) == SumInvested(rows) + row.holding.totalInvested
  {
    assert (rows + [row])[..|rows|] == rows;
  }

  /** The total profit is the sum of the per-holding profits. */
  lemma {:induction false} ProfitAddsUp(rows: seq<HoldingRow>)
    requires forall k :: 0 <= k < |rows| ==> rows[k].profitLoss == rows[k].currentValue - rows[k].holding.totalInvested
    ensures SumProfitLoss(rows) == SumValue(rows) - SumInvested(rows)
  {
    if rows != [] {
      ProfitAddsUp(rows[..|rows| - 1]);
    }
  }

  /** The `for ... of` loop of `GET /summary`: the row of each holding, in order,
      and the running sums of their values and costs. */
  method RowsAndSums(mine: seq<Holding>, market: seq<Quote>) returns (rows: seq<HoldingRow>, totalValue: real, totalInvested: real)
    ensures rows == RowsOf(mine, market)
    ensures totalValue == SumValue(rows) && totalInvested == SumInvested(rows)
  {
    totalValue, totalInvested := 0.0, 0.0;
    rows := [];
    for k := 0 to |mine|
      invariant rows == RowsOf(mine[..k], market)
      invariant totalValue == SumValue(rows)
      invariant totalInvested == SumInvested(rows)
    {
      var row := RowOf(mine[k], market);
      SumsAppend(rows, row);
      totalValue := totalValue + row.currentValue;
      totalInvested := totalInvested + row.holding.totalInvested;
      rows := rows + [row];
      assert mine[..k + 1][..k] == mine[..k];
    }
    assert mine[..|mine|] == mine;
  }

  /** The `summary` object, before `toFixed(2)`. */
  datatype Totals = Totals(
    totalValue: real,
    totalInvested: real,
    totalProfitLoss: real,
    totalProfitLossPercent: real,
    cash: real,
    accountValue: real)

  /** The totals as sent: every field through `toFixed(2)`. */
  function Display(t: Totals): (d: Totals)
    ensures -0.005 <= d.totalValue - t.totalValue <= 0.005
    ensures -0.005 <= d.cash - t.cash <= 0.005
    ensures -0.005 <= d.accountValue - t.accountValue <= 0.005
    ensures -0.005 <= d.totalProfitLoss - t.totalProfitLoss <= 0.005
    ensures -0.005 <= d.totalInvested - t.totalInvested <= 0.005
    ensures -0.005 <= d.totalProfitLossPercent - t.totalProfitLossPercent <= 0.005
  {
    Totals(Round2(t.totalValue), Round2(t.totalInvested), Round2(t.totalProfitLoss),
           Round2(t.totalProfitLossPercent), Round2(t.cash), Round2(t.accountValue))
  }

  // ------------------------------------------------------------ the store

  class Ledger {
    /** The `balance` field of each user document. */
    var balances: map<UserId, real>
    /** The `Portfolio` collection, in insertion order. */
    var holdings: seq<Holding>

    ghost predicate Valid()
      reads this
    {
      ValidHoldings(holdings)
    }

    constructor (initial: map<UserId, real>)
      ensures Valid()
      ensures balances == initial && holdings == []
    {
      balances := initial;
      holdings := [];
    }

    /** The purchase rule on the store; also used by the chat assistant. */
    method Purchase(user: UserId, symbol: string, name: string, shares: real, price: real, now: int)
      returns (r: Result<BuyReceipt>)
      requires Valid() && user in balances
      requires symbol != "" && name != "" && shares >= 0.0
      modifies this
      ensures Valid()
      ensures var t := PurchaseTrade(old(balances[user]), old(holdings), user, symbol, name, shares, price, now);
        r == t.response && balances == old(balances)[user := t.balance] && holdings == t.holdings
    {
      ghost var t := PurchaseTrade(balances[user], holdings, user, symbol, name, shares, price, now);
      var totalCost := shares * price;
      if balances[user] < totalCost {
        return Err(InsufficientBalance);
      }
      assert t.response == Ok(BuyReceipt(Purchased(holdings, user, symbol, name, shares, price, now), balances[user] - totalCost));
      balances := balances[user := balances[user] - totalCost];
      BuyPreservesValid(holdings, user, symbol, name, shares, price, now);
      var holding := Purchased(holdings, user, symbol, name, shares, price, now);
      match FindHolding(holdings, user, symbol) {
        case Some(i) =>
          holdings := holdings[i := holding];
        case None =>
          holdings := holdings + [holding];
      }
      r := Ok(BuyReceipt(holding, balances[user]));
      assert r == t.response;
    }

    /** `POST /buy`. */
    method Buy(user: UserId, req: BuyRequest, now: int) returns (r: Result<BuyReceipt>)
      requires Valid() && user in balances
      modifies this
      ensures Valid()
      ensures var t := BuyTrade(old(balances[user]), old(holdings), user, req, now);
        r == t.response && balances == old(balances)[user := t.balance] && holdings == t.holdings
    {
      if !BuyFieldsPresent(req) {
        return Err(AllFieldsRequired);
      }
      if req.shares.value <= 0.0 {
        return Err(SharesMustBePositive);
      }
      r := Purchase(user, req.symbol.value, req.name.value, req.shares.value, req.price.value, now);
    }

    /** `POST /sell`. */
    method Sell(user: UserId, req: SellRequest) returns (r: Result<SellReceipt>)
      requires Valid() && user in balances
      modifies this
      ensures Valid()
      ensures var t := SellTrade(old(balances[user]), old(holdings), user, req);
        r == t.response && balances == old(balances)[user := t.balance] && holdings == t.holdings
    {
      if !SellFieldsPresent(req) {
        return Err(AllFieldsRequired);
      }
      var symbol, shares := req.symbol.value, req.shares.value;
      if shares <= 0.0 {
        return Err(SharesMustBePositive);
      }
      var found := FindHolding(holdings, user, symbol);
      if found.None? {
        return Err(StockNotInPortfolio);
      }
      var i := found.value;
      if holdings[i].shares < shares {
        return Err(InsufficientShares);
      }
      var totalRevenue := req.shares.value * req.price.value;
      SellAccepted(balances[user], holdings, user, req, i);
      balances := balances[user := balances[user] + totalRevenue];
      SellPreservesValid(holdings, i, shares);
      if holdings[i].shares == shares {
        holdings := holdings[..i] + holdings[i + 1..];
      } else {
        holdings := holdings[i := PartialSell(holdings[i], shares)];
      }
      r := Ok(SellReceipt(totalRevenue, balances[user]));
    }

    /** `GET /summary`: one row per holding of the user, and the totals
      (before `toFixed(2)`). */
    method Summary(user: UserId, market: seq<Quote>) returns (rows: seq<HoldingRow>, totals: Totals)
      requires user in balances
      ensures |rows| == |UserHoldings(holdings, user)|
      ensures forall k :: 0 <= k < |rows| ==> rows[k] == RowOf(UserHoldings(holdings, user)[k], market)
      ensures totals.totalValue == SumValue(rows)
      ensures totals.totalInvested == SumInvested(rows)
      ensures totals.totalProfitLoss == SumProfitLoss(rows)
      ensures totals.totalProfitLossPercent ==
        if totals.totalInvested > 0.0 then (totals.totalProfitLoss / totals.totalInvested) * 100.0 else 0.0
      ensures totals.cash == balances[user]
      ensures totals.accountValue == totals.totalValue + totals.cash
    {
      var mine := UserHoldings(holdings, user);
      var totalValue, totalInvested;
      rows, totalValue, totalInvested := RowsAndSums(mine, market);
      forall j | 0 <= j < |rows| ensures rows[j] == RowOf(mine[j], market) {
        RowsOfAt(mine, market, j);
      }
      ProfitAddsUp(rows);
      var totalProfitLoss := totalValue - totalInvested;
      var totalProfitLossPercent := if totalInvested > 0.0 then (totalProfitLoss / totalInvested) * 100.0 else 0.0;
      totals := Totals(totalValue, totalInvested, totalProfitLoss, totalProfitLossPercent,
                       balances[user], totalValue + balances[user]);
    }
  }
}
