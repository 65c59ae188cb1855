# Stock trading platform: a verified model of its core

The platform is a simulated stock market. An Express and MongoDB backend serves an in-memory market table whose prices a simulator moves on every tick. Users register and log in, then buy and sell shares against a cash balance. They keep a watchlist and set price alerts, and a rule-based assistant answers chat messages and places orders. A React frontend keeps local copies of quotes and merges the price updates pushed over one shared WebSocket client.

The Dafny project models that core and proves what its code promises:

- `js.dfy` (`Js`): the JavaScript semantics the rest relies on. This covers truthiness of request fields, ASCII `toUpperCase`/`toLowerCase`, `String.prototype.includes`, `toFixed(2)` as rounding to the cent, and the shared `Result`/`Option` types.
- `sorting.dfy` (`Sorting`): the stable descending sort used by `Array.prototype.sort` and by the `sort({ field: -1 })` of the list queries.
- `stock_data.dfy` (`StockData`): the mock market table (eight quotes, keyed by symbol in insertion order) and its readers. Also the random price-history generator, with the random draws as a parameter.
- `price_simulator.dfy` (`PriceSimulator`): one tick. The method updates the market table in place (an `array`) and returns the `updates` map.
- `portfolio.dfy` (`Portfolio`): the ledger. `POST /buy`, `POST /sell` and `GET /summary` are pure functions on the balance and the `Portfolio` collection, and a `Ledger` class holds balances and holdings and is updated by methods proved against those functions.
- `alerts.dfy` (`Alerts`), `watchlist.dfy` (`Watchlist`), `auth.dfy` (`Auth`): the alert, watchlist and user stores. Each has pure request semantics plus a store class whose methods are proved against them.
- `ai_agent.dfy` (`AiAgent`): predictions, recommendations and news summaries. It also has the chat assistant: symbol detection, the `(\d+)\s*(share|stock)` share-count match, intent selection, and the buy branch, which follows the ledger's purchase rule.
- `ws_client.dfy` (`WsClient`): the browser's `WebSocketService` as a class. The socket and the timer are reduced to the events they deliver (open, close, message, timeout).
- `watchlist_page.dfy` (`WatchlistPage`) and `dashboard_page.dfy` (`DashboardPage`): the client-side state updaters that merge pushed price updates into the watchlist cache and into the dashboard's list.

Randomness, the clock, password hashing and `JSON.parse` are parameters. Prices and money are mathematical reals; `toFixed(2)` is modelled where the source applies it.

## Model

| member | source | states |
|---|---|---|
| Js.ToUpper | backend/src/services/stockData.js:132 | `toUpperCase` keeps the length and upper-cases each letter and nothing else |
| Js.ToLower | backend/src/services/aiAgent.js:127 | `toLowerCase` keeps the length and lower-cases each letter and nothing else |
| Js.ToUpperIdempotent | backend/src/services/stockData.js:132 | upper-casing an upper-cased key changes nothing |
| Js.Contains | backend/src/services/stockData.js:143-144 | `includes` is true exactly when the needle occurs at some position |
| Js.ContainsEmpty | backend/src/services/stockData.js:141-145 | every string includes the empty string |
| Js.Round2 | backend/src/services/priceSimulator.js:17-19 | `toFixed(2)` moves a value by at most half a cent, keeps non-negative values non-negative, and keeps values of at least half a cent positive |
| Js.RemoveAt | backend/src/routes/alerts.js:108-111 | deleting a document removes exactly the element at its position and keeps the others in order |
| Js.RemoveAtElements | backend/src/routes/alerts.js:108-111 | after the deletion an element is present iff it was at some other position |
| Sorting.Insert | backend/src/services/aiAgent.js:53-54 | inserting into a descending list keeps it descending and adds exactly that element |
| Sorting.SortDesc | backend/src/services/aiAgent.js:53-54 | the sort returns a permutation of its input ordered by key, largest first |
| Sorting.InsertStable | backend/src/services/aiAgent.js:53-54 | an inserted element goes in front of the elements it ties with, and their order is kept |
| Sorting.SortDescStable | backend/src/services/aiAgent.js:53-54 | the sort is stable: for every key value, the elements with that key appear in the same order as in the input |
| Sorting.TopOfSorted | backend/src/services/aiAgent.js:53-55 | an element left out of the first `n` of a descending list has a key no larger than any of them |
| StockData.MockStocksWellFormed | backend/src/services/stockData.js:2-99 | the table has the eight keys, each quote is stored under its own symbol, keys are distinct, and every quote has a symbol and a name |
| StockData.IndexOf | backend/src/services/stockData.js:132 | `mockStocks[key]` finds the first quote with that symbol, and finds none iff no quote has it |
| StockData.Lookup | backend/src/services/stockData.js:132 | a lookup succeeds iff some quote has the key, and returns a quote of the table with that symbol |
| StockData.LookupNamed | backend/src/services/stockData.js:2-99 | a quote looked up in a table of named quotes has a symbol and a name |
| StockData.GetAllStocks | backend/src/services/stockData.js:127-129 | `Object.values` returns every quote of the table in key order |
| StockData.GetStockBySymbol | backend/src/services/stockData.js:131-133 | the lookup upper-cases the symbol; it finds a quote iff one has the upper-cased symbol, and otherwise returns null |
| StockData.GetStockPrice | backend/src/services/stockData.js:135-138 | a price is returned iff the quote exists, and it is that quote's price |
| StockData.LookupIgnoresCase | backend/src/services/stockData.js:131-138 | two symbols that upper-case alike find the same quote and the same price |
| StockData.SearchStocks | backend/src/services/stockData.js:140-146 | the result holds exactly the quotes whose lower-cased symbol or name includes the lower-cased query |
| StockData.SearchStocksInOrder | backend/src/services/stockData.js:140-146 | the search is an order-keeping filter: searching a concatenation is concatenating the searches, and a single quote is kept iff it matches, so the result lists the matching quotes in table order, each as often as the table holds it |
| StockData.SearchAllMatch | backend/src/services/stockData.js:142-145 | when every quote matches, the filter returns the table unchanged and in order |
| StockData.EmptyQueryReturnsAll | backend/src/services/stockData.js:140-146 | the empty query returns the whole table in order |
| StockData.HistoryPointAt | backend/src/services/stockData.js:110-121 | the point for `i` days ago is dated `today - i`, priced at least 80% of the base price, with a volume in [10 000 000, 60 000 000) |
| StockData.GenerateHistoricalData | backend/src/services/stockData.js:102-125 | an unknown, not upper-cased key or negative `days` gives `[]`; otherwise `days + 1` daily points, oldest first, each priced at least 80% of the current price |
| PriceSimulator.MovePercent | backend/src/services/priceSimulator.js:9 | the random move lies in [-0.25%, +0.25%) |
| PriceSimulator.TickQuote | backend/src/services/priceSimulator.js:8-19 | a tick changes only price, change and change percent, each rounded to the cent from the raw tick |
| PriceSimulator.ReferencePricePreserved | backend/src/services/priceSimulator.js:10-13 | before rounding, price minus change (the previous close) is unchanged, because change moves by exactly the price move |
| PriceSimulator.ChangePercentConsistent | backend/src/services/priceSimulator.js:14 | before rounding, the new change percent is the new change over the previous close |
| PriceSimulator.TickKeepsPricePositive | backend/src/services/priceSimulator.js:9-12 | a positive price moves by less than 0.25% either way and stays positive |
| PriceSimulator.TickKeepsCentPricePositive | backend/src/services/priceSimulator.js:12-17 | a price of at least a cent is still positive after the tick and the rounding |
| PriceSimulator.RoundedReferenceDrift | backend/src/services/priceSimulator.js:17-18 | after rounding, the previous close drifts by at most a cent per tick |
| PriceSimulator.TickAll | backend/src/services/priceSimulator.js:7-19 | every quote of the table is ticked with its own draw, in table order |
| PriceSimulator.TickKeepsKeys | backend/src/services/priceSimulator.js:7-19 | a tick keeps the table's keys, their distinctness and the names |
| PriceSimulator.UpdatesKeys | backend/src/services/priceSimulator.js:21-26 | the `updates` map has exactly the table's symbols as keys |
| PriceSimulator.UpdatesMatchTable | backend/src/services/priceSimulator.js:21-26 | with distinct symbols, each symbol is mapped to its entry's new symbol, price, change and change percent |
| PriceSimulator.SimulatePriceUpdate | backend/src/services/priceSimulator.js:4-30 | the array afterwards is the ticked table and the returned map holds the updates of the new table |
| Portfolio.FindHolding | backend/src/routes/portfolio.js:44 | `findOne({ userId, symbol })` finds the first holding with that key, and none iff there is none |
| Portfolio.FindHoldingUnique | backend/src/models/Portfolio.js:35 | with one holding per key, the holding found is the only one with that key |
| Portfolio.UserHoldings | backend/src/routes/portfolio.js:132 | `find({ userId })` returns exactly the user's holdings, in collection order |
| Portfolio.UserHoldingsInOrder | backend/src/routes/portfolio.js:132 | the lookup keeps collection order: it distributes over concatenation and keeps a single holding iff it is the user's |
| Portfolio.MergeCostConsistent | backend/src/routes/portfolio.js:46-53 | merging a purchase keeps the average price equal to the cost basis over the share count |
| Portfolio.BuyAddsShares | backend/src/routes/portfolio.js:44-65 | a purchase adds exactly its shares to the user's holding of the symbol and changes no other user's or symbol's holding |
| Portfolio.BuyKeepsUnique | backend/src/routes/portfolio.js:44-65 | find-then-merge never creates a second holding for a key, although the index does not enforce it |
| Portfolio.BuyPreservesValid | backend/src/routes/portfolio.js:44-65 | a purchase keeps every holding well formed: one per key, non-negative shares, a consistent cost basis |
| Portfolio.PartialSellKeepsAverage | backend/src/routes/portfolio.js:112-115 | a partial sale keeps the average price and the cost basis per share |
| Portfolio.SellPreservesValid | backend/src/routes/portfolio.js:109-116 | a sale keeps the collection valid, removes the holding when every share is sold, and reduces the held shares by exactly the shares sold |
| Portfolio.BuyContract | backend/src/routes/portfolio.js:20-76 | a buy is accepted iff the fields are present, the shares are positive and the balance covers the cost; a refusal changes nothing; an acceptance debits exactly the cost and adds exactly the shares |
| Portfolio.BuyAveragePrice | backend/src/routes/portfolio.js:46-65 | a first buy records the purchase price as the average; a repeat buy's average is the combined cost over the combined shares |
| Portfolio.PurchaseTrade | backend/src/routes/portfolio.js:32-65 | a purchase costing more than the balance is refused with "Insufficient balance" and changes nothing; otherwise the balance is debited exactly shares times price, never goes below zero, is the `newBalance` answered, and the holding is merged or created |
| Portfolio.BuyTrade | backend/src/routes/portfolio.js:20-76 | every refusal is a 400 that changes nothing; an accepted buy had all fields present and a positive share count, and leaves a non-negative balance |
| Portfolio.SellContract | backend/src/routes/portfolio.js:79-127 | a refused sale changes nothing; a missing or falsy field is "All fields are required", a non-positive share count "Shares must be positive", no holding a 404 "Stock not in portfolio", and more shares than held a 400 "Insufficient shares"; an accepted sale credits exactly shares times price, keeps the collection valid, reduces the held shares by exactly the shares sold and removes the holding when all are sold |
| Portfolio.SellTrade | backend/src/routes/portfolio.js:79-127 | a refused sale changes nothing; a sale is accepted iff the fields are present, the share count is positive, the user holds the symbol and holds at least the shares asked |
| Portfolio.NegativeSellPriceDebits | backend/src/routes/portfolio.js:83-105 | the sale price is never checked for sign, so an accepted sale at a negative price lowers the balance |
| Portfolio.CurrentPrice | backend/src/routes/portfolio.js:140 | the summary uses the market price, falling back to the average price for an unknown symbol or a zero price |
| Portfolio.RowOf | backend/src/routes/portfolio.js:140-153 | a row is the holding at the current price: value is shares times that price, profit is value minus the cost basis, and the percent exists iff the basis is nonzero and then times the basis gives a hundred times the profit |
| Portfolio.RowsAndSums | backend/src/routes/portfolio.js:138-155 | the loop builds the rows of the holdings in their order and its running sums equal the sums of the rows' values and costs |
| Portfolio.SellAccepted | backend/src/routes/portfolio.js:100-122 | an accepted sale answers with revenue shares times price and the new balance, credits exactly that revenue and applies the sale to the holding found |
| Portfolio.ProfitAddsUp | backend/src/routes/portfolio.js:142-157 | the total profit equals the total value minus the total invested |
| Portfolio.Display | backend/src/routes/portfolio.js:163-168 | each of the six summary figures (value, invested, profit, percent, cash, account value) is sent within half a cent of its exact value |
| Portfolio.Ledger.constructor | backend/src/models/Portfolio.js:3-33 | a new ledger holds the given balances and no holdings |
| Portfolio.Ledger.Purchase | backend/src/routes/portfolio.js:32-65 | the stored balance and holdings become those of the purchase rule; the ledger stays valid |
| Portfolio.Ledger.Buy | backend/src/routes/portfolio.js:20-76 | the response, the stored balance and the holdings are those of `BuyTrade`; the ledger stays valid |
| Portfolio.Ledger.Sell | backend/src/routes/portfolio.js:79-127 | the response, the stored balance and the holdings are those of `SellTrade`; the ledger stays valid |
| Portfolio.Ledger.Summary | backend/src/routes/portfolio.js:130-175 | one row per holding of the user, in order; the totals are the row sums; the percent is 0 without investment; cash is the balance and the account value is the total value plus cash |
| Alerts.ParseCondition | backend/src/routes/alerts.js:36-40 | a condition is accepted iff it is "above" or "below" |
| Alerts.ConditionRoundTrip | backend/src/models/Alert.js:21-25 | every stored condition parses back to itself |
| Alerts.NewAlert | backend/src/routes/alerts.js:28-58 | an alert is created iff all four fields are truthy, the condition is valid and the target positive; it is active, not triggered and owned by the caller; every refusal is a 400 |
| Alerts.CreateRejections | backend/src/routes/alerts.js:32-46 | a missing field or a zero target is "All fields are required", a bad condition its own error, and "must be positive" exactly for a present negative target |
| Alerts.FindAlert | backend/src/routes/alerts.js:73-76 | the alert found has the id and belongs to the caller; none is found iff no such alert exists |
| Alerts.CoerceTriggered | backend/src/routes/alerts.js:83 | `triggered` counts as true exactly for the boolean true and the string "true" |
| Alerts.ApplyPatch | backend/src/routes/alerts.js:85-86 | a patch sets `isActive` when given and `triggered` (coerced) when not undefined, and leaves every other field alone |
| Alerts.PatchNotOwned | backend/src/routes/alerts.js:73-80 | patching an alert the caller does not own is a 404 that changes nothing, even when another user owns the id |
| Alerts.PatchTouchesOnlyTarget | backend/src/routes/alerts.js:73-88 | a patch rewrites only the caller's alert with that id and keeps every other alert, the order and the ids |
| Alerts.Patch | backend/src/routes/alerts.js:69-101 | the PATCH is a 404 that changes nothing iff the caller owns no alert with that id; otherwise the answered alert keeps its id and owner and is the one stored at the alert's position; whatever is broadcast is what is answered |
| Alerts.PatchAsWritten | backend/src/routes/alerts.js:5 | as written nothing is ever broadcast; a patch of an owned alert that sets `triggered` is answered 500 "Failed to update alert", and a success never sets it |
| Alerts.BroadcastIffTriggered | backend/src/routes/alerts.js:90-96 | the broadcast goes out iff the caller's alert exists and the coerced `triggered` is true, and what goes out is the saved alert |
| Alerts.PatchAsWrittenDiffers | backend/src/routes/alerts.js:5 | as written, a patch that sets triggered is saved but answered 500 and not broadcast; every other patch behaves as intended |
| Alerts.TriggeredPatchFailsAsWritten | backend/src/routes/alerts.js:88-99 | a concrete client report of a triggered alert yields 500 and no broadcast as written, and 200 with a broadcast as intended |
| Alerts.DeleteRemovesOnlyTarget | backend/src/routes/alerts.js:106-117 | a delete removes exactly the caller's alert with that id, reports 404 iff there is none, keeps ids unique and keeps every other alert |
| Alerts.Delete | backend/src/routes/alerts.js:106-117 | `deletedCount` is 1 iff the caller owns an alert with that id, and then the collection is one shorter; otherwise it is unchanged |
| Alerts.ActiveCount | backend/src/routes/alerts.js:127-135 | the count never exceeds the collection size |
| Alerts.ActiveCountExact | backend/src/routes/alerts.js:129-133 | the count is exactly the number of positions holding an alert of the user that is active and not triggered |
| Alerts.CreateIncrementsCount | backend/src/routes/alerts.js:48-56 | a new alert (active, not triggered) raises its owner's active count by one and nobody else's |
| Alerts.CountWithinOwn | backend/src/routes/alerts.js:129-133 | the active count is at most the number of the user's alerts, and zero for a user without alerts |
| Alerts.UserAlerts | backend/src/routes/alerts.js:14 | `find({ userId })` returns exactly the user's alerts |
| Alerts.UserAlertsSnoc | backend/src/routes/alerts.js:14 | appending an alert appends it to its owner's list only |
| Alerts.ListAlerts | backend/src/routes/alerts.js:12-18 | `GET /alerts` lists exactly the user's alerts, newest first, as a permutation of them |
| Alerts.AlertStore.constructor | backend/src/models/Alert.js:3-38 | a new store is empty |
| Alerts.AlertStore.Create | backend/src/routes/alerts.js:28-63 | the response is `NewAlert` with the next id, and the alert is appended exactly when it is accepted |
| Alerts.AlertStore.Update | backend/src/routes/alerts.js:69-101 | the response, the collection and the broadcast are those of `Patch` |
| Alerts.AlertStore.Remove | backend/src/routes/alerts.js:106-122 | the collection and the response are those of the delete: removed with "Alert deleted", or 404 |
| Watchlist.FindEntry | backend/src/routes/watchlist.js:27 | the entry found has the user and symbol, and none is found iff there is no such entry |
| Watchlist.InWatchlist | backend/src/routes/watchlist.js:65-72 | `inWatchlist` is true iff the user has an entry with that symbol |
| Watchlist.AddEntry | backend/src/routes/watchlist.js:18-39 | an add succeeds iff both fields are truthy and the symbol is not yet listed for the user; a missing field and a duplicate are distinct 400 errors |
| Watchlist.AddKeepsUnique | backend/src/models/Watchlist.js:23 | adds keep one entry per user and symbol; a refused add changes nothing and an accepted one adds exactly one entry |
| Watchlist.CheckAfterAdd | backend/src/routes/watchlist.js:18-72 | after an add the check reports the symbol as listed; for a user without entries a well-formed add succeeds |
| Watchlist.RemoveDeletesOnlyKey | backend/src/routes/watchlist.js:47-58 | a delete removes exactly the user's entry for the symbol, reports 404 iff there was none, and keeps the rest |
| Watchlist.RemoveEntry | backend/src/routes/watchlist.js:47-58 | something is deleted iff the user has an entry for the symbol, and then the collection is one shorter; otherwise it is unchanged |
| Watchlist.UserEntries | backend/src/routes/watchlist.js:10 | `find({ userId })` returns exactly the user's entries |
| Watchlist.ListWatchlist | backend/src/routes/watchlist.js:8-15 | `GET /watchlist` lists exactly the user's entries, newest first, as a permutation of them |
| Watchlist.WatchlistStore.constructor | backend/src/models/Watchlist.js:3-21 | a new store is empty |
| Watchlist.WatchlistStore.Add | backend/src/routes/watchlist.js:18-44 | the response is `AddEntry` and the collection gains the entry exactly when it is accepted |
| Watchlist.WatchlistStore.Remove | backend/src/routes/watchlist.js:47-62 | the collection and the response are those of the delete |
| Auth.FindByEmail | backend/src/routes/auth.js:23 | `findOne({ email })` finds the first user with that email, and none iff there is none |
| Auth.RegistrationCheck | backend/src/routes/auth.js:14-26 | registration is allowed iff all fields are truthy, the password has at least 6 characters and the email is unused; every refusal is a 400 |
| Auth.Register | backend/src/routes/auth.js:9-44 | a registration is granted iff the checks pass; a refusal answers the check's error and changes nothing; a grant is a 201 that appends exactly one user with the next id, the given name and email, the hash of the password and the start balance, and answers that user's public fields |
| Auth.SignupName | backend/src/routes/auth.js:57 | signup takes `fullName` when it is truthy and `name` otherwise |
| Auth.RegisterKeepsEmailsUnique | backend/src/routes/auth.js:22-30 | a registration keeps emails and ids unique; a refused one changes nothing; an accepted one appends exactly one user, with the given email and name, and returns that user's public fields |
| Auth.SecondRegistrationRefused | backend/src/routes/auth.js:14-26 | registering the same email again is refused, and when the second request has a name and a password of at least six characters the refusal is "Email already registered" |
| Auth.Login | backend/src/routes/auth.js:98-127 | a missing field is a 400; login succeeds iff a user with that email exists and the password matches that user's hash, and returns that user's public fields |
| Auth.LoginFailuresIndistinguishable | backend/src/routes/auth.js:106-114 | an unknown email and a wrong password give the same 401 response |
| Auth.RegisteredUserCanLogIn | backend/src/routes/auth.js:29-44 | a user just registered can log in with the same email and password and gets the same public fields |
| Auth.FindAfterAppend | backend/src/routes/auth.js:29-30 | an appended user with a fresh email is the one `findOne` finds |
| Auth.UserStore.constructor | backend/src/routes/auth.js:9-49 | a new store is empty and keeps the start balance and the hash |
| Auth.UserStore.Create | backend/src/routes/auth.js:22-44 | the response and the stored users are those of the registration rule |
| Auth.UserStore.RegisterUser | backend/src/routes/auth.js:9-49 | `POST /register` is the registration rule on `name`, `email` and `password` |
| Auth.UserStore.Signup | backend/src/routes/auth.js:52-95 | `POST /signup` is the registration rule on `fullName || name`, `email` and `password` |
| AiAgent.BandOf | backend/src/services/aiAgent.js:10-25 | the five prediction bands split the change percent at 1.5, 0.5, -0.5 and -1.5 exactly as the branches do |
| AiAgent.BandsOrdered | backend/src/services/aiAgent.js:10-25 | the band is monotone in the change percent; green iff above 0.5 and red iff below -0.5 |
| AiAgent.GetPrediction | backend/src/services/aiAgent.js:4-48 | null iff the stock is unknown; otherwise the band's label, icon, colour and confidence, and a target within half a cent of 5% above (change >= 0) or below the price |
| AiAgent.TargetFollowsMomentum | backend/src/services/aiAgent.js:33-34 | for a price above ten cents the target is above the price after a non-negative change and below it otherwise |
| AiAgent.PickOf | backend/src/services/aiAgent.js:56-62 | a pick copies the symbol, price and change percent, with "Strong upward momentum" iff the change is above 1 |
| AiAgent.TopPicks | backend/src/services/aiAgent.js:52-62 | `min(3, n)` picks, ordered by change percent, largest first, each reason "Strong upward momentum" iff its change is above 1; which entries are picked, ties included, is stated by `TopPicksOfSortedTable` |
| AiAgent.TopPicksOfSortedTable | backend/src/services/aiAgent.js:52-62 | the picks are the picks of the first `min(3, n)` entries of a stable rearrangement of the table in descending order of change percent: entries of equal change keep their table order, so of two stocks tied for the last place the earlier one is picked |
| AiAgent.PicksComeFromTable | backend/src/services/aiAgent.js:52-62 | every pick is the pick of a stock in the table |
| AiAgent.TopPicksAreTop | backend/src/services/aiAgent.js:53-55 | a stock not picked has a change percent no larger than any picked one |
| AiAgent.GetRecommendations | backend/src/services/aiAgent.js:51-74 | the top picks are those of the table, at most three; risk level "Moderate" and score 75 |
| AiAgent.GetNewsSummary | backend/src/services/aiAgent.js:77-92 | null iff unknown; Positive and Bullish iff the change is positive, "positive momentum" iff non-negative |
| AiAgent.FlatDayIsNegative | backend/src/services/aiAgent.js:83-88 | on a zero change the summary is Negative and Bearish yet reports positive momentum |
| AiAgent.FirstTicker | backend/src/services/aiAgent.js:133-138 | the ticker found is the first table key, in key order, whose lower-cased form occurs in the message; none iff no key occurs |
| AiAgent.KeywordSymbol | backend/src/services/aiAgent.js:141-150 | a company-name keyword yields a table key, and "apple" yields AAPL |
| AiAgent.DetectedSymbol | backend/src/services/aiAgent.js:130-150 | a ticker match wins over a keyword, and the detected symbol is always a key of the table |
| AiAgent.DetectTicker | backend/src/services/aiAgent.js:133-138 | the loop with its `break` returns the first ticker match |
| AiAgent.FirstTickerAt | backend/src/services/aiAgent.js:133-138 | the first key that occurs, with no earlier key occurring, is the one found |
| AiAgent.FirstPhrase | backend/src/services/aiAgent.js:153 | a position the search returns starts digits, optional spaces and "share" or "stock" in any case |
| AiAgent.FirstPhraseLeftmost | backend/src/services/aiAgent.js:153 | the position returned is the leftmost match: no earlier position matches, and none at all when nothing is returned |
| AiAgent.PhraseStartsNumber | backend/src/services/aiAgent.js:153 | a match starts at a whole number: the character before it is not a digit |
| AiAgent.FirstDigit | backend/src/services/aiAgent.js:178 | the fallback `(\d+)` matches at the first digit of the message |
| AiAgent.ChatShares | backend/src/services/aiAgent.js:153-180 | the shares are the phrase's number unless it is missing or zero, then the first number, then 5 |
| AiAgent.NoDigitsBuysFive | backend/src/services/aiAgent.js:175-180 | a message without digits buys the default 5 shares |
| AiAgent.ChatIntent | backend/src/services/aiAgent.js:157-312 | the price branch runs iff a price word and a symbol occur; the buy branch iff no price word, a buy word and a symbol; the portfolio, recommendation and balance branches each iff no earlier branch applies and one of its own words occurs; the general reply iff no branch applies |
| AiAgent.ShouldIBuyPlacesOrder | backend/src/services/aiAgent.js:171-172 | "should i buy" and "what to invest" contain buy words, so with a symbol they place an order instead of asking for recommendations |
| AiAgent.PortfolioTotalIsInvested | backend/src/services/aiAgent.js:254 | with consistent cost bases, the chat's shares-times-average total equals the summed cost bases |
| AiAgent.ChatBuyFollowsPurchaseRule | backend/src/services/aiAgent.js:182-227 | a chat buy without enough balance changes nothing; otherwise it debits exactly shares times the table price and adds exactly those shares to the holding |
| AiAgent.ChatBuy | backend/src/services/aiAgent.js:182-227 | the buy succeeds iff the balance covers shares times the table price; a refusal reports that cost and the balance and changes nothing; a success reports the cost and a non-negative new balance debited by exactly that cost, and merges or creates the holding as the buy route does |
| AiAgent.ChatBuyIsBuyRoute | backend/src/services/aiAgent.js:182-217 | for a positive share count of a named quote, a chat buy is `POST /buy` with the quote's symbol, name and price: accepted in the same cases and leaving the same balance and holdings |
| AiAgent.Chat | backend/src/services/aiAgent.js:126-312 | the kind of reply is determined by the intent: a price reply iff a price query, a buy result iff a buy order, and likewise for portfolio, recommendations, balance and the general reply; the balance reply reports the balance; the price reply carries the table quote of the detected symbol; the recommendation reply carries `getRecommendations` of the table; the portfolio reply carries the user's holdings and their summed cost, and the empty reply is given iff the user has none |
| AiAgent.OnlyBuyChangesLedger | backend/src/services/aiAgent.js:126-312 | only the buy branch changes the balance or the holdings, and it buys the detected symbol's table quote |
| AiAgent.ChatPurchase | backend/src/services/aiAgent.js:182-227 | the reply and the stored balance and holdings are those of the chat buy |
| AiAgent.ProcessChatMessage | backend/src/services/aiAgent.js:126-313 | the reply and the stored balance and holdings are those of the chat specification for the message |
| WsClient.Without | frontend/src/services/websocket.jsx:72-75 | `Set.delete` removes the callback and no other, keeps the length bound and distinctness, and changes nothing when the callback is absent |
| WsClient.AddThenRemove | frontend/src/services/websocket.jsx:67-75 | adding a new callback and then removing it gives the set back in order |
| WsClient.WithoutKeepsOrder | frontend/src/services/websocket.jsx:72-75 | removing a callback keeps the relative order of the others |
| WsClient.WebSocketService.constructor | frontend/src/services/websocket.jsx:7-12 | no socket, no listeners, no timer, and a 2000 ms interval |
| WsClient.WebSocketService.Reconnect | frontend/src/services/websocket.jsx:58-65 | a timeout is scheduled only when no handle was ever stored, so at most one in the service's lifetime |
| WsClient.WebSocketService.Connect | frontend/src/services/websocket.jsx:14-56 | nothing happens while the current socket is open; otherwise a new connecting socket becomes current, or, if construction throws, a reconnect is requested |
| WsClient.WebSocketService.OnOpen | frontend/src/services/websocket.jsx:25-28 | opening clears the pending timeout but keeps the stored handle |
| WsClient.WebSocketService.OnClose | frontend/src/services/websocket.jsx:48-51 | a close, of the current or a stale socket, requests a reconnect, which is scheduled only the first time |
| WsClient.WebSocketService.OnTimerFire | frontend/src/services/websocket.jsx:61-64 | the timeout calls `connect()`; afterwards nothing is pending and nothing more can be scheduled |
| WsClient.WebSocketService.OnMessage | frontend/src/services/websocket.jsx:30-42 | a parsed message reaches every listener once, in insertion order; an unparsable one reaches none |
| WsClient.WebSocketService.AddListener | frontend/src/services/websocket.jsx:67-70 | a callback is appended unless it is already registered |
| WsClient.WebSocketService.RemoveListener | frontend/src/services/websocket.jsx:72-75 | the listeners become the set without that callback |
| WatchlistPage.Get | frontend/src/pages/Watchlist.jsx:54 | a property is absent iff no key of the parsed object equals it |
| WatchlistPage.Keys | frontend/src/pages/Watchlist.jsx:50 | `Object.keys` lists the parsed object's keys in order |
| WatchlistPage.MergeSymbol | frontend/src/pages/Watchlist.jsx:51-56 | one step of the merge never adds or removes a symbol |
| WatchlistPage.HandlePriceUpdate | frontend/src/pages/Watchlist.jsx:46-61 | the cache keeps its symbols, and is unchanged unless the message is a price update with data |
| WatchlistPage.MergeKeysKeepsKeys | frontend/src/pages/Watchlist.jsx:50-57 | the whole fold keeps the cached symbols |
| WatchlistPage.MergeKeysAt | frontend/src/pages/Watchlist.jsx:50-57 | for each cached symbol, the fold merges the update's fields into it exactly when the keys visit it, whatever their order or repetition |
| WatchlistPage.PriceUpdateMerges | frontend/src/pages/Watchlist.jsx:47-58 | a price update merges the update's fields over each cached symbol it mentions and leaves the others |
| WatchlistPage.PriceUpdateFields | frontend/src/pages/Watchlist.jsx:52-55 | per symbol, an updated field takes the pushed value, any other field keeps its cached value, and an unmentioned symbol keeps its quote |
| WatchlistPage.RemoveFromList | frontend/src/pages/Watchlist.jsx:66 | the filter keeps exactly the entries with another symbol |
| WatchlistPage.RemoveFromCache | frontend/src/pages/Watchlist.jsx:67-71 | `delete` removes only that symbol and keeps the other quotes |
| WatchlistPage.RemoveFromListInOrder | frontend/src/pages/Watchlist.jsx:66 | the filter keeps the list's order: it distributes over concatenation and keeps a single entry iff its symbol is another |
| WatchlistPage.RemoveFromListKeepsOthers | frontend/src/pages/Watchlist.jsx:66 | a list without the symbol is unchanged, and removing twice is removing once |
| WatchlistPage.HandleRemove | frontend/src/pages/Watchlist.jsx:63-71 | after a successful delete the list is the order-keeping filter `RemoveFromList`, holding exactly the entries with another symbol, and the cache loses only that symbol; a failed delete changes nothing |
| WatchlistPage.ClientRemoveMatchesServer | frontend/src/pages/Watchlist.jsx:63-71 | after a successful delete the page's list holds the same entries as the user's part of the server collection |
| DashboardPage.InitialStocks | frontend/src/pages/Dashboard.jsx:38 | the dashboard shows the first six quotes, or all of them when there are fewer |
| DashboardPage.Refresh | frontend/src/pages/Dashboard.jsx:52-55 | a refreshed quote keeps all of its fields |
| DashboardPage.HandleWS | frontend/src/pages/Dashboard.jsx:48-68 | the updater throws iff a price update lacks data while the list is not empty; otherwise it keeps the length, changes the list only on a price update, and sets the banner to the alert on `alert_triggered` |
| DashboardPage.PriceUpdateKeepsOrder | frontend/src/pages/Dashboard.jsx:50-56 | each position keeps its stock; a mentioned quote takes the update's fields and keeps its symbol when the update does not carry one; an unmentioned quote is unchanged |
| DashboardPage.PagesAgree | frontend/src/pages/Dashboard.jsx:50-56 | a quote the dashboard and the watchlist cache hold alike is still held alike after a price update |

## Left out

- HTTP transport, Express routing, JWT issue and verification (the `auth` middleware, the token in responses) and `GET /auth/me`. The authenticated user is a parameter.
- The `User` model (backend/src/models/User.js) is not part of this model. Its start balance and its bcrypt hashing and comparison are parameters of `Auth.UserStore` and `Auth.Login`.
- Every `catch` branch that answers 500 (database failures, Mongoose cast errors of malformed ids), and the chat's `buy_error` and portfolio `error` replies. The stores do not fail. A missing user document in the chat buy branch is excluded by the precondition that the user has a balance.
- Concurrency: each request, chat message and simulator tick is one atomic step of the model. In the source, handlers interleave at every `await`. Two concurrent `POST /buy` requests can both pass the balance check (backend/src/routes/portfolio.js:35) before either saves (:41). The chat buy holds the live quote object across three awaits (backend/src/services/aiAgent.js:183-216) while the tick rewrites that object in place (backend/src/services/priceSimulator.js:16-18), so the holding's `averagePrice` (:213) and the reply's `price` (:225) can differ from the price charged at :184.
- AiAgent.GetRecommendations: the fixed `suggestions` array of three texts (backend/src/services/aiAgent.js:68-72) is not part of `Recommendations`.
- `GET /portfolio` (the plain holdings list) and `getPortfolioAdvice`, which returns a constant object. The reply sentences of the chat, the prediction `reasoning` strings and the news `summary` text are not modelled; only the choices those strings make are.
- Floating point: prices and balances are reals. `toFixed(2)` is modelled as rounding to the cent, and its string output (the prediction's `targetPrice`, the summary fields) as the rounded number. Binary rounding error and `NaN`/`Infinity` are not modelled. The summary's per-holding percent is `None` where the source divides by zero.
- Portfolio.Merge: when the new share count is zero (only reachable through a chat purchase of zero shares into a zero-share holding) the source computes 0/0; the model keeps the old average.
- PriceSimulator.TickQuote: requires a nonzero previous close (price minus change); the source would produce `Infinity` or `NaN` there.
- `Math.random()` and the clock are parameters (`rs`, `draws`, `now`, `today`). The calendar formatting of history dates is replaced by a day number.
- Unicode case mapping: `toUpperCase`/`toLowerCase` are modelled on ASCII letters only. The password length is counted in characters rather than UTF-16 code units.
- The ordering of the list queries is a stable descending sort on the timestamp; MongoDB does not promise an order among equal timestamps.
- Alerts.ApplyPatch: `isActive` is taken as a boolean; Mongoose's casting of other JSON values is not modelled.
- AiAgent.ProcessChatMessage: the buy branch reads the user's stored balance and the balance branch reports the `userBalance` argument; the model uses the stored balance for both.
- The Dashboard's 5-second banner timeout, the socket `onerror` handler (it only logs) and listener callbacks that add or remove listeners while `forEach` runs.
- `JSON.parse` is a parameter (`None` when it throws). The socket and the timer are replaced by the events they deliver. Object keys inherited from the prototype (a symbol such as "toString" in the client cache) and a non-string `stock.symbol` on the Dashboard are not modelled.
- Request bodies are typed: `shares` and `price` are numbers and `password` is a string. A JSON string such as `"5"` for `shares` passes the checks and is concatenated by `holding.shares + shares` (backend/src/routes/portfolio.js:48), and a numeric password has no `length`, so it passes the check at backend/src/routes/auth.js:18; neither is modelled.
- StockData.GenerateHistoricalData: the table is looked up among its eight keys only. A key inherited from the object prototype, such as `"constructor"`, is found in the source (backend/src/services/stockData.js:103), which then returns `days + 1` points with `NaN` prices rather than `[]`.
- WsClient.WebSocketService.OnMessage: listeners are taken not to throw. In the source a listener that throws is caught by the same `catch` as a parse error (frontend/src/services/websocket.jsx:33-41), so the listeners after it are not called.
- The server side of the WebSocket and its `setInterval` tick loop, React rendering, the REST clients of the frontend, and console logging.

## Findings

| source | as written | input that shows it | evidently intended | confidence | as-written member | corrected member |
|---|---|---|---|---|---|---|
| backend/src/routes/alerts.js:5 | `broadcastAlertTriggered` is imported from `config/websocket.js`, which exports only `initWebSocket` (backend/src/config/websocket.js:52). The call at line 92 throws after the save at line 88, so the handler answers 500 "Failed to update alert" and nothing is broadcast | `PATCH /alerts/7` with body `{ "triggered": true }` on the caller's active, untriggered alert 7 | the alert is saved, returned with 200 and broadcast as `alert_triggered` | not executed | Alerts.PatchAsWritten (shown by Alerts.TriggeredPatchFailsAsWritten and Alerts.PatchAsWrittenDiffers) | Alerts.Patch (proved by Alerts.BroadcastIffTriggered and Alerts.PatchTouchesOnlyTarget) |
