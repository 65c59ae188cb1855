/** The watchlist store: the watchlist routes over the `Watchlist`
    collection, whose `{ userId, symbol }` index is unique. */
module Watchlist {
  import opened Js
  import opened Sorting

  /** A `Watchlist` document; `addedAt` defaults to the creation time. */
  datatype Entry = Entry(userId: UserId, symbol: string, name: string, addedAt: int)

  predicate IsKey(e: Entry, user: UserId, symbol: string) {
    e.userId == user && e.symbol == symbol
  }

  /** The unique compound index: one entry per user and symbol. The same
      symbol may appear under different users. */
  ghost predicate UniqueKeys(es: seq<Entry>) {
    forall i, j :: 0 <= i < j < |es| ==> !(es[i].userId == es[j].userId && es[i].symbol == es[j].symbol)
  }

  /** `Watchlist.findOne({ userId, symbol })`. */
  function FindEntry(es: seq<Entry>, user: UserId, symbol: string): (r: Option<nat>)
    ensures r.Some? ==> r.value < |es| && IsKey(es[r.value], user, symbol)
    ensures r.None? <==> forall j :: 0 <= j < |es| ==> !IsKey(es[j], user, symbol)
  {
    if |es| == 0 then None
    else if IsKey(es[0], user, symbol) then Some(0)
    else
      match FindEntry(es[1..], user, symbol)
      case None => None
      case Some(k) => Some(k + 1)
  }

  /** `GET /watchlist/check/:symbol`: `inWatchlist` is true exactly when the
      caller has an entry with that exact symbol. */
  function InWatchlist(es: seq<Entry>, user: UserId, symbol: string): (b: bool)
    ensures b <==> exists j :: 0 <= j < |es| && IsKey(es[j], user, symbol)
  {
    FindEntry(es, user, symbol).Some?
  }

  /** The body of `POST /watchlist`. */
  datatype AddRequest = AddRequest(symbol: Option<string>, name: Option<string>)

  const FieldsRequired := ApiError(400, "Symbol and name are required")
  const AlreadyListed := ApiError(400, "Stock already in watchlist")
  const NotListed := ApiError(404, "Stock not in watchlist")

  /** `POST /watchlist`: the entry to insert (201), or the rejection. A
      missing or empty symbol or name is refused first, then a symbol the
      caller already watches. */
  function AddEntry(es: seq<Entry>, user: UserId, req: AddRequest, now: int): (r: Result<Entry>)
    ensures r.Ok? <==> TruthyStr(req.symbol) && TruthyStr(req.name) && !InWatchlist(es, user, req.symbol.value)
    ensures r.Ok? ==> r.value == Entry(user, req.symbol.value, req.name.value, now)
    ensures r.Err? ==> r.error == (if TruthyStr(req.symbol) && TruthyStr(req.name) then AlreadyListed else FieldsRequired)
  {
    if !TruthyStr(req.symbol) || !TruthyStr(req.name) then Err(FieldsRequired)
    else if FindEntry(es, user, req.symbol.value).Some? then Err(AlreadyListed)
    else Ok(Entry(user, req.symbol.value, req.name.value, now))
  }

  /** The collection after an add: one entry appended, or nothing. */
  function Added(es: seq<Entry>, user: UserId, req: AddRequest, now: int): seq<Entry> {
    match AddEntry(es, user, req, now)
    case Ok(e) => es + [e]
    case Err(_) => es
  }

  /** An add keeps one entry per user and symbol, and a rejected add stores
      nothing. */
  lemma {:induction false} AddKeepsUnique(es: seq<Entry>, user: UserId, req: AddRequest, now: int)
    requires UniqueKeys(es)
    ensures UniqueKeys(Added(es, user, req, now))
    ensures AddEntry(es, user, req, now).Err? ==> Added(es, user, req, now) == es
    ensures AddEntry(es, user, req, now).Ok? ==> |Added(es, user, req, now)| == |es| + 1
  {
    match AddEntry(es, user, req, now)
    case Err(_) =>
    case Ok(e) =>
      var es' := es + [e];
      forall i, j | 0 <= i < j < |es'| ensures !(es'[i].userId == es'[j].userId && es'[i].symbol == es'[j].symbol) {
        if j == |es| {
          assert !IsKey(es[i], user, req.symbol.value);
        }
      }
  }

  /** After an add with both fields given, the symbol is in the caller's
      watchlist, whether the add inserted it or found it already there; it
      is also possible for a symbol that only other users watch. */
  lemma {:induction false} CheckAfterAdd(es: seq<Entry>, user: UserId, req: AddRequest, now: int)
    requires TruthyStr(req.symbol) && TruthyStr(req.name)
    ensures InWatchlist(Added(es, user, req, now), user, req.symbol.value)
    ensures (forall j :: 0 <= j < |es| ==> es[j].userId != user) ==> AddEntry(es, user, req, now).Ok?
  {
    var es' := Added(es, user, req, now);
    if AddEntry(es, user, req, now).Ok? {
      assert IsKey(es'[|es|], user, req.symbol.value);
    } else {
      var j := FindEntry(es, user, req.symbol.value).value;
      assert IsKey(es'[j], user, req.symbol.value);
    }
  }

  /** `Watchlist.deleteOne({ userId, symbol })`: the collection afterwards and
      whether something was deleted. */
  function RemoveEntry(es: seq<Entry>, user: UserId, symbol: string): (r: (seq<Entry>, bool))
    ensures r.1 <==> FindEntry(es, user, symbol).Some?
    ensures !r.1 ==> r.0 == es
    ensures r.1 ==> |r.0| == |es| - 1
  {
    match FindEntry(es, user, symbol)
    case None => (es, false)
    case Some(i) => (RemoveAt(es, i), true)
  }

  /** A remove deletes the caller's entry for the symbol and nothing else:
      other users' entries and the caller's other symbols stay. It reports
      404 exactly when there was no such entry, and afterwards the check
      answers false. */
  lemma {:induction false} RemoveDeletesOnlyKey(es: seq<Entry>, user: UserId, symbol: string)
    requires UniqueKeys(es)
    ensures var (rest, deleted) := RemoveEntry(es, user, symbol);
      && (deleted <==> InWatchlist(es, user, symbol))
      && UniqueKeys(rest)
      && (forall e :: e in rest <==> e in es && !IsKey(e, user, symbol))
      && !InWatchlist(rest, user, symbol)
  {
    match FindEntry(es, user, symbol)
    case None =>
    case Some(i) =>
      var rest := RemoveAt(es, i);
      forall e {
        RemoveAtElements(es, i, e);
      }
      forall j | 0 <= j < |rest| ensures !IsKey(rest[j], user, symbol) {
        assert rest[j] in rest;
      }
  }

  /** `Watchlist.find({ userId })`, in collection order. */
  function UserEntries(es: seq<Entry>, user: UserId): (r: seq<Entry>)
    ensures forall e :: e in r <==> e in es && e.userId == user
  {
    if es == [] then []
    else
      assert es == [es[0]] + es[1..];
      (if es[0].userId == user then [es[0]] else []) + UserEntries(es[1..], user)
  }

  function AddedAt(e: Entry): real {
    e.addedAt as real
  }

  /** `GET /watchlist`: the caller's entries, most recently added first. */
  function ListWatchlist(es: seq<Entry>, user: UserId): (r: seq<Entry>)
    ensures SortedDesc(r, AddedAt)
    ensures multiset(r) == multiset(UserEntries(es, user))
    ensures forall e :: e in r <==> e in es && e.userId == user
  {
    var r := SortDesc(UserEntries(es, user), AddedAt);
    assert forall e :: e in r <==> e in multiset(r);
    r
  }

  class WatchlistStore {
    /** The `Watchlist` collection, in insertion order. */
    var entries: seq<Entry>

    ghost predicate Valid()
      reads this
    {
      UniqueKeys(entries)
    }

    constructor ()
      ensures Valid() && entries == []
    {
      entries := [];
    }

    /** `POST /watchlist`. */
    method Add(user: UserId, req: AddRequest, now: int) returns (r: Result<Entry>)
      requires Valid()
      modifies this
      ensures Valid()
      ensures r == AddEntry(old(entries), user, req, now)
      ensures entries == Added(old(entries), user, req, now)
    {
      if !TruthyStr(req.symbol) || !TruthyStr(req.name) {
        return Err(FieldsRequired);
      }
      var existing := FindEntry(entries, user, req.symbol.value);
      if existing.Some? {
        return Err(AlreadyListed);
      }
      AddKeepsUnique(entries, user, req, now);
      var item := Entry(user, req.symbol.value, req.name.value, now);
      entries := entries + [item];
      r := Ok(item);
    }

    /** `DELETE /watchlist/:symbol`. */
    method Remove(user: UserId, symbol: string) returns (r: Result<string>)
      requires Valid()
      modifies this
      ensures Valid()
      ensures var (rest, deleted) := RemoveEntry(old(entries), user, symbol);
        entries == rest && r == if deleted then Ok("Removed from watchlist") else Err(NotListed)
    {
      var found := FindEntry(entries, user, symbol);
      if found.None? {
        return Err(NotListed);
      }
      RemoveDeletesOnlyKey(entries, user, symbol);
      entries := RemoveAt(entries, found.value);
      r := Ok("Removed from watchlist");
    }
  }
}
