/** The watchlist page's client state: the list of watched entries and a
    cache of quotes keyed by symbol, and the two state updaters that change
    them, one for pushed price updates and one for a removal. */
module WatchlistPage {
  import opened Js
  import opened WsClient
  import opened Watchlist

  /** `stocks`: symbol to the quote object last loaded or merged. */
  type Cache = map<string, Obj>

  /** `data.data[symbol]`: the value of a property of the parsed object. If
      a key were repeated the last value would win, as in `JSON.parse`. */
  function Get(p: Payload, key: string): (r: Option<Obj>)
    ensures r.None? <==> forall k :: 0 <= k < |p| ==> p[k].0 != key
  {
    if p == [] then None
    else
      var last := p[|p| - 1];
      if last.0 == key then Some(last.1) else Get(p[..|p| - 1], key)
  }

  /** `Object.keys(data.data)`. */
  function Keys(p: Payload): (r: seq<string>)
    ensures |r| == |p|
    ensures forall k :: 0 <= k < |p| ==> r[k] == p[k].0
  {
    if p == [] then [] else Keys(p[..|p| - 1]) + [p[|p| - 1].0]
  }

  /** One iteration of the `forEach`: a symbol already cached takes the
      update's fields over its own (`{...updated[symbol], ...data.data[symbol]}`);
      any other symbol is skipped. */
  function MergeSymbol(updated: Cache, p: Payload, symbol: string): (r: Cache)
    ensures r.Keys == updated.Keys
  {
    match Get(p, symbol)
    case Some(fields) =>
      if symbol in updated then updated[symbol := updated[symbol] + fields] else updated
    case None => updated
  }

  /** The `forEach` over the keys, folded left to right over a copy of the
      cache. */
  function MergeKeys(updated: Cache, p: Payload, keys: seq<string>): Cache
  {
    if keys == [] then updated
    else MergeKeys(MergeSymbol(updated, p, keys[0]), p, keys[1..])
  }

  /** The cache the updater should produce, stated symbol by symbol: a
      cached symbol with an entry in the update takes the entry's fields
      over its own; every other cached symbol keeps its quote; no symbol is
      added. */
  ghost function Merged(prev: Cache, p: Payload): Cache {
    map s | s in prev :: if Get(p, s).Some? then prev[s] + Get(p, s).value else prev[s]
  }

  /** `handlePriceUpdate(data)` applied to the cache: only a `price_update`
      with a `data` object changes it. */
  function HandlePriceUpdate(prev: Cache, msg: Message): (r: Cache)
    ensures r.Keys == prev.Keys
    ensures msg.kind != Str("price_update") || msg.data.None? ==> r == prev
  {
    if msg.kind == Str("price_update") && msg.data.Some? then
      MergeKeysKeepsKeys(prev, msg.data.value, Keys(msg.data.value));
      MergeKeys(prev, msg.data.value, Keys(msg.data.value))
    else prev
  }

  lemma {:induction false} MergeKeysKeepsKeys(m: Cache, p: Payload, keys: seq<string>)
    ensures MergeKeys(m, p, keys).Keys == m.Keys
  {
    if keys != [] {
      MergeKeysKeepsKeys(MergeSymbol(m, p, keys[0]), p, keys[1..]);
    }
  }

  /** The fold over any list of keys merges, into each cached symbol, the
      update's fields for that symbol exactly when the keys visit it,
      whatever their order or repetition. */
  lemma {:induction false} MergeKeysAt(m: Cache, p: Payload, keys: seq<string>, s: string)
    requires s in m
    ensures s in MergeKeys(m, p, keys)
    ensures MergeKeys(m, p, keys)[s] == if s in keys && Get(p, s).Some? then m[s] + Get(p, s).value else m[s]
  {
    if keys != [] {
      var m' := MergeSymbol(m, p, keys[0]);
      MergeSymbolAt(m, p, keys[0], s);
      MergeKeysAt(m', p, keys[1..], s);
      assert s in keys <==> s == keys[0] || s in keys[1..];
      if s == keys[0] && Get(p, s).Some? {
        MergeTwice(m[s], Get(p, s).value);
      }
    }
  }

  /** What one iteration does to one cached symbol. */
  lemma MergeSymbolAt(m: Cache, p: Payload, key: string, s: string)
    requires s in m
    ensures MergeSymbol(m, p, key)[s] == if s == key && Get(p, s).Some? then m[s] + Get(p, s).value else m[s]
  {
  }

  /** Merging the same fields twice is merging them once. */
  lemma MergeTwice(o: Obj, fields: Obj)
    ensures o + fields + fields == o + fields
  {
  }

  /** The updater does what `Merged` states: symbols already cached take
      the message's fields over theirs, the others keep their quotes, and
      no symbol is added. */
  lemma PriceUpdateMerges(prev: Cache, msg: Message)
    requires msg.kind == Str("price_update") && msg.data.Some?
    ensures HandlePriceUpdate(prev, msg) == Merged(prev, msg.data.value)
  {
    var p := msg.data.value;
    var r := HandlePriceUpdate(prev, msg);
    forall s | s in prev ensures r[s] == Merged(prev, p)[s] {
      MergeKeysAt(prev, p, Keys(p), s);
      if Get(p, s).Some? {
        var k :| 0 <= k < |p| && p[k].0 == s;
        assert Keys(p)[k] == s;
      }
    }
  }

  /** For one symbol: a field the update carries takes the update's value,
      any other field keeps the cached value, and a symbol the update does
      not mention keeps its quote unchanged. */
  lemma {:induction false} PriceUpdateFields(prev: Cache, msg: Message, s: string, f: string)
    requires msg.kind == Str("price_update") && msg.data.Some?
    requires s in prev
    ensures var r := HandlePriceUpdate(prev, msg); var u := Get(msg.data.value, s);
      && s in r
      && (u.None? ==> r[s] == prev[s])
      && (u.Some? && f in u.value ==> f in r[s] && r[s][f] == u.value[f])
      && (u.Some? && f !in u.value && f in prev[s] ==> f in r[s] && r[s][f] == prev[s][f])
  {
    PriceUpdateMerges(prev, msg);
  }

  /** `handleRemove(symbol)` once the server has answered: the watched
      entries without that symbol. */
  function RemoveFromList(list: seq<Entry>, symbol: string): (r: seq<Entry>)
    ensures forall e :: e in r <==> e in list && e.symbol != symbol
    ensures |r| <= |list|
  {
    if list == [] then []
    else
      var rest := RemoveFromList(list[1..], symbol);
      assert forall e :: e in list <==> e == list[0] || e in list[1..];
      if list[0].symbol != symbol then [list[0]] + rest else rest
  }

  /** The filter keeps the list's order: it distributes over concatenation
      and keeps a single entry exactly when its symbol is another. */
  lemma {:induction false} RemoveFromListInOrder(a: seq<Entry>, b: seq<Entry>, symbol: string)
    ensures RemoveFromList(a + b, symbol) == RemoveFromList(a, symbol) + RemoveFromList(b, symbol)
    ensures forall e :: RemoveFromList([e], symbol) == if e.symbol != symbol then [e] else []
  {
    RemoveFromListAppend(a, b, symbol);
    forall e ensures RemoveFromList([e], symbol) == if e.symbol != symbol then [e] else [] {
      assert [e][1..] == [];
    }
  }

  lemma {:induction false} RemoveFromListAppend(a: seq<Entry>, b: seq<Entry>, symbol: string)
    ensures RemoveFromList(a + b, symbol) == RemoveFromList(a, symbol) + RemoveFromList(b, symbol)
  {
    if a == [] {
      assert a + b == b;
    } else {
      assert (a + b)[1..] == a[1..] + b;
      RemoveFromListAppend(a[1..], b, symbol);
    }
  }

  /** `delete updated[symbol]`. */
  function RemoveFromCache(prev: Cache, symbol: string): (r: Cache)
    ensures r.Keys == prev.Keys - {symbol}
    ensures forall s :: s in r ==> r[s] == prev[s]
  {
    prev - {symbol}
  }

  /** The page state after `handleRemove(symbol)`; `removed` is whether
      the `DELETE` request succeeded. A failed request changes nothing. */
  function HandleRemove(list: seq<Entry>, cache: Cache, symbol: string, removed: bool): (r: (seq<Entry>, Cache))
    ensures removed ==>
      && r.0 == RemoveFromList(list, symbol)
      && (forall e :: e in r.0 <==> e in list && e.symbol != symbol)
      && r.1.Keys == cache.Keys - {symbol}
      && (forall s :: s in r.1 ==> r.1[s] == cache[s])
    ensures !removed ==> r == (list, cache)
  {
    if removed then (RemoveFromList(list, symbol), RemoveFromCache(cache, symbol)) else (list, cache)
  }

  /** A removal keeps the list in order: a list without the symbol comes
      back unchanged, and removing twice is removing once. */
  lemma {:induction false} RemoveFromListKeepsOthers(list: seq<Entry>, symbol: string)
    ensures (forall e :: e in list ==> e.symbol != symbol) ==> RemoveFromList(list, symbol) == list
    ensures RemoveFromList(RemoveFromList(list, symbol), symbol) == RemoveFromList(list, symbol)
  {
    if list != [] {
      var rest := list[1..];
      RemoveFromListKeepsOthers(rest, symbol);
      var once := RemoveFromList(rest, symbol);
      if list[0].symbol != symbol {
        assert RemoveFromList(list, symbol) == [list[0]] + once;
        assert ([list[0]] + once)[1..] == once;
        if forall e :: e in list ==> e.symbol != symbol {
          assert forall e :: e in rest ==> e in list;
          assert [list[0]] + rest == list;
        }
      } else {
        assert RemoveFromList(list, symbol) == once;
      }
    }
  }

  /** The page agrees with the server after a successful removal: the
      client list of the caller's entries, minus the symbol, holds the
      same entries as the caller's part of the collection after
      `DELETE /watchlist/:symbol`. */
  lemma ClientRemoveMatchesServer(es: seq<Entry>, user: UserId, symbol: string)
    requires UniqueKeys(es)
    ensures var (rest, _) := RemoveEntry(es, user, symbol);
      forall e :: e in RemoveFromList(UserEntries(es, user), symbol) <==> e in UserEntries(rest, user)
  {
    RemoveDeletesOnlyKey(es, user, symbol);
  }
}
