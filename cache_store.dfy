/** The front end's `CacheStore`: a bounded map from keys to values with an expiry time,
    evicting the oldest-inserted key at capacity, plus a map of in-flight fetches that lets
    concurrent `getOrSet` callers share one promise. Promises are named by numbers; the clock
    is an input. */
module CacheStores {
  import opened Wrappers
  import opened Text
  import opened JsValues

  datatype Entry = Entry(value: Json, expiresAt: int)

  /** An in-flight fetch: the promise handed to every caller and when it was started. */
  datatype Pending = Pending(promise: nat, timestamp: int)

  /** The whole state of a store: the entries, their keys in insertion order (the iteration
      order of a JavaScript `Map`), the in-flight fetches and the next promise number. */
  datatype Cache = Cache(store: map<string, Entry>, order: seq<string>, pending: map<string, Pending>, next: nat)

  predicate Distinct(s: seq<string>) {
    forall i, j :: 0 <= i < j < |s| ==> s[i] != s[j]
  }

  /** `order` lists exactly the keys of `store`, each once. */
  ghost predicate Tracks(store: map<string, Entry>, order: seq<string>) {
    Distinct(order) && forall k :: k in store <==> k in order
  }

  /** `order` without `key`. */
  function Without(order: seq<string>, key: string): (r: seq<string>)
    ensures forall k :: k in r <==> k in order && k != key
    ensures key !in order ==> r == order
  {
    if order == [] then []
    else if order[0] == key then Without(order[1..], key)
    else [order[0]] + Without(order[1..], key)
  }

  lemma {:induction false} WithoutDistinct(order: seq<string>, key: string)
    requires Distinct(order)
    ensures Distinct(Without(order, key))
  {
    if order != [] {
      WithoutDistinct(order[1..], key);
      assert order[0] !in order[1..] by {
        forall i | 0 <= i < |order[1..]| ensures order[1..][i] != order[0] {
          assert order[1..][i] == order[i + 1];
        }
      }
    }
  }

  lemma DropFirstTracks(store: map<string, Entry>, order: seq<string>)
    requires Tracks(store, order) && order != []
    ensures Tracks(store - {order[0]}, order[1..])
  {
    forall k ensures k in store - {order[0]} <==> k in order[1..] {
      if k in order[1..] {
        var i :| 0 <= i < |order[1..]| && order[1..][i] == k;
        assert order[i + 1] == k;
      }
    }
  }

  lemma WithoutTracks(store: map<string, Entry>, order: seq<string>, key: string)
    requires Tracks(store, order)
    ensures Tracks(store - {key}, Without(order, key))
  {
    WithoutDistinct(order, key);
  }

  lemma AppendTracks(store: map<string, Entry>, order: seq<string>, key: string, e: Entry)
    requires Tracks(store, order) && key !in store
    ensures Tracks(store[key := e], order + [key])
  {
  }

  /** A store that tracks its key order has as many entries as keys in the order. */
  lemma {:induction false} TracksSize(store: map<string, Entry>, order: seq<string>)
    requires Tracks(store, order)
    ensures |store| == |order|
  {
    if order == [] {
      assert store.Keys == {};
    } else {
      var k := order[0];
      var rest := store - {k};
      DropFirstTracks(store, order);
      TracksSize(rest, order[1..]);
      assert store.Keys == rest.Keys + {k};
    }
  }

  /** What `get(key)` returns at `now`: the value while `now <= expiresAt`, `null` otherwise. */
  function Lookup(store: map<string, Entry>, key: string, now: int): Json {
    if key in store && now <= store[key].expiresAt then store[key].value else JNull
  }

  /** The entry for `key` is present but expired at `now`. */
  predicate Expired(store: map<string, Entry>, key: string, now: int) {
    key in store && now > store[key].expiresAt
  }

  /** The state after `get(key)` or `has(key)`: an expired entry is deleted. */
  function Expire(c: Cache, key: string, now: int): (r: Cache)
    ensures r.pending == c.pending && r.next == c.next
    ensures forall k :: k != key ==> (k in r.store <==> k in c.store)
    ensures Expired(c.store, key, now) ==> key !in r.store
    ensures !Expired(c.store, key, now) ==> r == c
  {
    if Expired(c.store, key, now) then c.(store := c.store - {key}, order := Without(c.order, key))
    else c
  }

  lemma ExpireTracks(c: Cache, key: string, now: int)
    requires Tracks(c.store, c.order)
    ensures Tracks(Expire(c, key, now).store, Expire(c, key, now).order)
  {
    WithoutTracks(c.store, c.order, key);
  }

  /** Whether `set` first evicts the oldest key: at capacity, when a first key exists and is
      not the empty string (which JavaScript treats as false). */
  predicate Evicts(c: Cache, maxSize: int) {
    |c.store| >= maxSize && c.order != [] && c.order[0] != ""
  }

  /** The first step of `set`: the oldest key goes when `Evicts` holds. */
  function Evict(c: Cache, maxSize: int): (r: Cache)
    ensures r.pending == c.pending && r.next == c.next
    ensures Evicts(c, maxSize) ==> r.store == c.store - {c.order[0]} && r.order == c.order[1..]
    ensures !Evicts(c, maxSize) ==> r == c
  {
    if Evicts(c, maxSize) then c.(store := c.store - {c.order[0]}, order := c.order[1..]) else c
  }

  /** The second step of `set`: a present key keeps its place, a new one goes last. */
  function Insert(c: Cache, key: string, e: Entry): (r: Cache)
    ensures r.store == c.store[key := e] && r.pending == c.pending && r.next == c.next
  {
    c.(store := c.store[key := e], order := if key in c.store then c.order else c.order + [key])
  }

  /** The state after `set(key, value)` with the given expiry time. */
  function Put(c: Cache, maxSize: int, key: string, value: Json, expiresAt: int): (r: Cache)
    ensures key in r.store && r.store[key] == Entry(value, expiresAt)
    ensures r.pending == c.pending && r.next == c.next
  {
    Insert(Evict(c, maxSize), key, Entry(value, expiresAt))
  }

  lemma PutTracks(c: Cache, maxSize: int, key: string, value: Json, expiresAt: int)
    requires Tracks(c.store, c.order)
    ensures Tracks(Put(c, maxSize, key, value, expiresAt).store, Put(c, maxSize, key, value, expiresAt).order)
  {
    var e := Evict(c, maxSize);
    if Evicts(c, maxSize) {
      DropFirstTracks(c.store, c.order);
    }
    if key !in e.store {
      AppendTracks(e.store, e.order, key, Entry(value, expiresAt));
    }
  }

  /** Apart from the key set and the evicted oldest key, `set` leaves every entry as it was. */
  lemma PutKeepsOthers(c: Cache, maxSize: int, key: string, value: Json, expiresAt: int, k: string)
    requires k != key && !(Evicts(c, maxSize) && k == c.order[0])
    ensures var r := Put(c, maxSize, key, value, expiresAt);
      (k in r.store <==> k in c.store) && (k in c.store ==> r.store[k] == c.store[k])
  {
  }

  /** The expiry time `set` gives an entry: `now + (ttl ?? defaultTTL)`. */
  function ExpiryOf(ttl: Option<int>, defaultTTL: int, now: int): int {
    now + ttl.GetOr(defaultTTL)
  }

  /** What `getOrSet` hands back: the cached value, the promise of a fetch already in flight,
      or the promise of a fetch it has just started by calling `fetchFn` once. */
  datatype Fetch = FromCache(value: Json) | Joined(promise: nat) | Started(promise: nat)

  /** `getOrSet(key, fetchFn)` at `now`: its answer and the new state. */
  function GetOrSetStep(c: Cache, key: string, now: int): (r: (Fetch, Cache))
    ensures r.1.store == Expire(c, key, now).store && r.1.order == Expire(c, key, now).order
  {
    var c1 := Expire(c, key, now);
    var hit := Lookup(c.store, key, now);
    if hit != JNull then (FromCache(hit), c1)
    else if key in c1.pending then (Joined(c1.pending[key].promise), c1)
    else (Started(c1.next), c1.(pending := c1.pending[key := Pending(c1.next, now)], next := c1.next + 1))
  }

  /** The `.then` handler of a fetch that resolved with `value`: the pending entry for the key
      goes and the value is stored. A rejected fetch has no handler, so nothing changes. */
  function Resolve(c: Cache, maxSize: int, key: string, value: Json, expiresAt: int): (r: Cache)
    ensures r.store == Put(c, maxSize, key, value, expiresAt).store
    ensures r.order == Put(c, maxSize, key, value, expiresAt).order
  {
    Put(c.(pending := c.pending - {key}), maxSize, key, value, expiresAt)
  }

  /** The keys `invalidatePattern` keeps, in their order. */
  function KeepUnmatched(order: seq<string>, test: string -> bool): (r: seq<string>)
    ensures forall k :: k in r <==> k in order && !test(k)
    ensures Distinct(order) ==> Distinct(r)
  {
    if order == [] then []
    else (if test(order[0]) then [] else [order[0]]) + KeepUnmatched(order[1..], test)
  }

  /** The pass of `invalidatePattern` over the keys in insertion order: the entries whose keys
      the pattern accepts are dropped, and the other keys are kept in order. */
  method DropMatching(keys: seq<string>, store: map<string, Entry>, test: string -> bool)
    returns (remaining: map<string, Entry>, kept: seq<string>)
    ensures kept == KeepUnmatched(keys, test)
    ensures Dropped(remaining, store, keys, test)
  {
    remaining := store;
    kept := [];
    for i := 0 to |keys|
      invariant kept == KeepUnmatched(keys[..i], test)
      invariant Dropped(remaining, store, keys[..i], test)
    {
      Considered(keys, i, remaining, store, test);
      var key := keys[i];
      remaining := remaining - (if test(key) then {key} else {});
      kept := kept + (if test(key) then [] else [key]);
    }
    assert keys[..|keys|] == keys;
  }

  /** Both loop invariants of `DropMatching` carry over to one more key. */
  lemma Considered(keys: seq<string>, i: nat, remaining: map<string, Entry>,
                   store: map<string, Entry>, test: string -> bool)
    requires i < |keys| && Dropped(remaining, store, keys[..i], test)
    ensures Dropped(remaining - (if test(keys[i]) then {keys[i]} else {}), store, keys[..i + 1], test)
    ensures KeepUnmatched(keys[..i + 1], test) == KeepUnmatched(keys[..i], test) + (if test(keys[i]) then [] else [keys[i]])
  {
    assert keys[..i + 1] == keys[..i] + [keys[i]];
    KeepUnmatchedAppend(keys[..i], keys[i], test);
    DroppedStep(remaining, store, keys[..i], keys[i], test);
  }

  /** `remaining` is `store` without the keys of `done` that the pattern accepts. */
  ghost predicate Dropped(remaining: map<string, Entry>, store: map<string, Entry>,
                          done: seq<string>, test: string -> bool) {
    && (forall k :: k in remaining <==> k in store && !(k in done && test(k)))
    && (forall k :: k in remaining ==> remaining[k] == store[k])
  }

  /** One more key considered: it is dropped when the pattern accepts it. */
  lemma DroppedStep(remaining: map<string, Entry>, store: map<string, Entry>,
                    done: seq<string>, key: string, test: string -> bool)
    requires Dropped(remaining, store, done, test)
    ensures Dropped(remaining - (if test(key) then {key} else {}), store, done + [key], test)
  {
    forall k ensures k in done + [key] <==> k in done || k == key {
    }
  }

  // Properties of the state functions.

  /** An entry is still returned at exactly its expiry time and gone one unit later. */
  lemma LookupAtExpiry(store: map<string, Entry>, key: string)
    requires key in store
    ensures Lookup(store, key, store[key].expiresAt) == store[key].value
    ensures Lookup(store, key, store[key].expiresAt + 1) == JNull
  {
  }

  /** With a positive capacity and no empty keys, `set` never takes the store above capacity. */
  lemma {:induction false} PutKeepsBound(c: Cache, maxSize: int, key: string, value: Json, expiresAt: int)
    requires Tracks(c.store, c.order) && |c.store| <= maxSize && maxSize >= 1
    requires forall k :: k in c.store ==> k != ""
    ensures |Put(c, maxSize, key, value, expiresAt).store| <= maxSize
  {
    var r := Put(c, maxSize, key, value, expiresAt);
    PutTracks(c, maxSize, key, value, expiresAt);
    TracksSize(c.store, c.order);
    TracksSize(r.store, r.order);
    if |c.store| >= maxSize {
      assert c.order[0] in c.store;
      assert Evicts(c, maxSize);
    }
  }

  /** At capacity the oldest key is evicted even when the key being set is already stored, so
      the store shrinks by one. */
  lemma {:induction false} PutEvictsOldest(c: Cache, maxSize: int, key: string, value: Json, expiresAt: int)
    requires Tracks(c.store, c.order) && Evicts(c, maxSize)
    requires key in c.store && key != c.order[0]
    ensures c.order[0] !in Put(c, maxSize, key, value, expiresAt).store
    ensures |Put(c, maxSize, key, value, expiresAt).store| == |c.store| - 1
  {
    var r := Put(c, maxSize, key, value, expiresAt);
    PutTracks(c, maxSize, key, value, expiresAt);
    TracksSize(c.store, c.order);
    TracksSize(r.store, r.order);
    assert key in c.order[1..] by {
      var i :| 0 <= i < |c.order| && c.order[i] == key;
      assert i != 0 && c.order[1..][i - 1] == key;
    }
    assert c.order[0] !in c.order[1..] by {
      forall i | 0 <= i < |c.order[1..]| ensures c.order[1..][i] != c.order[0] {
        assert c.order[1..][i] == c.order[i + 1];
      }
    }
  }

  /** A cached `null` cannot be told apart from a miss: `getOrSet` fetches or joins. */
  lemma NullIsMiss(c: Cache, key: string, now: int)
    requires key in c.store && c.store[key].value == JNull
    ensures !GetOrSetStep(c, key, now).0.FromCache?
  {
  }

  /** A live non-null entry is returned without fetching and without changing anything. */
  lemma HitFetchesNothing(c: Cache, key: string, now: int)
    requires key in c.store && now <= c.store[key].expiresAt && c.store[key].value != JNull
    ensures GetOrSetStep(c, key, now) == (FromCache(c.store[key].value), c)
  {
  }

  /** A second caller while the first fetch is in flight gets the same promise; a fetch that
      rejects never clears its entry, so every later miss keeps getting that promise. */
  lemma SecondCallerJoins(c: Cache, key: string, now: int, later: int)
    requires GetOrSetStep(c, key, now).0.Started?
    requires Lookup(GetOrSetStep(c, key, now).1.store, key, later) == JNull
    ensures GetOrSetStep(GetOrSetStep(c, key, now).1, key, later).0 == Joined(GetOrSetStep(c, key, now).0.promise)
  {
  }

  /** A started fetch registers exactly one new pending entry, under a fresh promise number. */
  lemma StartedRegisters(c: Cache, key: string, now: int)
    requires GetOrSetStep(c, key, now).0.Started?
    ensures var (f, r) := GetOrSetStep(c, key, now);
      f.promise == c.next && r.next == c.next + 1 && key !in c.pending &&
      r.pending == c.pending[key := Pending(c.next, now)]
  {
  }

  /** Once the fetch resolves, the key is no longer pending and its value is stored. */
  lemma ResolveStores(c: Cache, maxSize: int, key: string, value: Json, expiresAt: int)
    ensures var r := Resolve(c, maxSize, key, value, expiresAt);
      key !in r.pending && r.store[key] == Entry(value, expiresAt) &&
      forall k :: k != key ==> (k in r.pending <==> k in c.pending)
  {
  }

  /** `CacheStore`. */
  class CacheStore {
    var store: map<string, Entry>
    var order: seq<string>
    var pending: map<string, Pending>
    var next: nat
    const maxSize: int
    const defaultTTL: int

    ghost predicate Valid()
      reads this
    {
      Tracks(store, order)
    }

    function State(): Cache
      reads this
    {
      Cache(store, order, pending, next)
    }

    /** `new CacheStore({maxSize, defaultTTL})`: 100 entries and one minute by default. */
    constructor (maxSize: Option<int>, defaultTTL: Option<int>)
      ensures Valid() && store == map[] && order == [] && pending == map[] && next == 0
      ensures this.maxSize == maxSize.GetOr(100) && this.defaultTTL == defaultTTL.GetOr(60000)
    {
      store := map[];
      order := [];
      pending := map[];
      next := 0;
      this.maxSize := maxSize.GetOr(100);
      this.defaultTTL := defaultTTL.GetOr(60000);
    }

    /** `get(key)`. */
    method Get(key: string, now: int) returns (r: Json)
      requires Valid()
      modifies this
      ensures Valid()
      ensures r == Lookup(old(store), key, now)
      ensures State() == Expire(old(State()), key, now)
    {
      if key !in store {
        return JNull;
      }
      var entry := store[key];
      if now > entry.expiresAt {
        WithoutTracks(store, order, key);
        store := store - {key};
        order := Without(order, key);
        return JNull;
      }
      return entry.value;
    }

    /** `set(key, value, ttl)`. */
    method Set(key: string, value: Json, ttl: Option<int>, now: int)
      requires Valid()
      modifies this
      ensures Valid()
      ensures State() == Put(old(State()), maxSize, key, value, ExpiryOf(ttl, defaultTTL, now))
    {
      ghost var c0 := State();
      PutTracks(c0, maxSize, key, value, ExpiryOf(ttl, defaultTTL, now));
      if |store| >= maxSize && |order| > 0 {
        var oldestKey := order[0];
        if oldestKey != "" {
          store := store - {oldestKey};
          order := order[1..];
        }
      }
      ghost var c1 := State();
      assert c1 == Evict(c0, maxSize);
      if key !in store {
        order := order + [key];
      }
      store := store[key := Entry(value, now + (if ttl.Some? then ttl.value else defaultTTL))];
      assert State() == Insert(c1, key, Entry(value, ExpiryOf(ttl, defaultTTL, now)));
    }

    /** `delete(key)`: whether the key was present. */
    method Delete(key: string) returns (existed: bool)
      requires Valid()
      modifies this
      ensures Valid()
      ensures existed <==> key in old(store)
      ensures store == old(store) - {key} && order == Without(old(order), key)
      ensures pending == old(pending) && next == old(next)
    {
      existed := key in store;
      WithoutTracks(store, order, key);
      store := store - {key};
      order := Without(order, key);
    }

    /** `clear()`: both the entries and the in-flight fetches go. */
    method Clear()
      modifies this
      ensures Valid()
      ensures store == map[] && order == [] && pending == map[] && next == old(next)
    {
      store := map[];
      order := [];
      pending := map[];
    }

    /** `has(key)`: like `get`, but answers whether a live entry exists, whatever its value. */
    method Has(key: string, now: int) returns (b: bool)
      requires Valid()
      modifies this
      ensures Valid()
      ensures b <==> key in old(store) && now <= old(store)[key].expiresAt
      ensures State() == Expire(old(State()), key, now)
    {
      if key !in store {
        return false;
      }
      if now > store[key].expiresAt {
        WithoutTracks(store, order, key);
        store := store - {key};
        order := Without(order, key);
        return false;
      }
      return true;
    }

    /** `getOrSet(key, fetchFn, ttl)` up to the point where it returns a promise. */
    method GetOrSet(key: string, now: int) returns (r: Fetch)
      requires Valid()
      modifies this
      ensures Valid()
      ensures (r, State()) == GetOrSetStep(old(State()), key, now)
    {
      var cached := Get(key, now);
      if cached != JNull {
        return FromCache(cached);
      }
      if key in pending {
        return Joined(pending[key].promise);
      }
      r := Started(next);
      pending := pending[key := Pending(next, now)];
      next := next + 1;
    }

    /** The `.then` handler of a fetch started by `getOrSet(key, fetchFn, ttl)`, run at `now`
        when the fetch resolves with `value`. */
    method FetchResolved(key: string, value: Json, ttl: Option<int>, now: int)
      requires Valid()
      modifies this
      ensures Valid()
      ensures State() == Resolve(old(State()), maxSize, key, value, ExpiryOf(ttl, defaultTTL, now))
    {
      pending := pending - {key};
      Set(key, value, ttl, now);
    }

    /** `invalidatePattern(pattern)`: exactly the stored keys the pattern accepts are deleted;
        in-flight fetches stay. `test` stands for `pattern.test`. */
    method InvalidatePattern(test: string -> bool)
      requires Valid()
      modifies this
      ensures Valid()
      ensures forall k :: k in store <==> k in old(store) && !test(k)
      ensures forall k :: k in store ==> store[k] == old(store)[k]
      ensures order == KeepUnmatched(old(order), test)
      ensures pending == old(pending) && next == old(next)
    {
      var remaining, kept := DropMatching(order, store, test);
      store := remaining;
      order := kept;
    }

    /** `getStats()`: the number of entries and of in-flight fetches. */
    function Stats(): (r: (nat, nat))
      reads this
      requires Valid()
      ensures r.0 == |order| && r.1 == |pending|
    {
      TracksSize(store, order);
      (|store|, |pending|)
    }
  }

  lemma {:induction false} KeepUnmatchedAppend(s: seq<string>, k: string, test: string -> bool)
    ensures KeepUnmatched(s + [k], test) == KeepUnmatched(s, test) + (if test(k) then [] else [k])
  {
    if s == [] {
      assert s + [k] == [k];
      assert [k][1..] == [];
    } else {
      var head := if test(s[0]) then [] else [s[0]];
      var tail := if test(k) then [] else [k];
      calc {
        KeepUnmatched(s + [k], test);
        { assert (s + [k])[0] == s[0] && (s + [k])[1..] == s[1..] + [k]; }
        head + KeepUnmatched(s[1..] + [k], test);
        { KeepUnmatchedAppend(s[1..], k, test); }
        head + (KeepUnmatched(s[1..], test) + tail);
        (head + KeepUnmatched(s[1..], test)) + tail;
      }
    }
  }

  /** `apiCache`: the shared store, 200 entries, 30 seconds. */
  method NewApiCache() returns (c: CacheStore)
    ensures fresh(c) && c.Valid() && c.store == map[] && c.pending == map[]
    ensures c.maxSize == 200 && c.defaultTTL == 30000
  {
    c := new CacheStore(Some(200), Some(30000));
  }

  /** The key `cached(fn)` uses: the generator's key, or `name(JSON of the arguments)`. */
  function CachedKey(name: string, args: seq<Json>, keyGenerator: Option<seq<Json> -> string>): (key: string)
    ensures keyGenerator.None? ==> StartsWith(key, name + "(") && EndsWith(key, ")")
    ensures keyGenerator.Some? ==> key == keyGenerator.value(args)
  {
    if keyGenerator.Some? then keyGenerator.value(args)
    else
      var key := name + "(" + Stringify(JArr(args)) + ")";
      assert key[..|name + "("|] == name + "(";
      key
  }

  /** The function `cached(fn)` returns, called with `args`: `getOrSet` on the shared store. */
  method CallCached(cache: CacheStore, name: string, args: seq<Json>,
                    keyGenerator: Option<seq<Json> -> string>, now: int) returns (r: Fetch)
    requires cache.Valid()
    modifies cache
    ensures cache.Valid()
    ensures (r, cache.State()) == GetOrSetStep(old(cache.State()), CachedKey(name, args, keyGenerator), now)
  {
    r := cache.GetOrSet(CachedKey(name, args, keyGenerator), now);
  }

  /** `cachedFetch(key, fetchFn, ttl)`. */
  method CachedFetch(cache: CacheStore, key: string, now: int) returns (r: Fetch)
    requires cache.Valid()
    modifies cache
    ensures cache.Valid()
    ensures (r, cache.State()) == GetOrSetStep(old(cache.State()), key, now)
  {
    r := cache.GetOrSet(key, now);
  }

  /** The characters a JavaScript regular expression gives a meaning of its own. */
  const RegexMeta: string := "\\^$.|?*+()[]{}"

  /** `cmd` reads as itself when pasted into a regular expression. */
  predicate NoRegexMeta(cmd: string) {
    forall i :: 0 <= i < |cmd| ==> cmd[i] !in RegexMeta
  }

  /** The test of the pattern `^cmd\(` that `invalidateCache(cmd)` builds, for a `cmd`
      free of regular-expression metacharacters. */
  function InvalidateTest(cmd: string): string -> bool {
    k => StartsWith(k, cmd + "(")
  }

  /** `invalidateCache(cmd)`. */
  method InvalidateCache(cache: CacheStore, cmd: string)
    requires cache.Valid() && NoRegexMeta(cmd)
    modifies cache
    ensures cache.Valid()
    ensures forall k :: k in cache.store <==> k in old(cache.store) && !StartsWith(k, cmd + "(")
    ensures forall k :: k in cache.store ==> cache.store[k] == old(cache.store)[k]
    ensures cache.pending == old(cache.pending)
  {
    cache.InvalidatePattern(InvalidateTest(cmd));
  }

  /** `clearCache()`. */
  method ClearCache(cache: CacheStore)
    modifies cache
    ensures cache.Valid() && cache.store == map[] && cache.pending == map[]
  {
    cache.Clear();
  }

  /** For a command free of metacharacters and a function name without `(`,
      `invalidateCache(cmd)` drops exactly the keys `cached` built for the function called `cmd`. */
  lemma {:induction false} InvalidateTargetsCachedKeys(cmd: string, name: string, args: seq<Json>)
    requires NoRegexMeta(cmd) && '(' !in name
    ensures InvalidateTest(cmd)(CachedKey(name, args, None)) <==> name == cmd
  {
    var key := CachedKey(name, args, None);
    assert key[..|name| + 1] == name + "(";
    if |name| < |cmd| {
      assert key[|name|] == '(' && cmd[|name|] != '(';
      assert !StartsWith(key, cmd + "(") by {
        if |cmd + "("| <= |key| {
          assert key[..|cmd + "("|][|name|] != (cmd + "(")[|name|];
        }
      }
    } else if |cmd| < |name| {
      assert key[|cmd|] == name[|cmd|] != '(';
      assert !StartsWith(key, cmd + "(") by {
        assert key[..|cmd + "("|][|cmd|] != (cmd + "(")[|cmd|];
      }
    } else {
      assert StartsWith(key, cmd + "(") <==> name + "(" == cmd + "(";
      assert name + "(" == cmd + "(" ==> name == (cmd + "(")[..|cmd|];
    }
  }
}
