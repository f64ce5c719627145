/**
 * The key-value cache with expiry that fronts every external fetch
 * (storage/cache.py). The SQLite table becomes a map from key to entry;
 * the wall clock becomes an explicit `now` argument (seconds, as a real);
 * `json.dumps` / `json.loads` become the `encode` / `decode` arguments.
 */
module TtlCache {
  import opened Wrappers

  /** One row of the cache table: the serialised payload and its optional expiry instant. */
  datatype Entry = Entry(payload: string, expiresAt: Option<real>)

  /** The whole table, keyed by cache key (the table's primary key). */
  type Store = map<string, Entry>

  /** The expiry `set` records: `now + ttl` when the ttl is truthy, none when it is absent or zero. */
  function ExpiryFor(ttl: Option<int>, now: real): (e: Option<real>)
    ensures e.None? <==> ttl.None? || ttl.value == 0
    ensures e.Some? ==> e.value - now == ttl.value as real
  {
    if ttl.Some? && ttl.value != 0 then Some(now + ttl.value as real) else None
  }

  /** `get`'s staleness test: an expiry that is present, truthy (non-zero) and strictly before `now`. */
  predicate Expired(e: Entry, now: real)
  {
    e.expiresAt.Some? && e.expiresAt.value != 0.0 && e.expiresAt.value < now
  }

  /** `set`: replace the row for `key` by the encoded value and its expiry. */
  function Set<V>(store: Store, key: string, value: V, ttl: Option<int>, now: real,
                  encode: V -> string): (s: Store)
    ensures key in s && s[key].payload == encode(value)
    ensures s[key].expiresAt.None? <==> ttl.None? || ttl.value == 0
    ensures ttl.Some? && ttl.value != 0 ==> s[key].expiresAt == Some(now + ttl.value as real)
    ensures s.Keys == store.Keys + {key}
    ensures forall k :: k in store && k != key ==> s[k] == store[k]
  {
    store[key := Entry(encode(value), ExpiryFor(ttl, now))]
  }

  /** What a `get` hands back (the decoded payload or a miss) and the table after it. */
  datatype GetOutcome<V> = GetOutcome(value: Option<V>, store: Store)

  /** `get`: a miss for an absent key; a miss that deletes the row for an expired one; else the decoded payload. */
  function Get<V>(store: Store, key: string, now: real, decode: string -> V): (r: GetOutcome<V>)
    ensures r.value.Some? <==> key in store && !Expired(store[key], now)
    ensures r.value.Some? ==> r.value.value == decode(store[key].payload)
    ensures r.store.Keys == if r.value.Some? || key !in store then store.Keys else store.Keys - {key}
    ensures forall k :: k in r.store ==> r.store[k] == store[k]
  {
    if key !in store then GetOutcome(None, store)
    else if Expired(store[key], now) then GetOutcome(None, Delete(store, key))
    else GetOutcome(Some(decode(store[key].payload)), store)
  }

  /** `delete`: remove the row for `key`, if any. */
  function Delete(store: Store, key: string): (s: Store)
    ensures s.Keys == store.Keys - {key}
    ensures forall k :: k in s ==> s[k] == store[k]
  {
    store - {key}
  }

  /** `clear`: remove every row. */
  function Clear(store: Store): (s: Store)
    ensures |s| == 0
  {
    map[]
  }

  /** A `set` followed by a `get` at any instant up to and including `now + ttl` returns the stored value. */
  lemma SetThenGetWithinTtl<V>(store: Store, key: string, value: V, ttl: int, now: real, later: real,
                               encode: V -> string, decode: string -> V)
    requires ttl != 0
    requires later <= now + ttl as real
    ensures Get(Set(store, key, value, Some(ttl), now, encode), key, later, decode).value
            == Some(decode(encode(value)))
  {
  }

  /** An absent or zero ttl stores no expiry, so a `get` at any later instant returns the stored value. */
  lemma SetWithoutTtlNeverExpires<V>(store: Store, key: string, value: V, ttl: Option<int>, now: real,
                                     later: real, encode: V -> string, decode: string -> V)
    requires ttl.None? || ttl.value == 0
    ensures Get(Set(store, key, value, ttl, now, encode), key, later, decode)
            == GetOutcome(Some(decode(encode(value))), Set(store, key, value, ttl, now, encode))
  {
  }

  /** A `get` strictly after a (non-zero) expiry is a miss and deletes the key. */
  lemma GetAfterExpiryPurges<V>(store: Store, key: string, now: real, decode: string -> V)
    requires key in store && store[key].expiresAt.Some?
    requires store[key].expiresAt.value != 0.0 && store[key].expiresAt.value < now
    ensures Get(store, key, now, decode).value.None?
    ensures key !in Get(store, key, now, decode).store
  {
  }

  /** One call against the cache, with the instant at which it runs. */
  datatype Call<V> =
    | SetCall(key: string, value: V, ttl: Option<int>, at: real)
    | GetCall(key: string, at: real)
    | DeleteCall(key: string)
    | ClearCall

  /**
   * Replays `calls` from `store`; returns one answer per call (what a `get`
   * returned; `None` for the calls that return nothing) and the final table.
   */
  function Replay<V>(store: Store, calls: seq<Call<V>>, encode: V -> string, decode: string -> V)
    : (r: (seq<Option<V>>, Store))
    ensures |r.0| == |calls|
    decreases |calls|
  {
    if calls == [] then ([], store)
    else
      var (answer, next) := match calls[0]
        case SetCall(k, v, ttl, at) => (None, Set(store, k, v, ttl, at, encode))
        case GetCall(k, at) => var g := Get(store, k, at, decode); (g.value, g.store)
        case DeleteCall(k) => (None, Delete(store, k))
        case ClearCall => (None, Clear(store));
      var rest := Replay(next, calls[1..], encode, decode);
      ([answer] + rest.0, rest.1)
  }

  /** `calls` holds no `set` of `key`. */
  predicate NoSetOf<V>(calls: seq<Call<V>>, key: string)
  {
    forall i :: 0 <= i < |calls| ==> !(calls[i].SetCall? && calls[i].key == key)
  }

  /**
   * Once `key` is gone (deleted, cleared or purged on expiry), no sequence of
   * calls without a `set` of `key` brings it back: every later `get` of it misses.
   */
  lemma {:induction false} NoResurrection<V>(store: Store, calls: seq<Call<V>>, key: string,
                                             encode: V -> string, decode: string -> V)
    requires key !in store
    requires NoSetOf(calls, key)
    ensures key !in Replay(store, calls, encode, decode).1
    ensures forall i :: 0 <= i < |calls| && calls[i].GetCall? && calls[i].key == key ==>
              Replay(store, calls, encode, decode).0[i].None?
    decreases |calls|
  {
    if calls != [] {
      assert NoSetOf(calls[1..], key) by {
        forall i | 0 <= i < |calls[1..]| ensures !(calls[1..][i].SetCall? && calls[1..][i].key == key) {
          assert calls[1..][i] == calls[i + 1];
        }
      }
      var next := match calls[0]
        case SetCall(k, v, ttl, at) => Set(store, k, v, ttl, at, encode)
        case GetCall(k, at) => Get(store, k, at, decode).store
        case DeleteCall(k) => Delete(store, k)
        case ClearCall => Clear(store);
      assert key !in next by {
        if calls[0].SetCall? {
          assert !(calls[0].SetCall? && calls[0].key == key);
        }
      }
      NoResurrection(next, calls[1..], key, encode, decode);
      var r := Replay(store, calls, encode, decode);
      var rest := Replay(next, calls[1..], encode, decode);
      assert r.0 == [r.0[0]] + rest.0;
      forall i | 0 <= i < |calls| && calls[i].GetCall? && calls[i].key == key
        ensures r.0[i].None?
      {
        if i > 0 {
          assert calls[1..][i - 1] == calls[i];
        }
      }
    }
  }
}
