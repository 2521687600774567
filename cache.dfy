/**
 * The in-process caches: `CacheManager` wraps one time-to-live cache with
 * least-recently-used eviction and counts hits and misses; three module-wide
 * caches (access token, user info, department info) are created on demand
 * with fixed defaults, or together from a cache configuration.
 *
 * The cache library's behaviour is modelled as a state: the stored entries
 * with their expiry times, the recency order of their keys (least recently
 * used first) and the two counters.  Time is a parameter `now` of every
 * operation that consults the clock.
 */
module Cache {
  import opened Values

  datatype Entry<V> = Entry(value: V, expires: int)

  /** The time to live and the capacity a cache was created with. */
  datatype Policy = Policy(ttl: int, maxsize: int)

  datatype CacheState<V> = CacheState(
    entries: map<string, Entry<V>>,
    order: seq<string>,   // keys of `entries`, least recently used first
    hits: nat,
    misses: nat)

  /** An entry is served while the clock is strictly before its expiry time. */
  predicate Live<V>(e: Entry<V>, now: int) {
    now < e.expires
  }

  predicate Distinct(s: seq<string>) {
    forall i, j :: 0 <= i < j < |s| ==> s[i] != s[j]
  }

  /** The number of entries a cache can hold; a capacity below one holds nothing. */
  function Capacity(p: Policy): nat {
    if p.maxsize < 0 then 0 else p.maxsize
  }

  /** The order lists each stored key exactly once, and the capacity is respected. */
  ghost predicate Invariant<V>(p: Policy, s: CacheState<V>) {
    Distinct(s.order)
    && (forall k :: k in s.entries <==> k in s.order)
    && |s.entries| <= Capacity(p)
  }

  /** The keys of `s` that are in `keys`, in their order in `s`. */
  function Keep(s: seq<string>, keys: set<string>): (r: seq<string>)
    ensures forall x :: x in r <==> x in s && x in keys
    ensures Distinct(s) ==> Distinct(r)
  {
    if s == [] then []
    else if s[0] in keys then [s[0]] + Keep(s[1..], keys)
    else Keep(s[1..], keys)
  }

  /** `s` with `key` moved to the most recently used end. */
  function Touch(s: seq<string>, key: string): (r: seq<string>)
    ensures forall x :: x in r <==> x in s || x == key
    ensures Distinct(s) ==> Distinct(r)
    ensures |r| > 0 && r[|r| - 1] == key
  {
    var rest := Keep(s, set x | x in s && x != key);
    assert key !in rest;
    rest + [key]
  }

  /** The entries whose time is not up. */
  function LiveEntries<V>(entries: map<string, Entry<V>>, now: int): (r: map<string, Entry<V>>)
    ensures forall k :: k in r <==> k in entries && Live(entries[k], now)
    ensures forall k :: k in r ==> r[k] == entries[k]
  {
    map k | k in entries && Live(entries[k], now) :: entries[k]
  }

  /** The library's `expire`: every entry whose time is up is dropped. */
  function Purge<V>(s: CacheState<V>, now: int): (r: CacheState<V>)
    ensures r.entries == LiveEntries(s.entries, now)
    ensures r.hits == s.hits && r.misses == s.misses
  {
    var live := LiveEntries(s.entries, now);
    CacheState(live, Keep(s.order, live.Keys), s.hits, s.misses)
  }

  /**
   * `get`: a live entry is a hit and becomes the most recently used; an
   * absent or expired key is a miss and yields `None`.  (The library also
   * moves an expired key to the recent end; the next store drops it before
   * any eviction, so this changes nothing observable.)
   */
  function Lookup<V>(s: CacheState<V>, key: string, now: int): (r: (CacheState<V>, Option<V>))
    ensures r.1.Some? <==> key in s.entries && Live(s.entries[key], now)
    ensures r.1.Some? ==> r.1.value == s.entries[key].value
    ensures r.0.entries == s.entries
    ensures r.1.Some? ==> r.0.hits == s.hits + 1 && r.0.misses == s.misses
    ensures r.1.None? ==> r.0.hits == s.hits && r.0.misses == s.misses + 1
  {
    if key in s.entries && Live(s.entries[key], now) then
      (CacheState(s.entries, Touch(s.order, key), s.hits + 1, s.misses), Some(s.entries[key].value))
    else
      (CacheState(s.entries, if key in s.entries then Touch(s.order, key) else s.order, s.hits, s.misses + 1), None)
  }

  /** Dropping the least recently used entry. */
  function Evict<V>(s: CacheState<V>): CacheState<V>
    requires s.order != []
  {
    CacheState(s.entries - {s.order[0]}, s.order[1..], s.hits, s.misses)
  }

  /**
   * `set`: expired entries go first; a capacity below one refuses every
   * value; storing a new key into a full cache evicts the least recently
   * used entry; the stored entry lives for `ttl` from `now` and becomes the
   * most recently used.
   */
  function Store<V>(p: Policy, s: CacheState<V>, key: string, value: V, now: int): (r: Result<CacheState<V>>)
    ensures r.Err? <==> p.maxsize < 1
    ensures r.Ok? ==> key in r.value.entries && r.value.entries[key] == Entry(value, now + p.ttl)
    ensures r.Ok? ==> r.value.hits == s.hits && r.value.misses == s.misses
  {
    if p.maxsize < 1 then Err(ValueError)
    else Ok(Put(MakeRoom(p, Purge(s, now), key), key, Entry(value, now + p.ttl)))
  }

  /** Room for a new key: a full cache gives up its least recently used entry. */
  function MakeRoom<V>(p: Policy, t: CacheState<V>, key: string): CacheState<V> {
    if key !in t.entries && |t.entries| >= p.maxsize && t.order != [] then Evict(t) else t
  }

  /** The entry goes in under `key`, which becomes the most recently used. */
  function Put<V>(u: CacheState<V>, key: string, e: Entry<V>): CacheState<V> {
    CacheState(u.entries[key := e], Touch(u.order, key), u.hits, u.misses)
  }

  /**
   * `delete`: the key leaves the cache whenever it is stored; the call
   * reports success only for a live entry, because the library raises
   * `KeyError` for an expired one after removing it.
   */
  function Remove<V>(s: CacheState<V>, key: string, now: int): (r: (CacheState<V>, bool))
    ensures key !in r.0.entries
    ensures forall k :: k != key ==> (k in r.0.entries <==> k in s.entries)
    ensures r.1 <==> key in s.entries && Live(s.entries[key], now)
    ensures r.0.hits == s.hits && r.0.misses == s.misses
  {
    if key in s.entries then
      (CacheState(s.entries - {key}, Keep(s.order, set x | x in s.order && x != key), s.hits, s.misses),
       Live(s.entries[key], now))
    else (s, false)
  }

  /** `clear`: every entry goes, the counters stay. */
  function Cleared<V>(s: CacheState<V>): (r: CacheState<V>)
    ensures r.entries == map[] && r.order == []
    ensures r.hits == s.hits && r.misses == s.misses
  {
    CacheState(map[], [], s.hits, s.misses)
  }

  /** The fraction of lookups that were hits; zero before the first lookup. */
  function HitRate(hits: nat, misses: nat): (r: real)
    ensures 0.0 <= r <= 1.0
    ensures r == 0.0 <==> hits == 0
    ensures r == 1.0 <==> hits > 0 && misses == 0
  {
    if hits + misses > 0 then hits as real / (hits + misses) as real else 0.0
  }

  datatype CacheStats = CacheStats(
    name: string, size: nat, maxsize: int, hits: nat, misses: nat, hitRate: real, ttl: int)

  /** The statistics of a cache whose expired entries are already gone. */
  function StatsOf<V>(name: string, p: Policy, s: CacheState<V>): CacheStats {
    CacheStats(name, |s.entries|, p.maxsize, s.hits, s.misses, HitRate(s.hits, s.misses), p.ttl)
  }

  lemma SubsetSize<T>(a: set<T>, b: set<T>)
    requires a <= b
    ensures |a| <= |b|
  {
    assert b == a + (b - a);
  }

  lemma PurgeKeepsInvariant<V>(p: Policy, s: CacheState<V>, now: int)
    requires Invariant(p, s)
    ensures Invariant(p, Purge(s, now))
  {
    var t := Purge(s, now);
    SubsetSize(t.entries.Keys, s.entries.Keys);
  }

  /** Purging twice at the same time is purging once. */
  lemma PurgeIdempotent<V>(s: CacheState<V>, now: int)
    ensures Purge(Purge(s, now), now) == Purge(s, now)
  {
    var t := Purge(s, now);
    assert Purge(t, now).entries == t.entries;
    KeepAll(t.order, t.entries.Keys);
  }

  lemma {:induction false} KeepAll(s: seq<string>, keys: set<string>)
    requires forall x :: x in s ==> x in keys
    ensures Keep(s, keys) == s
  {
    if s != [] {
      KeepAll(s[1..], keys);
    }
  }

  lemma LookupKeepsInvariant<V>(p: Policy, s: CacheState<V>, key: string, now: int)
    requires Invariant(p, s)
    ensures Invariant(p, Lookup(s, key, now).0)
  {
  }

  lemma EvictKeepsOrder<V>(s: CacheState<V>)
    requires Distinct(s.order) && (forall k :: k in s.entries <==> k in s.order)
    requires s.order != []
    ensures Distinct(Evict(s).order)
    ensures forall k :: k in Evict(s).entries <==> k in Evict(s).order
    ensures |Evict(s).entries| == |s.entries| - 1
  {
    var v := s.order[0];
    assert v !in s.order[1..];
    assert (s.entries - {v}).Keys == s.entries.Keys - {v};
  }

  /** An entry put into a cache with room for it, or under a key it already holds, keeps the invariant. */
  lemma PutKeepsInvariant<V>(p: Policy, u: CacheState<V>, key: string, e: Entry<V>)
    requires Distinct(u.order) && (forall k :: k in u.entries <==> k in u.order)
    requires key in u.entries ==> |u.entries| <= Capacity(p)
    requires key !in u.entries ==> |u.entries| < Capacity(p)
    ensures Invariant(p, Put(u, key, e))
  {
    if key !in u.entries {
      assert u.entries[key := e].Keys == u.entries.Keys + {key};
    } else {
      assert u.entries[key := e].Keys == u.entries.Keys;
    }
  }

  /** Whatever is stored, the cache never holds more entries than its capacity. */
  lemma StoreKeepsInvariant<V>(p: Policy, s: CacheState<V>, key: string, value: V, now: int)
    requires Invariant(p, s)
    ensures Store(p, s, key, value, now).Ok? ==> Invariant(p, Store(p, s, key, value, now).value)
  {
    if p.maxsize >= 1 {
      var t := Purge(s, now);
      PurgeKeepsInvariant(p, s, now);
      var u := MakeRoom(p, t, key);
      if key !in t.entries && |t.entries| >= p.maxsize {
        assert t.order != [] by {
          var k :| k in t.entries;
        }
        EvictKeepsOrder(t);
        assert |u.entries| < p.maxsize;
      } else {
        assert u == t;
      }
      PutKeepsInvariant(p, u, key, Entry(value, now + p.ttl));
    }
  }

  lemma RemoveKeepsInvariant<V>(p: Policy, s: CacheState<V>, key: string, now: int)
    requires Invariant(p, s)
    ensures Invariant(p, Remove(s, key, now).0)
  {
    if key in s.entries {
      assert (s.entries - {key}).Keys == s.entries.Keys - {key};
    }
  }

  /** A stored value is served until its time to live runs out, and not after. */
  lemma StoreThenLookup<V>(p: Policy, s: CacheState<V>, key: string, value: V, now: int, later: int)
    requires Store(p, s, key, value, now).Ok?
    ensures Lookup(Store(p, s, key, value, now).value, key, later).1
            == if later < now + p.ttl then Some(value) else None
  {
  }

  /** A deleted key misses on the next lookup. */
  lemma RemoveThenLookup<V>(s: CacheState<V>, key: string, now: int, later: int)
    ensures Lookup(Remove(s, key, now).0, key, later).1 == None
  {
  }

  /**
   * Storing a new key into a cache that is full of live entries evicts
   * exactly the least recently used live key; every other live entry stays.
   */
  lemma StoreEvictsLeastRecent<V>(p: Policy, s: CacheState<V>, key: string, value: V, now: int)
    requires Invariant(p, s) && p.maxsize >= 1
    requires key !in Purge(s, now).entries && |Purge(s, now).entries| == p.maxsize
    ensures Purge(s, now).order != []
    ensures Store(p, s, key, value, now).value.entries
            == (Purge(s, now).entries - {Purge(s, now).order[0]})[key := Entry(value, now + p.ttl)]
  {
    var t := Purge(s, now);
    var e := Entry(value, now + p.ttl);
    FullCacheHasVictim(p, s, now);
    EvictThenPut(p, t, key, e);
    assert Store(p, s, key, value, now) == Ok(Put(MakeRoom(p, t, key), key, e));
  }

  /** Making room for a new key in a full cache and putting it there. */
  lemma EvictThenPut<V>(p: Policy, t: CacheState<V>, key: string, e: Entry<V>)
    requires key !in t.entries && |t.entries| >= p.maxsize && t.order != []
    ensures Put(MakeRoom(p, t, key), key, e).entries == (t.entries - {t.order[0]})[key := e]
  {
  }

  /** After that eviction the cache is exactly full again. */
  lemma StoreIntoFullCacheStaysFull<V>(p: Policy, s: CacheState<V>, key: string, value: V, now: int)
    requires Invariant(p, s) && p.maxsize >= 1
    requires key !in Purge(s, now).entries && |Purge(s, now).entries| == p.maxsize
    ensures |Store(p, s, key, value, now).value.entries| == p.maxsize
  {
    StoreEvictsLeastRecent(p, s, key, value, now);
    FullCacheHasVictim(p, s, now);
    var t := Purge(s, now).entries;
    var victim := Purge(s, now).order[0];
    assert (t - {victim}).Keys == t.Keys - {victim};
  }

  /** A full cache has a least recently used entry to evict. */
  lemma FullCacheHasVictim<V>(p: Policy, s: CacheState<V>, now: int)
    requires Invariant(p, s)
    requires |Purge(s, now).entries| >= 1
    ensures Purge(s, now).order != [] && Purge(s, now).order[0] in Purge(s, now).entries
  {
    var t := Purge(s, now);
    PurgeKeepsInvariant(p, s, now);
    var k :| k in t.entries;
  }

  /** A store never evicts while a live entry has room, or when the key is already live. */
  lemma StoreWithoutEviction<V>(p: Policy, s: CacheState<V>, key: string, value: V, now: int)
    requires p.maxsize >= 1
    requires key in Purge(s, now).entries || |Purge(s, now).entries| < p.maxsize
    ensures forall k :: k in Purge(s, now).entries ==> k in Store(p, s, key, value, now).value.entries
  {
  }

  /** Clearing does not reset the hit and miss counters. */
  lemma ClearThenStats<V>(name: string, p: Policy, s: CacheState<V>)
    ensures StatsOf(name, p, Cleared(s)).size == 0
    ensures StatsOf(name, p, Cleared(s)).hitRate == HitRate(s.hits, s.misses)
  {
  }

  /** One call to a cache, with the time at which it happens. */
  datatype Op<V> =
    | GetOp(key: string, now: int)
    | SetOp(key: string, value: V, now: int)
    | DeleteOp(key: string, now: int)
    | ClearOp
    | SizeOp(now: int)

  /** The state after one call; a refused store leaves the state as it was. */
  function Step<V>(p: Policy, s: CacheState<V>, op: Op<V>): CacheState<V> {
    match op
    case GetOp(k, now) => Lookup(s, k, now).0
    case SetOp(k, v, now) => (var r := Store(p, s, k, v, now); if r.Ok? then r.value else s)
    case DeleteOp(k, now) => Remove(s, k, now).0
    case ClearOp => Cleared(s)
    case SizeOp(now) => Purge(s, now)
  }

  function Run<V>(p: Policy, s: CacheState<V>, ops: seq<Op<V>>): CacheState<V>
    decreases |ops|
  {
    if ops == [] then s else Run(p, Step(p, s, ops[0]), ops[1..])
  }

  function Gets<V>(ops: seq<Op<V>>): nat {
    if ops == [] then 0 else (if ops[0].GetOp? then 1 else 0) + Gets(ops[1..])
  }

  /** Every lookup, and only a lookup, adds one to exactly one of the counters. */
  lemma {:induction false} RunCountsLookups<V>(p: Policy, s: CacheState<V>, ops: seq<Op<V>>)
    ensures Run(p, s, ops).hits + Run(p, s, ops).misses == s.hits + s.misses + Gets(ops)
    ensures Run(p, s, ops).hits >= s.hits && Run(p, s, ops).misses >= s.misses
    decreases |ops|
  {
    if ops != [] {
      RunCountsLookups(p, Step(p, s, ops[0]), ops[1..]);
    }
  }

  /** Any sequence of calls keeps the order consistent and the size within capacity. */
  lemma {:induction false} RunKeepsInvariant<V>(p: Policy, s: CacheState<V>, ops: seq<Op<V>>)
    requires Invariant(p, s)
    ensures Invariant(p, Run(p, s, ops))
    ensures |Run(p, s, ops).entries| <= Capacity(p)
    decreases |ops|
  {
    if ops != [] {
      StepKeepsInvariant(p, s, ops[0]);
      RunKeepsInvariant(p, Step(p, s, ops[0]), ops[1..]);
    }
  }

  /** Every single call keeps the invariant. */
  lemma StepKeepsInvariant<V>(p: Policy, s: CacheState<V>, op: Op<V>)
    requires Invariant(p, s)
    ensures Invariant(p, Step(p, s, op))
  {
    match op {
      case GetOp(k, now) => LookupKeepsInvariant(p, s, k, now);
      case SetOp(k, v, now) => StoreKeepsInvariant(p, s, k, v, now);
      case DeleteOp(k, now) => RemoveKeepsInvariant(p, s, k, now);
      case ClearOp =>
      case SizeOp(now) => PurgeKeepsInvariant(p, s, now);
    }
  }

  /** `CacheManager`: one named cache and its counters. */
  class CacheManager<V> {
    const name: string
    const ttl: int
    const maxsize: int
    var entries: map<string, Entry<V>>
    var order: seq<string>
    var hits: nat
    var misses: nat

    function Limits(): Policy {
      Policy(ttl, maxsize)
    }

    function State(): CacheState<V>
      reads this
    {
      CacheState(entries, order, hits, misses)
    }

    ghost predicate Valid()
      reads this
    {
      Invariant(Limits(), State())
    }

    constructor (ttl: int, maxsize: int, name: string)
      ensures this.ttl == ttl && this.maxsize == maxsize && this.name == name
      ensures State() == CacheState(map[], [], 0, 0)
      ensures Valid()
    {
      this.ttl := ttl;
      this.maxsize := maxsize;
      this.name := name;
      entries := map[];
      order := [];
      hits := 0;
      misses := 0;
    }

    /** The library's expiry pass, run by `set`, `len` and `clear`. */
    method Expire(now: int)
      requires Valid()
      modifies this
      ensures State() == Purge(old(State()), now)
      ensures Valid()
    {
      PurgeKeepsInvariant(Limits(), State(), now);
      entries := LiveEntries(entries, now);
      order := Keep(order, entries.Keys);
    }

    method Get(key: string, now: int) returns (r: Option<V>)
      requires Valid()
      modifies this
      ensures (State(), r) == Lookup(old(State()), key, now)
      ensures Valid()
    {
      LookupKeepsInvariant(Limits(), State(), key, now);
      if key in entries && now < entries[key].expires {
        order := Touch(order, key);
        hits := hits + 1;
        r := Some(entries[key].value);
      } else {
        if key in entries {
          order := Touch(order, key);
        }
        misses := misses + 1;
        r := None;
      }
    }

    /** `set`; a refused value raises `ValueError` and the state stays as it was. */
    method Set(key: string, value: V, now: int) returns (r: Outcome)
      requires Valid()
      modifies this
      ensures r == Done <==> Store(Limits(), old(State()), key, value, now).Ok?
      ensures r.Raised? ==> r.error == ValueError && State() == old(State())
      ensures r == Done ==> State() == Store(Limits(), old(State()), key, value, now).value
      ensures Valid()
    {
      if maxsize < 1 {
        return Raised(ValueError);
      }
      StoreKeepsInvariant(Limits(), State(), key, value, now);
      Expire(now);
      MakeRoomFor(key);
      Insert(key, Entry(value, now + ttl));
      r := Done;
    }

    method MakeRoomFor(key: string)
      modifies this
      ensures State() == MakeRoom(Limits(), old(State()), key)
    {
      if key !in entries && |entries| >= maxsize && order != [] {
        EvictLeastRecent();
      }
    }

    /** The library's `popitem`: the least recently used entry goes. */
    method EvictLeastRecent()
      requires order != []
      modifies this
      ensures State() == Evict(old(State()))
    {
      entries := entries - {order[0]};
      order := order[1..];
    }

    method Insert(key: string, e: Entry<V>)
      modifies this
      ensures State() == Put(old(State()), key, e)
    {
      entries := entries[key := e];
      order := Touch(order, key);
    }

    method Delete(key: string, now: int) returns (r: bool)
      requires Valid()
      modifies this
      ensures (State(), r) == Remove(old(State()), key, now)
      ensures Valid()
    {
      RemoveKeepsInvariant(Limits(), State(), key, now);
      if key in entries {
        r := now < entries[key].expires;
        entries := entries - {key};
        order := Keep(order, set x | x in order && x != key);
      } else {
        r := false;
      }
    }

    method Clear()
      modifies this
      ensures State() == Cleared(old(State()))
      ensures Valid()
    {
      entries := map[];
      order := [];
    }

    /** `size`: the number of live entries. */
    method Size(now: int) returns (n: nat)
      requires Valid()
      modifies this
      ensures State() == Purge(old(State()), now)
      ensures n == |State().entries|
      ensures Valid()
    {
      Expire(now);
      n := |entries|;
    }

    method Stats(now: int) returns (st: CacheStats)
      requires Valid()
      modifies this
      ensures State() == Purge(old(State()), now)
      ensures st == StatsOf(name, Limits(), State())
      ensures Valid()
    {
      var size := Size(now);
      st := CacheStats(name, size, maxsize, hits, misses, HitRate(hits, misses), ttl);
    }
  }

  /** The cache settings a configuration may carry. */
  datatype CacheConfig = CacheConfig(
    accessTokenTtl: int, accessTokenMaxSize: int,
    userInfoTtl: int, userInfoMaxSize: int,
    deptInfoTtl: int, deptInfoMaxSize: int,
    enabled: bool, cleanupInterval: int)

  /** The settings `init_cache` falls back to when the configuration has none. */
  const DefaultCacheConfig := CacheConfig(7200, 10, 600, 1000, 1800, 500, true, 300)

  /** The three module-wide caches, each absent until first created. */
  class CacheRegistry {
    var accessTokenCache: CacheManager?<Value>
    var userInfoCache: CacheManager?<Value>
    var deptInfoCache: CacheManager?<Value>

    constructor ()
      ensures accessTokenCache == null && userInfoCache == null && deptInfoCache == null
    {
      accessTokenCache := null;
      userInfoCache := null;
      deptInfoCache := null;
    }

    /** `init_cache`: three new empty caches from the given settings or the defaults. */
    method InitCache(cacheConfig: Option<CacheConfig>)
      modifies this
      ensures var c := if cacheConfig.Some? then cacheConfig.value else DefaultCacheConfig;
              && accessTokenCache != null && fresh(accessTokenCache)
              && accessTokenCache.Limits() == Policy(c.accessTokenTtl, c.accessTokenMaxSize)
              && accessTokenCache.name == "access_token"
              && userInfoCache != null && fresh(userInfoCache)
              && userInfoCache.Limits() == Policy(c.userInfoTtl, c.userInfoMaxSize)
              && userInfoCache.name == "user_info"
              && deptInfoCache != null && fresh(deptInfoCache)
              && deptInfoCache.Limits() == Policy(c.deptInfoTtl, c.deptInfoMaxSize)
              && deptInfoCache.name == "dept_info"
      ensures accessTokenCache.State() == CacheState(map[], [], 0, 0) && accessTokenCache.Valid()
      ensures userInfoCache.State() == CacheState(map[], [], 0, 0) && userInfoCache.Valid()
      ensures deptInfoCache.State() == CacheState(map[], [], 0, 0) && deptInfoCache.Valid()
    {
      var c := if cacheConfig.Some? then cacheConfig.value else DefaultCacheConfig;
      accessTokenCache := new CacheManager(c.accessTokenTtl, c.accessTokenMaxSize, "access_token");
      userInfoCache := new CacheManager(c.userInfoTtl, c.userInfoMaxSize, "user_info");
      deptInfoCache := new CacheManager(c.deptInfoTtl, c.deptInfoMaxSize, "dept_info");
    }

    /** `get_access_token_cache`: the existing cache, or a new one with the defaults. */
    method GetAccessTokenCache() returns (c: CacheManager<Value>)
      modifies this
      ensures accessTokenCache == c
      ensures userInfoCache == old(userInfoCache) && deptInfoCache == old(deptInfoCache)
      ensures old(accessTokenCache) != null ==> c == old(accessTokenCache)
      ensures old(accessTokenCache) == null ==>
                fresh(c) && c.Limits() == Policy(7200, 10) && c.name == "access_token"
                && c.State() == CacheState(map[], [], 0, 0) && c.Valid()
    {
      if accessTokenCache == null {
        accessTokenCache := new CacheManager(7200, 10, "access_token");
      }
      c := accessTokenCache;
    }

    /** `get_user_info_cache`. */
    method GetUserInfoCache() returns (c: CacheManager<Value>)
      modifies this
      ensures userInfoCache == c
      ensures accessTokenCache == old(accessTokenCache) && deptInfoCache == old(deptInfoCache)
      ensures old(userInfoCache) != null ==> c == old(userInfoCache)
      ensures old(userInfoCache) == null ==>
                fresh(c) && c.Limits() == Policy(600, 1000) && c.name == "user_info"
                && c.State() == CacheState(map[], [], 0, 0) && c.Valid()
    {
      if userInfoCache == null {
        userInfoCache := new CacheManager(600, 1000, "user_info");
      }
      c := userInfoCache;
    }

    /** `get_dept_info_cache`. */
    method GetDeptInfoCache() returns (c: CacheManager<Value>)
      modifies this
      ensures deptInfoCache == c
      ensures accessTokenCache == old(accessTokenCache) && userInfoCache == old(userInfoCache)
      ensures old(deptInfoCache) != null ==> c == old(deptInfoCache)
      ensures old(deptInfoCache) == null ==>
                fresh(c) && c.Limits() == Policy(1800, 500) && c.name == "dept_info"
                && c.State() == CacheState(map[], [], 0, 0) && c.Valid()
    {
      if deptInfoCache == null {
        deptInfoCache := new CacheManager(1800, 500, "dept_info");
      }
      c := deptInfoCache;
    }

    /** `clear_all_cache`: every cache that exists is emptied; its counters stay. */
    method ClearAllCache()
      modifies accessTokenCache, userInfoCache, deptInfoCache
      ensures accessTokenCache != null ==>
                accessTokenCache.entries == map[] && accessTokenCache.hits == old(accessTokenCache.hits)
                && accessTokenCache.misses == old(accessTokenCache.misses) && accessTokenCache.Valid()
      ensures userInfoCache != null ==>
                userInfoCache.entries == map[] && userInfoCache.hits == old(userInfoCache.hits)
                && userInfoCache.misses == old(userInfoCache.misses) && userInfoCache.Valid()
      ensures deptInfoCache != null ==>
                deptInfoCache.entries == map[] && deptInfoCache.hits == old(deptInfoCache.hits)
                && deptInfoCache.misses == old(deptInfoCache.misses) && deptInfoCache.Valid()
    {
      if accessTokenCache != null {
        accessTokenCache.Clear();
      }
      if userInfoCache != null {
        userInfoCache.Clear();
      }
      if deptInfoCache != null {
        deptInfoCache.Clear();
      }
    }
  }
}
