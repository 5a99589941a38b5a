/** The two-level catalogue cache: one in-process map per worker over a shared Redis level. */
module ResponseCache {
  import opened Options

  type Worker = nat
  type Key = nat
  type Time = real

  const TTL: Time := 30.0
  const MAX_ENTRIES: nat := 512

  /** A cached body and when it was read from the database; never null, which reads as a miss. */
  datatype Value = Value(body: nat, loadedAt: Time)
  datatype Entry = Entry(expiresAt: Time, value: Value)
  type Level = map<Key, Entry>

  function Live(m: Level, now: Time): Level {
    map k | k in m && now < m[k].expiresAt :: m[k]
  }

  /** What eviction may leave: no expired entry and, when that is still too many, all but the ones that
      expire first.  Ties are broken freely. */
  ghost predicate EvictedTo(m: Level, now: Time, m': Level) {
    var live := Live(m, now);
    && (forall k :: k in m' ==> k in live && m'[k] == live[k])
    && (|live| < MAX_ENTRIES ==> m' == live)
    && (|live| >= MAX_ENTRIES ==> |m'| == MAX_ENTRIES - 1)
    && (forall k, x :: k in m' && x in live && x !in m' ==> live[x].expiresAt <= m'[k].expiresAt)
  }

  ghost predicate StoredAs(m: Level, k: Key, e: Entry, now: Time, m': Level) {
    if |m| >= MAX_ENTRIES && k !in m then exists mid :: EvictedTo(m, now, mid) && m' == mid[k := e]
    else m' == m[k := e]
  }

  function Lookup(m: Level, k: Key, now: Time): Option<Value> {
    if k in m && now < m[k].expiresAt then Some(m[k].value) else None
  }

  // ---- One worker's map ----

  class CatalogCache {
    var cache: Level

    constructor ()
      ensures cache == map[]
    {
      cache := map[];
    }

    /** A hit that has expired is dropped. */
    method CacheGet(k: Key, now: Time) returns (v: Option<Value>)
      modifies this
      ensures v == Lookup(old(cache), k, now)
      ensures cache == if k in old(cache) && v.None? then old(cache) - {k} else old(cache)
    {
      if k !in cache {
        return None;
      }
      if now >= cache[k].expiresAt {
        cache := cache - {k};
        return None;
      }
      v := Some(cache[k].value);
    }

    /** Drop expired entries, then the ones that expire first, until there is room for one more. */
    method Evict(now: Time)
      modifies this
      ensures EvictedTo(old(cache), now, cache)
      ensures |cache| < 512
      ensures forall k :: k in cache ==> k in old(cache) && cache[k] == old(cache)[k] && now < cache[k].expiresAt
      ensures forall k, x :: k in cache && x in old(cache) && now < old(cache)[x].expiresAt && x !in cache ==>
                old(cache)[x].expiresAt <= cache[k].expiresAt
    {
      cache := Live(cache, now);
      ghost var live := cache;
      if |cache| < MAX_ENTRIES {
        return;
      }
      while |cache| >= MAX_ENTRIES
        invariant forall k :: k in cache ==> k in live && cache[k] == live[k]
        invariant |cache| >= MAX_ENTRIES - 1
        invariant forall k, x :: k in cache && x in live && x !in cache ==> live[x].expiresAt <= cache[k].expiresAt
      {
        var oldest := FirstToExpire(cache);
        assert |cache - {oldest}| == |cache| - 1 by { RemovedSize(cache, oldest); }
        cache := cache - {oldest};
      }
    }

    static method FirstToExpire(m: Level) returns (k: Key)
      requires m != map[]
      ensures k in m && forall x :: x in m ==> m[k].expiresAt <= m[x].expiresAt
    {
      var rest := m.Keys;
      k :| k in rest;
      rest := rest - {k};
      while rest != {}
        invariant k in m && rest <= m.Keys
        invariant forall x :: x in m && x !in rest ==> m[k].expiresAt <= m[x].expiresAt
        decreases |rest|
      {
        var x :| x in rest;
        if m[x].expiresAt < m[k].expiresAt {
          k := x;
        }
        rest := rest - {x};
      }
    }

    method CacheSet(k: Key, v: Value, ttl: Time, now: Time)
      modifies this
      ensures StoredAs(old(cache), k, Entry(now + ttl, v), now, cache)
    {
      if |cache| >= MAX_ENTRIES && k !in cache {
        Evict(now);
      }
      cache := cache[k := Entry(now + ttl, v)];
    }

    /** The worker's own copy, else the shared one, else a fresh load stored at both levels. */
    method GetOrSet(shared: SharedCache, k: Key, body: nat, ttl: Time, now: Time) returns (v: Value)
      modifies this, shared
      ensures v == Returned(State(map[0 := old(cache)], old(shared.entries)), 0, k, body, now)
      ensures Transition(State(map[0 := old(cache)], old(shared.entries)), Tick(Event.GetOrSet(0, k, body, ttl), now),
                         State(map[0 := cache], shared.entries))
    {
      hide StoredAs;
      ghost var before := State(map[0 := cache], shared.entries);
      assert L1(before, 0) == cache;
      var local := CacheGet(k, now);
      if local.Some? {
        return local.value;
      }
      var copy := shared.Get(k, now);
      if copy.Some? {
        CacheSet(k, copy.value, TTL, now);
        v := copy.value;
        assert map[0 := cache] == before.l1[0 := cache];
        return;
      }
      v := Value(body, now);
      CacheSet(k, v, ttl, now);
      shared.Set(k, v, ttl, now);
      assert map[0 := cache] == before.l1[0 := cache];
    }

    method Delete(shared: SharedCache, k: Key)
      modifies this, shared
      ensures cache == old(cache) - {k} && shared.entries == old(shared.entries) - {k}
    {
      cache := cache - {k};
      shared.Remove(k);
    }
  }

  /** Redis: a key past its deadline reads as absent. */
  class SharedCache {
    var entries: Level

    constructor ()
      ensures entries == map[]
    {
      entries := map[];
    }

    method Get(k: Key, now: Time) returns (v: Option<Value>)
      ensures v == Lookup(entries, k, now)
    {
      v := Lookup(entries, k, now);
    }

    method Set(k: Key, v: Value, ttl: Time, now: Time)
      modifies this
      ensures entries == old(entries)[k := Entry(now + RedisTtl(ttl), v)]
    {
      entries := entries[k := Entry(now + RedisTtl(ttl), v)];
    }

    method Remove(k: Key)
      modifies this
      ensures entries == old(entries) - {k}
    {
      entries := entries - {k};
    }
  }

  lemma RemovedSize(m: Level, k: Key)
    requires k in m
    ensures |m - {k}| == |m| - 1
  {
    var m' := m - {k};
    assert m'.Keys == m.Keys - {k};
    assert |m'| == |m'.Keys| && |m| == |m.Keys|;
  }

  // ---- Workers sharing Redis ----

  datatype State = State(l1: map<Worker, Level>, l2: Level)

  function L1(s: State, w: Worker): Level {
    if w in s.l1 then s.l1[w] else map[]
  }

  /** Redis keeps whole seconds, at least one. */
  function RedisTtl(ttl: Time): Time {
    if ttl.Floor <= 1 then 1.0 else ttl.Floor as real
  }

  datatype Event =
    | GetOrSet(worker: Worker, key: Key, body: nat, ttl: Time)   // body: what the database would return now
    | Delete(worker: Worker, key: Key)

  datatype Tick = Tick(event: Event, now: Time)

  /** The worker's map after a lookup dropped an expired hit. */
  function AfterGet(m: Level, k: Key, now: Time): Level {
    if k in m && Lookup(m, k, now).None? then m - {k} else m
  }

  /** What a call returns: the worker's copy, the shared copy, or a fresh load. */
  function Returned(s: State, w: Worker, k: Key, body: nat, now: Time): Value {
    if Lookup(L1(s, w), k, now).Some? then Lookup(L1(s, w), k, now).value
    else if Lookup(s.l2, k, now).Some? then Lookup(s.l2, k, now).value
    else Value(body, now)
  }

  ghost predicate Transition(s: State, t: Tick, s': State) {
    match t.event
    case GetOrSet(w, k, body, ttl) =>
      var m := L1(s, w);
      if Lookup(m, k, t.now).Some? then s' == s
      else if Lookup(s.l2, k, t.now).Some? then
        // A shared hit is copied down with a full fresh TTL.
        && StoredAs(AfterGet(m, k, t.now), k, Entry(t.now + TTL, Lookup(s.l2, k, t.now).value), t.now, L1(s', w))
        && s' == s.(l1 := s.l1[w := L1(s', w)])
      else
        && StoredAs(AfterGet(m, k, t.now), k, Entry(t.now + ttl, Value(body, t.now)), t.now, L1(s', w))
        && s' == State(s.l1[w := L1(s', w)], s.l2[k := Entry(t.now + RedisTtl(ttl), Value(body, t.now))])
    case Delete(w, k) => s' == State(s.l1[w := L1(s, w) - {k}], s.l2 - {k})
  }

  ghost predicate Run(states: seq<State>, ticks: seq<Tick>) {
    && |states| == |ticks| + 1
    && states[0] == State(map[], map[])
    && (forall k :: 0 <= k < |ticks| ==> Transition(states[k], ticks[k], states[k + 1]))
    && (forall j, k :: 0 <= j <= k < |ticks| ==> ticks[j].now <= ticks[k].now)
  }

  /** Calls of the run use time-to-lives of at most `ttl`. */
  ghost predicate TtlAtMost(ticks: seq<Tick>, ttl: Time) {
    forall k :: 0 <= k < |ticks| && ticks[k].event.GetOrSet? ==> ticks[k].event.ttl <= ttl
  }

  /** A shared copy lives RedisTtl(ttl) from its load; a worker's copy at most a further 30 s. */
  function Lifetime(ttl: Time): Time {
    var copied := RedisTtl(ttl) + TTL;
    if ttl > copied then ttl else copied
  }

  ghost predicate YoungEnough(m: Level, life: Time) {
    forall k :: k in m ==> m[k].expiresAt <= m[k].value.loadedAt + life
  }

  ghost predicate Fresh(s: State, ttl: Time) {
    && YoungEnough(s.l2, RedisTtl(ttl))
    && forall w :: w in s.l1 ==> YoungEnough(s.l1[w], Lifetime(ttl)) && |s.l1[w]| <= MAX_ENTRIES
  }

  lemma RedisTtlMonotone(a: Time, b: Time)
    requires a <= b
    ensures RedisTtl(a) <= RedisTtl(b) && Lifetime(a) <= Lifetime(b)
  {
    assert a.Floor <= b.Floor;
    assert a.Floor as real <= b.Floor as real;
  }

  lemma AddedSize(m: Level, k: Key, e: Entry)
    ensures |m[k := e]| == if k in m then |m| else |m| + 1
  {
    assert m[k := e].Keys == m.Keys + {k};
    assert |m[k := e]| == |m[k := e].Keys| && |m| == |m.Keys|;
    if k in m {
      assert m.Keys + {k} == m.Keys;
    }
  }

  /** Storing keeps the map within its bound and its entries young. */
  lemma StoringKeeps(m: Level, k: Key, e: Entry, now: Time, m': Level, life: Time)
    requires StoredAs(m, k, e, now, m') && |m| <= MAX_ENTRIES && YoungEnough(m, life)
    requires e.expiresAt <= e.value.loadedAt + life
    ensures |m'| <= MAX_ENTRIES && YoungEnough(m', life)
  {
    if |m| >= MAX_ENTRIES && k !in m {
      var mid :| EvictedTo(m, now, mid) && m' == mid[k := e];
      AddedSize(mid, k, e);
    } else {
      AddedSize(m, k, e);
    }
  }

  lemma AfterGetKeeps(m: Level, k: Key, now: Time, life: Time)
    requires |m| <= MAX_ENTRIES && YoungEnough(m, life)
    ensures |AfterGet(m, k, now)| <= MAX_ENTRIES && YoungEnough(AfterGet(m, k, now), life)
  {
    if k in m && Lookup(m, k, now).None? {
      RemovedSize(m, k);
    }
  }

  /** One worker's map replaced by a young one within its bound, beside a young shared level. */
  lemma ReplacedKeepsFresh(s: State, w: Worker, m: Level, l2: Level, ttl: Time)
    requires Fresh(s, ttl) && YoungEnough(l2, RedisTtl(ttl))
    requires YoungEnough(m, Lifetime(ttl)) && |m| <= MAX_ENTRIES
    ensures Fresh(State(s.l1[w := m], l2), ttl)
  {
    hide YoungEnough;
  }

  lemma StoringKeepsFresh(s: State, w: Worker, k: Key, e: Entry, now: Time, m: Level, l2: Level, ttl: Time)
    requires Fresh(s, ttl) && YoungEnough(l2, RedisTtl(ttl))
    requires StoredAs(AfterGet(L1(s, w), k, now), k, e, now, m) && e.expiresAt <= e.value.loadedAt + Lifetime(ttl)
    ensures Fresh(State(s.l1[w := m], l2), ttl)
  {
    hide StoredAs, AfterGet;
    AfterGetKeeps(L1(s, w), k, now, Lifetime(ttl));
    StoringKeeps(AfterGet(L1(s, w), k, now), k, e, now, m, Lifetime(ttl));
    ReplacedKeepsFresh(s, w, m, l2, ttl);
  }

  lemma StepKeepsFresh(s: State, t: Tick, s': State, ttl: Time)
    requires Transition(s, t, s') && Fresh(s, ttl) && (t.event.GetOrSet? ==> t.event.ttl <= ttl)
    ensures Fresh(s', ttl)
  {
    hide StoredAs, AfterGet, L1;
    match t.event
    case GetOrSet(w, k, body, ttl') =>
      RedisTtlMonotone(ttl', ttl);
      if Lookup(L1(s, w), k, t.now).Some? {
      } else if Lookup(s.l2, k, t.now).Some? {
        var e := Entry(t.now + TTL, Lookup(s.l2, k, t.now).value);
        StoringKeepsFresh(s, w, k, e, t.now, L1(s', w), s.l2, ttl);
      } else {
        var e := Entry(t.now + ttl', Value(body, t.now));
        StoringKeepsFresh(s, w, k, e, t.now, L1(s', w), s'.l2, ttl);
      }
    case Delete(w, k) =>
      L1Keeps(s, w, ttl);
      DeletionKeeps(L1(s, w), k, Lifetime(ttl));
      ReplacedKeepsFresh(s, w, L1(s, w) - {k}, s.l2 - {k}, ttl);
  }

  lemma L1Keeps(s: State, w: Worker, ttl: Time)
    requires Fresh(s, ttl)
    ensures |L1(s, w)| <= MAX_ENTRIES && YoungEnough(L1(s, w), Lifetime(ttl))
  {
  }

  lemma DeletionKeeps(m: Level, k: Key, life: Time)
    requires |m| <= MAX_ENTRIES && YoungEnough(m, life)
    ensures |m - {k}| <= MAX_ENTRIES && YoungEnough(m - {k}, life)
  {
    if k in m {
      RemovedSize(m, k);
    } else {
      assert m - {k} == m;
    }
  }

  lemma {:induction false} RunKeepsFresh(states: seq<State>, ticks: seq<Tick>, k: nat, ttl: Time)
    requires Run(states, ticks) && TtlAtMost(ticks, ttl) && k < |states|
    ensures Fresh(states[k], ttl)
  {
    if k > 0 {
      RunKeepsFresh(states, ticks, k - 1, ttl);
      assert Transition(states[k - 1], ticks[k - 1], states[k]);
      StepKeepsFresh(states[k - 1], ticks[k - 1], states[k], ttl);
    }
  }

  /** No call ever returns an expired copy, no worker's map outgrows its cap, and every returned value
      was loaded less than the longest lifetime ago. */
  lemma ReturnedIsFresh(states: seq<State>, ticks: seq<Tick>, k: nat, ttl: Time)
    requires Run(states, ticks) && TtlAtMost(ticks, ttl) && k < |ticks| && ticks[k].event.GetOrSet?
    ensures var e := ticks[k].event;
            ticks[k].now < Returned(states[k], e.worker, e.key, e.body, ticks[k].now).loadedAt + Lifetime(ttl)
    ensures forall w :: w in states[k].l1 ==> |states[k].l1[w]| <= MAX_ENTRIES
  {
    RunKeepsFresh(states, ticks, k, ttl);
  }

  // ---- Where a returned value came from ----

  ghost predicate LoadedAt(t: Tick, k: Key, v: Value) {
    t.event.GetOrSet? && t.event.key == k && t.event.body == v.body && t.now == v.loadedAt
  }

  /** One of the first n calls asked for this key and loaded this body at this time. */
  ghost predicate Loaded(ticks: seq<Tick>, n: nat, k: Key, v: Value)
    requires n <= |ticks|
  {
    exists j :: 0 <= j < n && LoadedAt(ticks[j], k, v)
  }

  ghost predicate AllLoaded(m: Level, ticks: seq<Tick>, n: nat)
    requires n <= |ticks|
  {
    forall k :: k in m ==> Loaded(ticks, n, k, m[k].value)
  }

  ghost predicate Sourced(s: State, ticks: seq<Tick>, n: nat)
    requires n <= |ticks|
  {
    AllLoaded(s.l2, ticks, n) && forall w :: AllLoaded(L1(s, w), ticks, n)
  }

  lemma StoringKeepsSource(m: Level, k: Key, e: Entry, now: Time, m': Level, ticks: seq<Tick>, n: nat)
    requires n <= |ticks| && AllLoaded(m, ticks, n) && Loaded(ticks, n, k, e.value)
    requires StoredAs(AfterGet(m, k, now), k, e, now, m')
    ensures AllLoaded(m', ticks, n)
  {
    hide Loaded;
    if |AfterGet(m, k, now)| >= MAX_ENTRIES && k !in AfterGet(m, k, now) {
      var mid :| EvictedTo(AfterGet(m, k, now), now, mid) && m' == mid[k := e];
      assert AllLoaded(mid, ticks, n);
    }
  }

  lemma {:induction false} RunSourced(states: seq<State>, ticks: seq<Tick>, n: nat)
    requires Run(states, ticks) && n <= |ticks|
    ensures Sourced(states[n], ticks, n)
  {
    hide StoredAs, AfterGet, LoadedAt, AllLoaded;
    if n == 0 {
      NothingStored(ticks);
      return;
    }
    var s, t, s' := states[n - 1], ticks[n - 1], states[n];
    RunSourced(states, ticks, n - 1);
    forall m | AllLoaded(m, ticks, n - 1) ensures AllLoaded(m, ticks, n) { StillLoaded(m, ticks, n - 1); }
    assert Transition(s, t, s');
    match t.event
    case GetOrSet(w, k, body, ttl) =>
      var v := Returned(s, w, k, body, t.now);
      ReturnedIsLoaded(s, t, ticks, n);
      if Lookup(L1(s, w), k, t.now).None? {
        var e := if Lookup(s.l2, k, t.now).Some? then Entry(t.now + TTL, v) else Entry(t.now + ttl, v);
        StoringKeepsSource(L1(s, w), k, e, t.now, L1(s', w), ticks, n);
        forall x ensures AllLoaded(L1(s', x), ticks, n) { assert x != w ==> L1(s', x) == L1(s, x); }
        SharedKeepsSource(s.l2, s'.l2, k, v, ticks, n);
      }
    case Delete(w, k) =>
      FewerSourced(L1(s, w), k, ticks, n);
      FewerSourced(s.l2, k, ticks, n);
      forall x ensures AllLoaded(L1(s', x), ticks, n) { assert x != w ==> L1(s', x) == L1(s, x); }
  }

  lemma NothingStored(ticks: seq<Tick>)
    ensures AllLoaded(map[], ticks, 0)
  {
  }

  lemma StillLoaded(m: Level, ticks: seq<Tick>, n: nat)
    requires n < |ticks| && AllLoaded(m, ticks, n)
    ensures AllLoaded(m, ticks, n + 1)
  {
    forall k | k in m ensures Loaded(ticks, n + 1, k, m[k].value) {
      var j :| 0 <= j < n && LoadedAt(ticks[j], k, m[k].value);
    }
  }

  lemma FewerSourced(m: Level, k: Key, ticks: seq<Tick>, n: nat)
    requires n <= |ticks| && AllLoaded(m, ticks, n)
    ensures AllLoaded(m - {k}, ticks, n)
  {
    hide Loaded;
  }

  lemma SharedKeepsSource(l2: Level, l2': Level, k: Key, v: Value, ticks: seq<Tick>, n: nat)
    requires n <= |ticks| && AllLoaded(l2, ticks, n) && Loaded(ticks, n, k, v)
    requires l2' == l2 || exists x :: l2' == l2[k := Entry(x, v)]
    ensures AllLoaded(l2', ticks, n)
  {
    hide Loaded;
  }

  lemma ReturnedIsLoaded(s: State, t: Tick, ticks: seq<Tick>, n: nat)
    requires 0 < n <= |ticks| && ticks[n - 1] == t && t.event.GetOrSet? && Sourced(s, ticks, n)
    ensures Loaded(ticks, n, t.event.key, Returned(s, t.event.worker, t.event.key, t.event.body, t.now))
  {
    hide Loaded;
    if Lookup(L1(s, t.event.worker), t.event.key, t.now).None? && Lookup(s.l2, t.event.key, t.now).None? {
      FreshlyLoaded(t, ticks, n);
    }
  }

  lemma FreshlyLoaded(t: Tick, ticks: seq<Tick>, n: nat)
    requires 0 < n <= |ticks| && ticks[n - 1] == t && t.event.GetOrSet?
    ensures Loaded(ticks, n, t.event.key, Value(t.event.body, t.now))
  {
    assert LoadedAt(ticks[n - 1], t.event.key, Value(t.event.body, t.now));
  }

  /** What a call returns was loaded for that very key by some call up to now: copies between the levels
      and evictions never mix keys. */
  lemma ReturnedWasLoaded(states: seq<State>, ticks: seq<Tick>, k: nat)
    requires Run(states, ticks) && k < |ticks| && ticks[k].event.GetOrSet?
    ensures var e := ticks[k].event;
            Loaded(ticks, k + 1, e.key, Returned(states[k], e.worker, e.key, e.body, ticks[k].now))
  {
    RunSourced(states, ticks, k);
    forall m | AllLoaded(m, ticks, k) ensures AllLoaded(m, ticks, k + 1) { StillLoaded(m, ticks, k); }
    ReturnedIsLoaded(states[k], ticks[k], ticks, k + 1);
  }

  /** The value a call returned when it was made. */
  predicate ReturnsAged(states: seq<State>, ticks: seq<Tick>, age: Time)
    requires |states| == |ticks| + 1
  {
    ticks != [] && ticks[|ticks| - 1].event.GetOrSet? &&
    var t := ticks[|ticks| - 1];
    t.now - Returned(states[|ticks| - 1], t.event.worker, t.event.key, t.event.body, t.now).loadedAt == age
  }

  ghost predicate AgeOccurs(age: Time) {
    exists states, ticks :: Run(states, ticks) && TtlAtMost(ticks, TTL) && ReturnsAged(states, ticks, age)
  }

  /** With the default TTL a returned value can be of any age below 60 s, and of no other: the copy from
      Redis into a worker's map starts a second full TTL. */
  lemma StaleForLessThanTwoTtls(age: Time)
    requires age >= 0.0
    ensures AgeOccurs(age) <==> age < 2.0 * TTL
  {
    if AgeOccurs(age) {
      var states, ticks :| Run(states, ticks) && TtlAtMost(ticks, TTL) && ReturnsAged(states, ticks, age);
      ReturnedIsFresh(states, ticks, |ticks| - 1, TTL);
    }
    if age < 2.0 * TTL {
      AgedRun(age);
    }
  }

  lemma AgedRun(age: Time)
    requires 0.0 <= age < 60.0
    ensures AgeOccurs(age)
  {
    var half := age / 2.0;
    var v := Value(7, 0.0);
    var ticks := [Tick(GetOrSet(1, 5, 7, TTL), 0.0), Tick(GetOrSet(2, 5, 8, TTL), half),
                  Tick(GetOrSet(2, 5, 9, TTL), age)];
    var s0 := State(map[], map[]);
    var s1 := State(map[1 := map[5 := Entry(30.0, v)]], map[5 := Entry(30.0, v)]);
    var s2 := State(s1.l1[2 := map[5 := Entry(half + 30.0, v)]], s1.l2);
    var states := [s0, s1, s2, s2];
    assert AfterGet(map[], 5, 0.0) == map[] && AfterGet(map[], 5, half) == map[];
    assert StoredAs(AfterGet(L1(s0, 1), 5, 0.0), 5, Entry(0.0 + TTL, v), 0.0, map[5 := Entry(30.0, v)]);
    assert s1.l2 == s0.l2[5 := Entry(0.0 + RedisTtl(TTL), v)];
    assert Transition(s0, ticks[0], s1);
    assert StoredAs(AfterGet(L1(s1, 2), 5, half), 5, Entry(half + TTL, v), half, map[5 := Entry(half + 30.0, v)]);
    assert Transition(s1, ticks[1], s2);
    assert Transition(s2, ticks[2], s2);
    assert Run(states, ticks) && TtlAtMost(ticks, TTL) && ReturnsAged(states, ticks, age);
  }

  // ---- A delete shows ----

  /** Storing changes no other entry. */
  lemma StoredEntries(m: Level, k: Key, e: Entry, now: Time, m': Level)
    requires StoredAs(m, k, e, now, m')
    ensures k in m' && m'[k] == e && forall x :: x in m' && x != k ==> x in m && m'[x] == m[x]
  {
  }

  /** Where the entries of one worker's map come from in one step. */
  lemma StepEntries(s: State, t: Tick, s': State, x: Worker, k: Key)
    requires Transition(s, t, s') && k in L1(s', x)
    ensures || (k in L1(s, x) && L1(s', x)[k] == L1(s, x)[k] && !(t.event == Delete(x, k)))
            || (t.event.GetOrSet? && t.event.worker == x && t.event.key == k &&
                L1(s', x)[k].value == Returned(s, x, k, t.event.body, t.now) &&
                L1(s', x)[k].expiresAt in {t.now + 30.0, t.now + t.event.ttl})
  {
    hide StoredAs;
    if t.event.GetOrSet? && t.event.worker == x && Lookup(L1(s, x), t.event.key, t.now).None? {
      var m, key := AfterGet(L1(s, x), t.event.key, t.now), t.event.key;
      var v := Returned(s, x, key, t.event.body, t.now);
      var e := if Lookup(s.l2, key, t.now).Some? then Entry(t.now + TTL, v) else Entry(t.now + t.event.ttl, v);
      StoredEntries(m, key, e, t.now, L1(s', x));
    }
  }

  lemma {:induction false} EntriesEndSoon(states: seq<State>, ticks: seq<Tick>, n: nat, ttl: Time, x: Worker, k: Key)
    requires Run(states, ticks) && TtlAtMost(ticks, ttl) && ttl >= 30.0 && n <= |ticks| && k in L1(states[n], x)
    ensures n > 0 && L1(states[n], x)[k].expiresAt <= ticks[n - 1].now + ttl
  {
    if n > 0 {
      assert Transition(states[n - 1], ticks[n - 1], states[n]);
      StepEntries(states[n - 1], ticks[n - 1], states[n], x, k);
      if k in L1(states[n - 1], x) {
        EntriesEndSoon(states, ticks, n - 1, ttl, x, k);
        assert ticks[n - 2].now <= ticks[n - 1].now;
      }
    }
  }

  /** The value was loaded by one of the calls j + 1 to n - 1. */
  ghost predicate LoadedSince(ticks: seq<Tick>, j: nat, n: nat, k: Key, v: Value)
    requires n <= |ticks|
  {
    exists i :: j < i < n && LoadedAt(ticks[i], k, v)
  }

  /** After call j deleted k: the shared copy and w's own are newer, and any other copy ends soon. */
  ghost predicate Renewed(s: State, ticks: seq<Tick>, j: nat, n: nat, k: Key, w: Worker, until: Time)
    requires n <= |ticks|
  {
    && (k in s.l2 ==> LoadedSince(ticks, j, n, k, s.l2[k].value))
    && forall x :: k in L1(s, x) ==>
         || LoadedSince(ticks, j, n, k, L1(s, x)[k].value)
         || (x != w && L1(s, x)[k].expiresAt <= until)
  }

  lemma SinceLonger(ticks: seq<Tick>, j: nat, n: nat, k: Key)
    requires n < |ticks|
    ensures forall v :: LoadedSince(ticks, j, n, k, v) ==> LoadedSince(ticks, j, n + 1, k, v)
    ensures j < n && ticks[n].event.GetOrSet? && ticks[n].event.key == k ==>
              LoadedSince(ticks, j, n + 1, k, Value(ticks[n].event.body, ticks[n].now))
  {
    if ticks[n].event.GetOrSet? && ticks[n].event.key == k {
      assert LoadedAt(ticks[n], k, Value(ticks[n].event.body, ticks[n].now));
    }
  }

  /** What a call returns while the entries are renewed. */
  lemma ReturnsRenewed(s: State, ticks: seq<Tick>, j: nat, n: nat, k: Key, w: Worker, until: Time)
    requires j < n < |ticks| && Renewed(s, ticks, j, n, k, w, until)
    requires ticks[n].event.GetOrSet? && ticks[n].event.key == k
    ensures var e := ticks[n].event;
            var v := Returned(s, e.worker, k, e.body, ticks[n].now);
            || LoadedSince(ticks, j, n + 1, k, v)
            || (e.worker != w && ticks[n].now < until && k in L1(s, e.worker) && v == L1(s, e.worker)[k].value &&
                Lookup(L1(s, e.worker), k, ticks[n].now).Some?)
  {
    SinceLonger(ticks, j, n, k);
    hide LoadedSince, L1;
  }

  lemma SharedRenewed(s: State, s': State, ticks: seq<Tick>, j: nat, n: nat, k: Key, w: Worker, until: Time)
    requires j < n < |ticks| && Renewed(s, ticks, j, n, k, w, until) && Transition(s, ticks[n], s')
    ensures k in s'.l2 ==> LoadedSince(ticks, j, n + 1, k, s'.l2[k].value)
  {
    SinceLonger(ticks, j, n, k);
    hide LoadedSince, L1, StoredAs, AfterGet;
  }

  lemma RenewedNext(s: State, s': State, ticks: seq<Tick>, j: nat, n: nat, k: Key, w: Worker, until: Time)
    requires j < n < |ticks| && Renewed(s, ticks, j, n, k, w, until) && Transition(s, ticks[n], s')
    ensures Renewed(s', ticks, j, n + 1, k, w, until)
  {
    SharedRenewed(s, s', ticks, j, n, k, w, until);
    SinceLonger(ticks, j, n, k);
    forall x | k in L1(s', x)
      ensures LoadedSince(ticks, j, n + 1, k, L1(s', x)[k].value) || (x != w && L1(s', x)[k].expiresAt <= until)
    {
      StepEntries(s, ticks[n], s', x, k);
      if !(k in L1(s, x) && L1(s', x)[k] == L1(s, x)[k]) {
        ReturnsRenewed(s, ticks, j, n, k, w, until);
      }
      hide LoadedSince, L1, Transition;
    }
  }

  lemma {:induction false} RunRenewed(states: seq<State>, ticks: seq<Tick>, ttl: Time, j: nat, n: nat, k: Key,
                                      w: Worker)
    requires Run(states, ticks) && TtlAtMost(ticks, ttl) && ttl >= 30.0 && j < n <= |ticks|
    requires ticks[j].event == Delete(w, k)
    ensures Renewed(states[n], ticks, j, n, k, w, ticks[j].now + ttl)
  {
    assert Transition(states[n - 1], ticks[n - 1], states[n]);
    if n == j + 1 {
      forall x | k in L1(states[n], x)
        ensures x != w && L1(states[n], x)[k].expiresAt <= ticks[j].now + ttl
      {
        StepEntries(states[j], ticks[j], states[n], x, k);
        EntriesEndSoon(states, ticks, n, ttl, x, k);
      }
      hide Run, LoadedSince;
    } else {
      RunRenewed(states, ticks, ttl, j, n - 1, k, w);
      RenewedNext(states[n - 1], states[n], ticks, j, n - 1, k, w, ticks[j].now + ttl);
      hide Renewed, Transition;
    }
  }

  /** After a delete the next read of the key, by the worker that deleted it at once and by every other worker one
      lifetime later, returns a value that was loaded after the delete. */
  lemma DeletedIsGone(states: seq<State>, ticks: seq<Tick>, ttl: Time, j: nat, n: nat)
    requires Run(states, ticks) && TtlAtMost(ticks, ttl) && ttl >= 30.0 && j < n < |ticks|
    requires ticks[j].event.Delete? && ticks[n].event.GetOrSet? && ticks[n].event.key == ticks[j].event.key
    requires ticks[n].event.worker == ticks[j].event.worker || ticks[n].now >= ticks[j].now + ttl
    ensures var e := ticks[n].event;
            LoadedSince(ticks, j, n + 1, e.key, Returned(states[n], e.worker, e.key, e.body, ticks[n].now))
  {
    var k, w := ticks[j].event.key, ticks[j].event.worker;
    RunRenewed(states, ticks, ttl, j, n, k, w);
    ReturnsRenewed(states[n], ticks, j, n, k, w, ticks[j].now + ttl);
  }

  /** Some read, this long after a delete of its key, returns a value that was loaded before the delete. */
  ghost predicate LagOccurs(lag: Time) {
    exists states, ticks, j: nat, n: nat ::
      Run(states, ticks) && TtlAtMost(ticks, TTL) && LagsAt(states, ticks, j, n, lag)
  }

  ghost predicate LagsAt(states: seq<State>, ticks: seq<Tick>, j: nat, n: nat, lag: Time)
    requires |states| == |ticks| + 1
  {
    && j < n < |ticks| && ticks[j].event.Delete? && ticks[n].event.GetOrSet?
    && ticks[n].event.key == ticks[j].event.key && ticks[n].now - ticks[j].now == lag
    && var e := ticks[n].event;
       !LoadedSince(ticks, j, n + 1, e.key, Returned(states[n], e.worker, e.key, e.body, ticks[n].now))
  }

  /** With the default TTL a delete reaches all other workers within 30 s, and no sooner. */
  lemma DeleteLagIff(lag: Time)
    requires lag >= 0.0
    ensures LagOccurs(lag) <==> lag < 30.0
  {
    hide LoadedSince, Returned;
    if LagOccurs(lag) {
      var states, ticks, j: nat, n: nat :|
        Run(states, ticks) && TtlAtMost(ticks, TTL) && LagsAt(states, ticks, j, n, lag);
      if lag >= 30.0 {
        DeletedIsGone(states, ticks, TTL, j, n);
      }
    }
    if lag < 30.0 {
      LaggingRun(lag);
    }
  }

  lemma LaggingRun(lag: Time)
    requires 0.0 <= lag < 30.0
    ensures LagOccurs(lag)
  {
    var v := Value(7, 0.0);
    var ticks := [Tick(GetOrSet(2, 5, 7, TTL), 0.0), Tick(Delete(1, 5), 0.0), Tick(GetOrSet(2, 5, 8, TTL), lag)];
    var s0 := State(map[], map[]);
    var s1 := State(map[2 := map[5 := Entry(30.0, v)]], map[5 := Entry(30.0, v)]);
    var s2 := State(s1.l1[1 := map[]], map[]);
    var states := [s0, s1, s2, s2];
    assert AfterGet(map[], 5, 0.0) == map[];
    assert StoredAs(AfterGet(L1(s0, 2), 5, 0.0), 5, Entry(0.0 + TTL, v), 0.0, map[5 := Entry(30.0, v)]);
    assert s1.l2 == s0.l2[5 := Entry(0.0 + RedisTtl(TTL), v)];
    assert Transition(s0, ticks[0], s1);
    assert L1(s1, 1) - {5} == map[] && s1.l2 - {5} == map[];
    assert Transition(s1, ticks[1], s2);
    assert Transition(s2, ticks[2], s2);
    assert Returned(s2, 2, 5, 8, lag) == v;
    assert !LoadedSince(ticks, 1, 3, 5, v);
    hide Transition, Returned, LoadedSince, AfterGet;
    assert LagsAt(states, ticks, 1, 2, lag);
    assert Run(states, ticks) && TtlAtMost(ticks, TTL);
  }

  // ---- A stored value is served ----

  lemma StepKeepsEntry(s: State, t: Tick, s': State, w: Worker, k: Key)
    requires Transition(s, t, s') && k in L1(s, w) && t.now < L1(s, w)[k].expiresAt
    requires |L1(s, w)| < 512 && t.event != Delete(w, k)
    ensures k in L1(s', w) && L1(s', w)[k] == L1(s, w)[k]
  {
    if t.event.GetOrSet? && t.event.worker == w {
      AfterGetSize(L1(s, w), t.event.key, t.now);
    }
  }

  lemma AfterGetSize(m: Level, k: Key, now: Time)
    ensures |AfterGet(m, k, now)| <= |m|
  {
    if k in m {
      RemovedSize(m, k);
    }
  }

  /** Until it expires, a worker's copy is what that worker serves, as long as it does not delete it and its map is
      never full. */
  lemma {:induction false} StoredIsServed(states: seq<State>, ticks: seq<Tick>, j: nat, n: nat, w: Worker, k: Key)
    requires Run(states, ticks) && j <= n < |ticks| && k in L1(states[j], w)
    requires ticks[n].now < L1(states[j], w)[k].expiresAt
    requires forall i :: j <= i < n ==> ticks[i].event != Delete(w, k) && |L1(states[i], w)| < 512
    ensures k in L1(states[n], w) && L1(states[n], w)[k] == L1(states[j], w)[k]
    ensures forall body :: Returned(states[n], w, k, body, ticks[n].now) == L1(states[j], w)[k].value
    decreases n
  {
    hide L1, Transition;
    if j < n {
      assert Transition(states[n - 1], ticks[n - 1], states[n]);
      assert ticks[n - 1].now <= ticks[n].now;
      StoredIsServed(states, ticks, j, n - 1, w, k);
      StepKeepsEntry(states[n - 1], ticks[n - 1], states[n], w, k);
    }
  }
}
