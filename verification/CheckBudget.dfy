/** The per-intent budget of network checks: a fixed-window counter, and what it bounds over any span of time. */
module CheckBudget {
  import opened Options

  type IntentId = nat
  type Time = real   // seconds of a monotonic clock

  const LIMIT: nat := 40
  const WINDOW: Time := 3600.0
  const SOFT_CAP: nat := 2000
  const DROP: nat := 500

  datatype Entry = Entry(used: nat, started: Time)

  /** `order` lists the keys of `checks` oldest insertion first, as a Python dict iterates. */
  datatype State = State(checks: map<IntentId, Entry>, order: seq<IntentId>)

  // ---- One call, on values ----

  function Removed(order: seq<IntentId>, id: IntentId): seq<IntentId> {
    if order == [] then []
    else (if order[0] == id then [] else [order[0]]) + Removed(order[1..], id)
  }

  function Without(s: State, id: IntentId): State {
    if id in s.checks then State(s.checks - {id}, Removed(s.order, id)) else s
  }

  /** Setting a key keeps its place when it is already there. */
  function With(s: State, id: IntentId, e: Entry): State {
    State(s.checks[id := e], if id in s.checks then s.order else s.order + [id])
  }

  /** How many of the oldest keys go when the map has outgrown its cap. */
  function DropCount(s: State): nat {
    if |s.checks| <= SOFT_CAP then 0 else if |s.order| < DROP then |s.order| else DROP
  }

  function PruneSet(s: State): set<IntentId> {
    var oldest := s.order[..DropCount(s)];
    set k | k in oldest
  }

  function SoftPruned(s: State): State {
    State(Dropped(s.checks, s.order[..DropCount(s)]), s.order[DropCount(s)..])
  }

  function Dropped(checks: map<IntentId, Entry>, keys: seq<IntentId>): map<IntentId, Entry> {
    checks - set k | k in keys
  }

  lemma DropNone(checks: map<IntentId, Entry>, keys: seq<IntentId>)
    ensures Dropped(checks, keys[..0]) == checks
  {
  }

  lemma DropNext(checks: map<IntentId, Entry>, keys: seq<IntentId>, i: nat)
    requires i < |keys|
    ensures Dropped(checks, keys[..i]) - {keys[i]} == Dropped(checks, keys[..i + 1])
  {
    var next, front := keys[..i + 1], keys[..i];
    assert (set k | k in next) == (set k | k in front) + {keys[i]};
  }

  predicate Fresh(s: State, id: IntentId, now: Time) {
    id !in s.checks || now - s.checks[id].started >= WINDOW
  }

  predicate Accepts(s: State, id: IntentId, now: Time) {
    Fresh(s, id, now) || s.checks[id].used + 1 <= LIMIT
  }

  /** The entry a granted check leaves, before the map is pruned. */
  function Charged(s: State, id: IntentId, now: Time): State {
    With(s, id, if Fresh(s, id, now) then Entry(1, now) else Entry(s.checks[id].used + 1, s.checks[id].started))
  }

  function Consumed(s: State, id: IntentId, now: Time): State {
    if Accepts(s, id, now) then SoftPruned(Charged(s, id, now)) else s
  }

  function Counted(s: State, id: IntentId, now: Time): (State, nat) {
    if id !in s.checks then (s, 0)
    else if now - s.checks[id].started >= WINDOW then (Without(s, id), 0)
    else (s, s.checks[id].used)
  }

  // ---- The counter ----

  class Budget {
    var checks: map<IntentId, Entry>
    var order: seq<IntentId>

    constructor ()
      ensures Abs() == State(map[], [])
    {
      checks, order := map[], [];
    }

    function Abs(): State
      reads this
    {
      State(checks, order)
    }

    method Delete(id: IntentId)
      requires id in checks
      modifies this
      ensures Abs() == Without(old(Abs()), id)
    {
      checks := checks - {id};
      order := Removed(order, id);
    }

    /** Reserve one network check; false when the intent is over its cap. */
    method ConsumeIntentNbcCheck(id: IntentId, now: Time) returns (granted: bool)
      modifies this
      ensures granted <==> Accepts(old(Abs()), id, now)
      ensures Abs() == Consumed(old(Abs()), id, now)
    {
      if id !in checks {
        order := order + [id];
        checks := checks[id := Entry(1, now)];
      } else if now - checks[id].started >= WINDOW {
        checks := checks[id := Entry(1, now)];
      } else {
        var used := checks[id].used + 1;
        if used > LIMIT {
          return false;
        }
        checks := checks[id := Entry(used, checks[id].started)];
      }
      SoftPrune();
      granted := true;
    }

    /** Forget the oldest entries of a map that has grown too large. */
    method SoftPrune()
      modifies this
      ensures Abs() == SoftPruned(old(Abs()))
    {
      hide Dropped;
      var n := if |checks| <= SOFT_CAP then 0 else if |order| < DROP then |order| else DROP;
      var drop := order[..n];
      DropNone(checks, drop);
      order := order[n..];
      for i := 0 to n
        invariant checks == Dropped(old(checks), drop[..i])
        invariant order == old(order)[n..]
      {
        DropNext(old(checks), drop, i);
        checks := checks - {drop[i]};
      }
      assert drop[..n] == drop;
    }

    method IntentNbcCheckCount(id: IntentId, now: Time) returns (used: nat)
      modifies this
      ensures (Abs(), used) == Counted(old(Abs()), id, now)
    {
      if id !in checks {
        return 0;
      }
      if now - checks[id].started >= WINDOW {
        Delete(id);
        return 0;
      }
      used := checks[id].used;
    }

    /** A regenerated QR gets a fresh budget. */
    method ResetIntentNbcChecks(id: Option<IntentId>)
      modifies this
      ensures Abs() == if id.Some? then Without(old(Abs()), id.value) else State(map[], [])
    {
      if id.Some? {
        if id.value in checks {
          Delete(id.value);
        }
      } else {
        checks, order := map[], [];
      }
    }
  }

  // ---- Histories ----

  datatype Call = Consume(id: IntentId) | Count(id: IntentId) | Reset(id: IntentId) | ResetAll
  datatype Tick = Tick(call: Call, now: Time)

  function Step(s: State, t: Tick): State {
    match t.call
    case Consume(id) => Consumed(s, id, t.now)
    case Count(id) => Counted(s, id, t.now).0
    case Reset(id) => Without(s, id)
    case ResetAll => State(map[], [])
  }

  ghost predicate Run(states: seq<State>, ticks: seq<Tick>) {
    && |states| == |ticks| + 1
    && states[0] == State(map[], [])
    && (forall k :: 0 <= k < |ticks| ==> states[k + 1] == Step(states[k], ticks[k]))
    && (forall j, k :: 0 <= j <= k < |ticks| ==> ticks[j].now <= ticks[k].now)
  }

  // ---- The order list, and the size of the map ----

  /** `order` lists exactly the keys of `checks`, each once. */
  ghost predicate OrderListsKeys(s: State) {
    && (forall k :: k in s.checks <==> k in s.order)
    && (forall i, j :: 0 <= i < j < |s.order| ==> s.order[i] != s.order[j])
  }

  lemma {:induction false} DistinctSize(order: seq<IntentId>, keys: set<IntentId>)
    requires (forall k :: k in keys <==> k in order) && forall i, j :: 0 <= i < j < |order| ==> order[i] != order[j]
    ensures |keys| == |order|
  {
    if order == [] {
      assert keys == {};
    } else {
      var rest := order[1..];
      assert order == [order[0]] + rest && order[0] !in rest;
      DistinctSize(rest, keys - {order[0]});
    }
  }

  lemma {:induction false} RemovedMembers(order: seq<IntentId>, id: IntentId)
    requires forall i, j :: 0 <= i < j < |order| ==> order[i] != order[j]
    ensures forall k :: k in Removed(order, id) <==> k in order && k != id
    ensures forall i, j :: 0 <= i < j < |Removed(order, id)| ==> Removed(order, id)[i] != Removed(order, id)[j]
  {
    if order != [] {
      var rest := order[1..];
      assert order == [order[0]] + rest && order[0] !in rest;
      RemovedMembers(rest, id);
    }
  }

  lemma WithoutKeepsOrder(s: State, id: IntentId)
    requires OrderListsKeys(s)
    ensures OrderListsKeys(Without(s, id))
  {
    RemovedMembers(s.order, id);
  }

  lemma WithKeepsOrder(s: State, id: IntentId, e: Entry)
    requires OrderListsKeys(s)
    ensures OrderListsKeys(With(s, id, e)) && |With(s, id, e).checks| <= |s.checks| + 1
  {
    var s' := With(s, id, e);
    assert s'.checks.Keys == s.checks.Keys + {id};
    assert |s'.checks| == |s'.checks.Keys| && |s.checks| == |s.checks.Keys|;
  }

  lemma TailOfDistinct(order: seq<IntentId>, n: nat)
    requires n <= |order| && forall i, j :: 0 <= i < j < |order| ==> order[i] != order[j]
    ensures forall k :: k in order[n..] <==> k in order && k !in order[..n]
    ensures forall i, j :: 0 <= i < j < |order[n..]| ==> order[n..][i] != order[n..][j]
  {
    assert order == order[..n] + order[n..];
    forall k | k in order[n..]
      ensures k !in order[..n]
    {
      var j :| 0 <= j < |order| - n && order[n..][j] == k;
      assert order[n + j] == k;
    }
  }

  lemma PrunedParts(s: State)
    ensures SoftPruned(s).order == s.order[DropCount(s)..]
    ensures forall k :: k in SoftPruned(s).checks <==> k in s.checks && k !in s.order[..DropCount(s)]
  {
    var head := s.order[..DropCount(s)];
    assert forall k :: k in Dropped(s.checks, head) <==> k in s.checks && k !in head;
    hide Dropped;
  }

  lemma PruneKeepsOrder(s: State)
    requires OrderListsKeys(s)
    ensures OrderListsKeys(SoftPruned(s))
  {
    hide SoftPruned;
    PrunedParts(s);
    TailOfDistinct(s.order, DropCount(s));
  }

  lemma OrderSize(s: State)
    requires OrderListsKeys(s)
    ensures |s.checks| == |s.order|
  {
    DistinctSize(s.order, s.checks.Keys);
    assert |s.checks| == |s.checks.Keys|;
  }

  /** The prune drops the entries inserted first, and exactly 500 of them when it drops any. */
  lemma PruneDropsOldest(s: State)
    requires OrderListsKeys(s)
    ensures OrderListsKeys(SoftPruned(s))
    ensures |SoftPruned(s).checks| == if |s.checks| <= 2000 then |s.checks| else |s.checks| - 500
    ensures forall k :: k in SoftPruned(s).checks <==> k in s.checks && k !in s.order[..DropCount(s)]
  {
    hide OrderListsKeys, SoftPruned;
    PrunedParts(s);
    PruneKeepsOrder(s);
    OrderSize(s);
    OrderSize(SoftPruned(s));
  }

  lemma StepKeepsOrder(s: State, t: Tick)
    requires OrderListsKeys(s) && |s.checks| <= SOFT_CAP
    ensures OrderListsKeys(Step(s, t)) && |Step(s, t).checks| <= SOFT_CAP
  {
    hide OrderListsKeys, SoftPruned, Without, With;
    match t.call
    case Consume(id) =>
      if Accepts(s, id, t.now) {
        WithKeepsOrder(s, id, if Fresh(s, id, t.now) then Entry(1, t.now)
                              else Entry(s.checks[id].used + 1, s.checks[id].started));
        PruneDropsOldest(Charged(s, id, t.now));
      }
    case Count(id) =>
      WithoutKeepsOrder(s, id);
      WithoutSize(s, id);
    case Reset(id) =>
      WithoutKeepsOrder(s, id);
      WithoutSize(s, id);
    case ResetAll =>
      NothingOrdered();
  }

  lemma NothingOrdered()
    ensures OrderListsKeys(State(map[], []))
  {
  }

  lemma WithoutSize(s: State, id: IntentId)
    ensures |Without(s, id).checks| <= |s.checks|
  {
    if id in s.checks {
      assert (s.checks - {id}).Keys == s.checks.Keys - {id};
      assert |s.checks - {id}| == |(s.checks - {id}).Keys| && |s.checks| == |s.checks.Keys|;
    }
  }

  /** In every run the list holds exactly the map's keys, and the map never exceeds its cap after a call. */
  lemma {:induction false} RunKeepsOrder(states: seq<State>, ticks: seq<Tick>, k: nat)
    requires Run(states, ticks) && k < |states|
    ensures OrderListsKeys(states[k]) && |states[k].checks| == |states[k].order| <= SOFT_CAP
  {
    hide Step;
    if k > 0 {
      RunKeepsOrder(states, ticks, k - 1);
      assert states[k - 1 + 1] == Step(states[k - 1], ticks[k - 1]);
      StepKeepsOrder(states[k - 1], ticks[k - 1]);
    }
    OrderSize(states[k]);
  }

  /** The call throws away what is known about id: a reset, or the soft prune reaching its entry. */
  predicate Forgets(s: State, t: Tick, id: IntentId) {
    match t.call
    case Consume(x) => Accepts(s, x, t.now) && id in PruneSet(Charged(s, x, t.now))
    case Count(_) => false
    case Reset(x) => x == id
    case ResetAll => true
  }

  /** Call k is a check charged to id. */
  predicate ChargedAt(states: seq<State>, ticks: seq<Tick>, k: nat, id: IntentId)
    requires |states| == |ticks| + 1 && k < |ticks|
  {
    ticks[k].call == Consume(id) && Accepts(states[k], id, ticks[k].now)
  }

  /** Checks charged to id by calls a to b - 1 at times in [from, until). */
  function Charges(states: seq<State>, ticks: seq<Tick>, id: IntentId, a: nat, b: nat, from: Time, until: Time): nat
    requires |states| == |ticks| + 1 && a <= b <= |ticks|
    decreases b
  {
    if a == b then 0
    else Charges(states, ticks, id, a, b - 1, from, until) +
         if ChargedAt(states, ticks, b - 1, id) && from <= ticks[b - 1].now < until then 1 else 0
  }

  function ClockAt(ticks: seq<Tick>, k: nat, start: Time): Time
    requires k <= |ticks|
  {
    if k == 0 then start else ticks[k - 1].now
  }

  /** No entry is over the limit or starts in the future. */
  ghost predicate EntriesOk(s: State, now: Time) {
    forall id :: id in s.checks ==> s.checks[id].used <= LIMIT && s.checks[id].started <= now
  }

  lemma {:induction false} RunEntriesOk(states: seq<State>, ticks: seq<Tick>, k: nat, start: Time)
    requires Run(states, ticks) && k < |states|
    requires ticks != [] ==> start <= ticks[0].now
    ensures EntriesOk(states[k], ClockAt(ticks, k, start))
  {
    if k > 0 {
      RunEntriesOk(states, ticks, k - 1, start);
      assert states[k - 1 + 1] == Step(states[k - 1], ticks[k - 1]);
      assert k > 1 ==> ticks[k - 2].now <= ticks[k - 1].now;
    }
  }

  // ---- What the counter counts ----

  /** The part of one call that concerns the entry of id, when id has one afterwards. */
  lemma EntryAfter(s: State, t: Tick, id: IntentId)
    requires id in Step(s, t).checks
    ensures var e := Step(s, t).checks[id];
            if t.call == Consume(id) && Accepts(s, id, t.now) then
              e == if Fresh(s, id, t.now) then Entry(1, t.now) else Entry(s.checks[id].used + 1, s.checks[id].started)
            else id in s.checks && e == s.checks[id]
  {
  }

  /** The counter is the number of checks charged to the intent since the call that opened its window. */
  lemma {:induction false} EntryCounts(states: seq<State>, ticks: seq<Tick>, id: IntentId, k: nat, until: Time)
    returns (j: nat)
    requires Run(states, ticks) && k < |states| && id in states[k].checks
    requires k > 0 ==> ticks[k - 1].now < until
    ensures j < k && ChargedAt(states, ticks, j, id) && states[k].checks[id].started == ticks[j].now
    ensures states[k].checks[id].used == Charges(states, ticks, id, j, k, ticks[j].now, until)
  {
    hide Step, Accepts, Fresh;
    var s, t := states[k - 1], ticks[k - 1];
    assert states[k - 1 + 1] == Step(s, t);
    EntryAfter(s, t, id);
    if t.call == Consume(id) && Accepts(s, id, t.now) && Fresh(s, id, t.now) {
      j := k - 1;
      assert Charges(states, ticks, id, j, k - 1, t.now, until) == 0;
    } else {
      assert id in s.checks by { NotFresh(s, id, t.now); }
      assert k > 1 ==> ticks[k - 2].now <= t.now;
      j := EntryCounts(states, ticks, id, k - 1, until);
      assert ticks[j].now <= t.now;
    }
  }

  lemma NotFresh(s: State, id: IntentId, now: Time)
    ensures id in s.checks || Fresh(s, id, now)
  {
  }

  /** What a count answers: zero, or the checks charged since the call, less than an hour ago, that opened the
      intent's window. */
  lemma CountIsCharges(states: seq<State>, ticks: seq<Tick>, id: IntentId, k: nat, now: Time)
    requires Run(states, ticks) && k < |states| && (k > 0 ==> ticks[k - 1].now <= now)
    ensures var n := Counted(states[k], id, now).1;
            if Fresh(states[k], id, now) then n == 0
            else exists j :: 0 <= j < k && ChargedAt(states, ticks, j, id) && now - ticks[j].now < WINDOW
                             && n == Charges(states, ticks, id, j, k, ticks[j].now, now + 1.0)
  {
    if !Fresh(states[k], id, now) {
      var j := EntryCounts(states, ticks, id, k, now + 1.0);
    }
  }

  /** The window (used, started) explains n charges since `from`, m windows after it at the latest. */
  predicate Explains(e: Entry, m: nat, n: nat, from: Time) {
    || (e.started < from && n <= e.used)
    || (from + WINDOW * m as real <= e.started && n <= e.used + LIMIT * (m + 1))
  }

  /** e is the intent's window; with no entry, its last window is over or nothing was charged. */
  predicate Current(s: State, id: IntentId, e: Entry, n: nat, now: Time) {
    if id in s.checks then e == s.checks[id] else n == 0 || now - e.started >= WINDOW
  }

  /** One call moves the window on by at most one, and only a whole window later. */
  lemma CallExplained(s: State, t: Tick, id: IntentId, clock: Time, from: Time, e: Entry, m: nat, n: nat)
    returns (e': Entry, m': nat)
    requires clock <= t.now && !Forgets(s, t, id)
    requires e.used <= LIMIT && e.started <= clock && Explains(e, m, n, from) && Current(s, id, e, n, clock)
    requires clock < from ==> n == 0
    ensures var n' := n + if t.call == Consume(id) && Accepts(s, id, t.now) && from <= t.now then 1 else 0;
            && e'.used <= LIMIT && e'.started <= t.now
            && Explains(e', m', n', from) && Current(Step(s, t), id, e', n', t.now)
            && (t.now < from ==> n' == 0)
  {
    e', m' := e, m;
    var s' := Step(s, t);
    if t.call == Consume(id) && Accepts(s, id, t.now) {
      assert id in s'.checks && s'.checks[id] == Charged(s, id, t.now).checks[id];
      e' := s'.checks[id];
      if Fresh(s, id, t.now) {
        if t.now < from {
          m' := 0;
        } else if e.started < from || n == 0 {
          m' := 0;
        } else {
          m' := m + 1;
          assert WINDOW * m' as real == WINDOW * m as real + WINDOW;
        }
      }
    } else {
      assert id in s'.checks ==> id in s.checks && s'.checks[id] == s.checks[id];
    }
  }

  lemma {:induction false} SpanExplained(states: seq<State>, ticks: seq<Tick>, id: IntentId, a: nat, b: nat, from: Time,
                                         until: Time, start: Time)
    returns (e: Entry, m: nat)
    requires Run(states, ticks) && a <= b <= |ticks|
    requires ticks != [] ==> start <= ticks[0].now
    requires forall k :: a <= k < b ==> !Forgets(states[k], ticks[k], id)
    requires ClockAt(ticks, b, start) < until
    ensures var n := Charges(states, ticks, id, a, b, from, until);
            var clock := ClockAt(ticks, b, start);
            && e.used <= LIMIT && e.started <= clock
            && Explains(e, m, n, from) && Current(states[b], id, e, n, clock) && (clock < from ==> n == 0)
    decreases b
  {
    hide Explains, Current, Forgets, Step, Accepts;
    if a == b {
      RunEntriesOk(states, ticks, b, start);
      e, m := SpanStarts(states[b], id, from, ClockAt(ticks, b, start));
    } else {
      assert b > 1 ==> ticks[b - 2].now <= ticks[b - 1].now;
      e, m := SpanExplained(states, ticks, id, a, b - 1, from, until, start);
      var n := Charges(states, ticks, id, a, b - 1, from, until);
      assert states[b - 1 + 1] == Step(states[b - 1], ticks[b - 1]);
      e, m := CallExplained(states[b - 1], ticks[b - 1], id, ClockAt(ticks, b - 1, start), from, e, m, n);
    }
  }

  lemma SpanStarts(s: State, id: IntentId, from: Time, clock: Time) returns (e: Entry, m: nat)
    requires EntriesOk(s, clock)
    ensures e.used <= LIMIT && e.started <= clock && Explains(e, m, 0, from) && Current(s, id, e, 0, clock)
  {
    e := if id in s.checks then s.checks[id] else Entry(0, clock);
    m := 0;
  }

  /** While an intent's entry is neither reset nor reached by the soft prune, any span of k windows holds
      at most (k + 1) * 40 checks charged to it. */
  lemma {:induction false} BudgetBound(states: seq<State>, ticks: seq<Tick>, id: IntentId, a: nat, b: nat, from: Time,
                                       k: nat)
    requires Run(states, ticks) && a <= b <= |ticks|
    requires forall j :: a <= j < b ==> !Forgets(states[j], ticks[j], id)
    ensures Charges(states, ticks, id, a, b, from, from + WINDOW * k as real) <= (k + 1) * LIMIT
    decreases b
  {
    hide Explains, Forgets, Step, Accepts;
    var until := from + WINDOW * k as real;
    if a < b {
      if ticks[b - 1].now < until {
        var e, m := SpanExplained(states, ticks, id, a, b, from, until, ticks[0].now);
        SpanFits(e, m, k, Charges(states, ticks, id, a, b, from, until), from, ticks[b - 1].now);
      } else {
        BudgetBound(states, ticks, id, a, b - 1, from, k);
      }
    }
  }

  lemma SpanFits(e: Entry, m: nat, k: nat, n: nat, from: Time, now: Time)
    requires e.used <= LIMIT && e.started <= now < from + WINDOW * k as real && Explains(e, m, n, from)
    ensures n <= (k + 1) * LIMIT
  {
    if from + WINDOW * m as real <= e.started && n <= e.used + LIMIT * (m + 1) {
      assert WINDOW * m as real < WINDOW * k as real;
      assert m < k;
      assert m + 1 <= k;
    }
  }

  // ---- Refused exactly when ----

  /** The call that opened the intent's window, among the first k: the first charged one since the intent was last
      forgotten, then the first that came an hour or more after the one before. */
  function Opening(states: seq<State>, ticks: seq<Tick>, id: IntentId, k: nat): (j: Option<nat>)
    requires |states| == |ticks| + 1 && k <= |ticks|
    ensures j.Some? ==> j.value < k
  {
    if k == 0 then None
    else
      var before := Opening(states, ticks, id, k - 1);
      if Forgets(states[k - 1], ticks[k - 1], id) then None
      else if ChargedAt(states, ticks, k - 1, id) &&
              (before.None? || ticks[k - 1].now - ticks[before.value].now >= 3600.0) then
        Some(k - 1)
      else before
  }

  /** How many checks the open window has granted. */
  function Granted(states: seq<State>, ticks: seq<Tick>, id: IntentId, j: nat, k: nat): nat
    requires |states| == |ticks| + 1 && j <= k <= |ticks|
    decreases k
  {
    if j == k then 0
    else Granted(states, ticks, id, j, k - 1) + if ChargedAt(states, ticks, k - 1, id) then 1 else 0
  }

  /** The entry is the history's open window; with no entry there is none, or it is over. */
  predicate EntryIsWindow(states: seq<State>, ticks: seq<Tick>, id: IntentId, k: nat, now: Time)
    requires |states| == |ticks| + 1 && k <= |ticks|
  {
    var j := Opening(states, ticks, id, k);
    if id in states[k].checks then
      && j.Some? && states[k].checks[id].started == ticks[j.value].now
      && states[k].checks[id].used == Granted(states, ticks, id, j.value, k)
    else j.None? || now - ticks[j.value].now >= 3600.0
  }

  /** What a call makes of the entry of id. */
  lemma CallOnEntry(s: State, t: Tick, id: IntentId)
    requires OrderListsKeys(s)
    ensures var s' := Step(s, t);
            if Forgets(s, t, id) then id !in s'.checks
            else if t.call == Consume(id) && Accepts(s, id, t.now) then
              id in s'.checks && s'.checks[id] == if Fresh(s, id, t.now) then Entry(1, t.now)
                                                  else Entry(s.checks[id].used + 1, s.checks[id].started)
            else if id in s'.checks then id in s.checks && s'.checks[id] == s.checks[id]
            else id in s.checks ==> t.now - s.checks[id].started >= 3600.0
  {
  }

  lemma WindowAfter(states: seq<State>, ticks: seq<Tick>, id: IntentId, k: nat)
    requires |states| == |ticks| + 1 && 0 < k <= |ticks| && states[k] == Step(states[k - 1], ticks[k - 1])
    requires OrderListsKeys(states[k - 1]) && EntryIsWindow(states, ticks, id, k - 1, ticks[k - 1].now)
    ensures EntryIsWindow(states, ticks, id, k, ticks[k - 1].now)
  {
    var s, t := states[k - 1], ticks[k - 1];
    CallOnEntry(s, t, id);
    assert Fresh(s, id, t.now) <==>
      var j := Opening(states, ticks, id, k - 1); j.None? || t.now - ticks[j.value].now >= 3600.0;
    assert Granted(states, ticks, id, k - 1, k - 1) == 0;
    hide Step, Forgets, OrderListsKeys, Fresh;
  }

  lemma {:induction false} RunEntryIsWindow(states: seq<State>, ticks: seq<Tick>, id: IntentId, k: nat, now: Time)
    requires Run(states, ticks) && k <= |ticks| && (k > 0 ==> ticks[k - 1].now <= now)
    ensures EntryIsWindow(states, ticks, id, k, now)
  {
    hide Step, Opening, OrderListsKeys;
    if k > 0 {
      assert states[k - 1 + 1] == Step(states[k - 1], ticks[k - 1]);
      assert k > 1 ==> ticks[k - 2].now <= ticks[k - 1].now;
      RunEntryIsWindow(states, ticks, id, k - 1, ticks[k - 1].now);
      RunKeepsOrder(states, ticks, k - 1);
      WindowAfter(states, ticks, id, k);
    } else {
      NoOpeningYet(states, ticks, id);
    }
  }

  lemma NoOpeningYet(states: seq<State>, ticks: seq<Tick>, id: IntentId)
    requires |states| == |ticks| + 1
    ensures Opening(states, ticks, id, 0).None?
  {
  }

  /** A check is refused exactly when the intent's window is less than an hour old and has granted all forty. */
  lemma RefusedIff(states: seq<State>, ticks: seq<Tick>, id: IntentId, k: nat, now: Time)
    requires Run(states, ticks) && k <= |ticks| && (k > 0 ==> ticks[k - 1].now <= now)
    ensures var j := Opening(states, ticks, id, k);
            && (!Accepts(states[k], id, now) <==>
                  j.Some? && now - ticks[j.value].now < 3600.0 && Granted(states, ticks, id, j.value, k) == 40)
            && (j.Some? && now - ticks[j.value].now < 3600.0 ==> Granted(states, ticks, id, j.value, k) <= 40)
            && Counted(states[k], id, now).1 ==
               (if j.Some? && now - ticks[j.value].now < 3600.0 then Granted(states, ticks, id, j.value, k) else 0)
  {
    RunEntryIsWindow(states, ticks, id, k, now);
    RunEntriesOk(states, ticks, k, if ticks == [] then now else ticks[0].now);
    hide Run;
  }
}
