/**
 The circuit breaker in front of the network check: a deadline in each worker and a shared
 deadline in Redis.  A probe is two steps, the request and its answer, so probes of different
 workers overlap.
 */
module CircuitBreaker {
  import opened Options

  type Worker = nat
  type ProbeId = nat
  type Time = real

  const QUOTA_COOLDOWN: Time := 3600.0
  const TRANSIENT_COOLDOWN: Time := 30.0

  function Max(a: Time, b: Time): Time { if a >= b then a else b }
  function Min(a: Time, b: Time): Time { if a <= b then a else b }

  /** A Redis key with its time to live. */
  datatype Key = Key(until: Time, expires: Time)

  datatype State = State(local: map<Worker, Time>, redis: Option<Key>, flying: map<ProbeId, Worker>)

  function LocalOf(s: State, w: Worker): Time {
    if w in s.local then s.local[w] else 0.0
  }

  /** The stored deadline, None once the key has expired. */
  function SharedDeadline(s: State, now: Time): Option<Time> {
    if s.redis.Some? && now < s.redis.value.expires then Some(s.redis.value.until) else None
  }

  predicate Blocked(s: State, w: Worker, now: Time) {
    var shared := SharedDeadline(s, now);
    (shared.Some? && shared.value > now) || now < LocalOf(s, w)
  }

  function TimeToLive(until: Time, now: Time): Time {
    Max(60.0, ((until - now).Floor + 60) as real)
  }

  /** Block for at least five seconds, never shortening a deadline that is already there. */
  function BlockedUntil(s: State, w: Worker, cooldown: Time, now: Time): State {
    var deadline := now + Max(5.0, cooldown);
    var shared := SharedDeadline(s, now);
    var until := if shared.Some? then Max(deadline, shared.value) else deadline;
    s.(local := s.local[w := Max(LocalOf(s, w), deadline)],
       redis := Some(Key(until, now + TimeToLive(until, now))))
  }

  function Cleared(s: State, w: Worker): State {
    s.(local := s.local[w := 0.0], redis := None)
  }

  // ---- The breaker of one worker, over the shared key ----

  class SharedStore {
    var key: Option<Key>

    constructor ()
      ensures key == None
    {
      key := None;
    }

    method Get(now: Time) returns (value: Option<Time>)
      ensures value == if key.Some? && now < key.value.expires then Some(key.value.until) else None
    {
      value := if key.Some? && now < key.value.expires then Some(key.value.until) else None;
    }

    method Set(until: Time, now: Time, ttl: Time)
      modifies this
      ensures key == Some(Key(until, now + ttl))
    {
      key := Some(Key(until, now + ttl));
    }

    method Delete()
      modifies this
      ensures key == None
    {
      key := None;
    }
  }

  class Breaker {
    const worker: Worker
    const store: SharedStore
    var blockedUntil: Time

    constructor (worker: Worker, store: SharedStore)
      ensures this.worker == worker && this.store == store && blockedUntil == 0.0
    {
      this.worker, this.store, blockedUntil := worker, store, 0.0;
    }

    /** This worker's part of a system state. */
    ghost predicate Represents(s: State)
      reads this, store
    {
      LocalOf(s, worker) == blockedUntil && s.redis == store.key
    }

    method ChecksBlocked(now: Time, ghost s: State) returns (blocked: bool)
      requires Represents(s)
      ensures blocked <==> Blocked(s, worker, now)
    {
      var shared := store.Get(now);
      if shared.Some? && shared.value > now {
        return true;
      }
      blocked := now < blockedUntil;
    }

    method SetBlockedUntil(cooldown: Time, now: Time, ghost s: State)
      requires Represents(s)
      modifies this, store
      ensures Represents(BlockedUntil(s, worker, cooldown, now))
    {
      var atLeast := Max(5.0, cooldown);
      if now + atLeast > blockedUntil {
        blockedUntil := now + atLeast;
      }
      var until := now + atLeast;
      var existing := store.Get(now);
      if existing.Some? {
        until := Max(until, existing.value);
      }
      store.Set(until, now, TimeToLive(until, now));
    }

    method NoteTransient(cooldown: Time, now: Time, ghost s: State)
      requires Represents(s)
      modifies this, store
      ensures Represents(BlockedUntil(s, worker, Max(5.0, Min(cooldown, 120.0)), now))
    {
      SetBlockedUntil(Max(5.0, Min(cooldown, 120.0)), now, s);
    }

    method ClearRateLimit(ghost s: State)
      requires Represents(s)
      modifies this, store
      ensures Represents(Cleared(s, worker))
    {
      blockedUntil := 0.0;
      store.Delete();
    }
  }

  // ---- Runs ----

  datatype Answer = Paid | Unpaid | RateLimited | Inconclusive

  datatype Event =
    | Send(probe: ProbeId, worker: Worker)
    | Reply(probe: ProbeId, answer: Answer)
    | Note(worker: Worker, cooldown: Time)      // the sweeper's own pause

  datatype Tick = Tick(event: Event, now: Time)

  /** A worker sends a check only when it finds the breaker closed. */
  predicate Enabled(s: State, t: Tick) {
    match t.event
    case Send(p, w) => p !in s.flying && !Blocked(s, w, t.now)
    case Reply(p, _) => p in s.flying
    case Note(_, _) => true
  }

  function Step(s: State, t: Tick): State
    requires Enabled(s, t)
  {
    match t.event
    case Send(p, w) => s.(flying := s.flying[p := w])
    case Reply(p, a) =>
      var w, landed := s.flying[p], s.(flying := s.flying - {p});
      (match a
       case Paid => Cleared(landed, w)
       case Unpaid => landed
       case RateLimited => BlockedUntil(landed, w, QUOTA_COOLDOWN, t.now)
       case Inconclusive => BlockedUntil(landed, w, TRANSIENT_COOLDOWN, t.now))
    case Note(w, c) => BlockedUntil(s, w, c, t.now)
  }

  ghost predicate Transition(s: State, t: Tick, s': State) {
    Enabled(s, t) && s' == Step(s, t)
  }

  ghost predicate Run(states: seq<State>, ticks: seq<Tick>) {
    && |states| == |ticks| + 1
    && states[0] == State(map[], None, map[])
    && (forall k :: 0 <= k < |ticks| ==> Transition(states[k], ticks[k], states[k + 1]))
    && (forall j, k :: 0 <= j <= k < |ticks| ==> ticks[j].now <= ticks[k].now)
  }

  /** The cooldown a step asks for, None when it blocks nothing. */
  function Blocks(t: Tick): Option<Time> {
    match t.event
    case Reply(_, RateLimited) => Some(3600.0)
    case Reply(_, Inconclusive) => Some(30.0)
    case Note(_, c) => Some(c)
    case _ => None
  }

  /** The Redis key always outlives the deadline it stores. */
  lemma {:induction false} SharedKeyOutlivesDeadline(states: seq<State>, ticks: seq<Tick>, k: nat)
    requires Run(states, ticks) && k < |states|
    ensures states[k].redis.Some? ==> states[k].redis.value.expires > states[k].redis.value.until
  {
    if k > 0 {
      SharedKeyOutlivesDeadline(states, ticks, k - 1);
      assert Transition(states[k - 1], ticks[k - 1], states[k]);
    }
  }

  /** Any block leaves a shared deadline at least as late as it asked for and as the one before. */
  lemma BlockNeverShortens(s: State, w: Worker, cooldown: Time, now: Time)
    ensures var s' := BlockedUntil(s, w, cooldown, now);
            && s'.redis.Some? && s'.redis.value.until >= now + Max(5.0, cooldown)
            && (SharedDeadline(s, now).Some? ==> s'.redis.value.until >= SharedDeadline(s, now).value)
            && LocalOf(s', w) >= LocalOf(s, w)
            && s'.redis.value.expires > s'.redis.value.until
  {
  }

  /** Step i is a paid answer to a probe that was already in the air after step j. */
  predicate LatePaid(states: seq<State>, ticks: seq<Tick>, j: nat, i: nat)
    requires |states| == |ticks| + 1 && j < i < |ticks|
  {
    ticks[i].event.Reply? && ticks[i].event.answer == Paid && ticks[i].event.probe in states[j + 1].flying
  }

  /** Until the deadline, and as long as no probe sent before the block comes back paid, the shared
      deadline stands and only the probes already in the air are left. */
  lemma {:induction false} BlockStands(states: seq<State>, ticks: seq<Tick>, j: nat, k: nat, c: Time)
    requires Run(states, ticks) && j < k <= |ticks| && Blocks(ticks[j]) == Some(c)
    requires ticks[k - 1].now < ticks[j].now + Max(5.0, c)
    requires forall i :: j < i < k ==> !LatePaid(states, ticks, j, i)
    ensures states[k].redis.Some? && states[k].redis.value.until >= ticks[j].now + Max(5.0, c)
    ensures states[k].flying.Keys <= states[j + 1].flying.Keys
    decreases k
  {
    var s, t := states[k - 1], ticks[k - 1];
    assert Transition(s, t, states[k]);
    SharedKeyOutlivesDeadline(states, ticks, k - 1);
    if k == j + 1 {
      match t.event
      case Reply(p, a) => BlockNeverShortens(s.(flying := s.flying - {p}), s.flying[p], c, t.now);
      case Note(w, _) => BlockNeverShortens(s, w, c, t.now);
    } else {
      assert ticks[k - 2].now <= t.now;
      BlockStands(states, ticks, j, k - 1, c);
      assert !LatePaid(states, ticks, j, k - 1);
      match t.event
      case Send(_, _) =>
      case Reply(p, a) =>
        var landed := s.(flying := s.flying - {p});
        if a == RateLimited || a == Inconclusive {
          var cooldown := if a == RateLimited then QUOTA_COOLDOWN else TRANSIENT_COOLDOWN;
          BlockNeverShortens(landed, s.flying[p], cooldown, t.now);
        }
      case Note(w, x) => BlockNeverShortens(s, w, x, t.now);
    }
  }

  /** After a block at time t with cooldown c, no worker sends a check before t + max(5, c), unless a
      probe that was already in the air comes back paid in between. */
  lemma NoSendWhileBlocked(states: seq<State>, ticks: seq<Tick>, j: nat, k: nat, c: Time)
    requires Run(states, ticks) && j < k < |ticks| && Blocks(ticks[j]) == Some(c) && ticks[k].event.Send?
    ensures || ticks[k].now >= ticks[j].now + Max(5.0, c)
            || exists i :: j < i < k && LatePaid(states, ticks, j, i)
  {
    assert Transition(states[k], ticks[k], states[k + 1]);
    assert ticks[k - 1].now <= ticks[k].now;
    SharedKeyOutlivesDeadline(states, ticks, k);
    if ticks[k].now < ticks[j].now + Max(5.0, c) && forall i :: j < i < k ==> !LatePaid(states, ticks, j, i) {
      BlockStands(states, ticks, j, k, c);
    }
  }

  /** In particular, when the block finds nothing in the air, as when probes never overlap. */
  lemma NoSendWithoutOverlap(states: seq<State>, ticks: seq<Tick>, j: nat, k: nat, c: Time)
    requires Run(states, ticks) && j < k < |ticks| && Blocks(ticks[j]) == Some(c) && ticks[k].event.Send?
    requires states[j + 1].flying == map[]
    ensures ticks[k].now >= ticks[j].now + Max(5.0, c)
  {
    NoSendWhileBlocked(states, ticks, j, k, c);
  }

  // ---- Blocked exactly when ----

  /** The worker that takes the step. */
  function Actor(s: State, t: Tick): Worker
    requires Enabled(s, t)
  {
    match t.event
    case Send(_, w) => w
    case Reply(p, _) => s.flying[p]
    case Note(w, _) => w
  }

  predicate PaidReply(t: Tick) {
    t.event.Reply? && t.event.answer == Paid
  }

  ghost predicate PaidReplyTo(states: seq<State>, ticks: seq<Tick>, i: nat, w: Worker)
    requires Run(states, ticks) && i < |ticks|
  {
    Transition(states[i], ticks[i], states[i + 1]) && PaidReply(ticks[i]) && Actor(states[i], ticks[i]) == w
  }

  /** The step asks for a pause of at least five seconds that is not over yet. */
  predicate StillPausing(t: Tick, now: Time) {
    Blocks(t).Some? && (now < t.now + 5.0 || now < t.now + Blocks(t).value)
  }

  /** Step j pauses everybody after k steps: nobody was told "paid" since. */
  ghost predicate PausesAll(ticks: seq<Tick>, j: nat, k: nat, now: Time) {
    j < k <= |ticks| && StillPausing(ticks[j], now) && forall i :: j < i < k ==> !PaidReply(ticks[i])
  }

  /** Step j pauses the worker that took it: that worker was not told "paid" since. */
  ghost predicate PausesOwn(states: seq<State>, ticks: seq<Tick>, j: nat, k: nat, w: Worker, now: Time)
    requires Run(states, ticks)
  {
    && j < k <= |ticks| && StillPausing(ticks[j], now)
    && Transition(states[j], ticks[j], states[j + 1]) && Actor(states[j], ticks[j]) == w
    && forall i :: j < i < k ==> !PaidReplyTo(states, ticks, i, w)
  }

  predicate SharedBlock(s: State, now: Time) {
    SharedDeadline(s, now).Some? && now < SharedDeadline(s, now).value
  }

  lemma SharedStep(s: State, t: Tick, now: Time)
    requires Enabled(s, t) && t.now <= now
    requires s.redis.Some? ==> s.redis.value.until < s.redis.value.expires
    ensures SharedBlock(Step(s, t), now) <==> StillPausing(t, now) || (SharedBlock(s, now) && !PaidReply(t))
  {
  }

  lemma OwnStep(s: State, t: Tick, w: Worker, now: Time)
    requires Enabled(s, t) && now >= 0.0
    ensures now < LocalOf(Step(s, t), w) <==>
              || (StillPausing(t, now) && Actor(s, t) == w)
              || (now < LocalOf(s, w) && !(PaidReply(t) && Actor(s, t) == w))
  {
  }

  lemma SomePausesAll(ticks: seq<Tick>, last: nat, k: nat, now: Time)
    requires last < |ticks| && k == last + 1
    ensures (exists j: nat :: PausesAll(ticks, j, k, now)) <==>
              || StillPausing(ticks[last], now)
              || (!PaidReply(ticks[last]) && exists j: nat :: PausesAll(ticks, j, last, now))
  {
    hide StillPausing, PaidReply;
    if j: nat :| PausesAll(ticks, j, k, now) {
      assert j < last ==> PausesAll(ticks, j, last, now);
    }
    if StillPausing(ticks[last], now) {
      assert PausesAll(ticks, last, k, now);
    }
    if !PaidReply(ticks[last]) {
      if j: nat :| PausesAll(ticks, j, last, now) {
        assert PausesAll(ticks, j, k, now);
      }
    }
  }

  lemma SomePausesOwn(states: seq<State>, ticks: seq<Tick>, last: nat, k: nat, w: Worker, now: Time)
    requires Run(states, ticks) && last < |ticks| && k == last + 1
    requires Transition(states[last], ticks[last], states[k])
    ensures (exists j: nat :: PausesOwn(states, ticks, j, k, w, now)) <==>
              || (StillPausing(ticks[last], now) && Actor(states[last], ticks[last]) == w)
              || (!(PaidReply(ticks[last]) && Actor(states[last], ticks[last]) == w) &&
                  exists j: nat :: PausesOwn(states, ticks, j, last, w, now))
  {
    hide StillPausing, PaidReply, Actor, Enabled, Step;
    assert PaidReplyTo(states, ticks, last, w) <==>
      PaidReply(ticks[last]) && Actor(states[last], ticks[last]) == w;
    if j: nat :| PausesOwn(states, ticks, j, k, w, now) {
      assert j < last ==> PausesOwn(states, ticks, j, last, w, now);
    }
    if StillPausing(ticks[last], now) && Actor(states[last], ticks[last]) == w {
      assert PausesOwn(states, ticks, last, k, w, now);
    }
    if !PaidReplyTo(states, ticks, last, w) {
      if j: nat :| PausesOwn(states, ticks, j, last, w, now) {
        assert PausesOwn(states, ticks, j, k, w, now);
      }
    }
  }

  lemma {:induction false} SharedPause(states: seq<State>, ticks: seq<Tick>, k: nat, now: Time)
    requires Run(states, ticks) && k <= |ticks| && (k > 0 ==> ticks[k - 1].now <= now)
    ensures SharedBlock(states[k], now) <==> exists j: nat :: PausesAll(ticks, j, k, now)
  {
    hide PausesAll, SharedBlock, StillPausing, PaidReply, Enabled, Step;
    if k > 0 {
      assert Transition(states[k - 1], ticks[k - 1], states[k]);
      assert k > 1 ==> ticks[k - 2].now <= ticks[k - 1].now;
      SharedPause(states, ticks, k - 1, now);
      SharedKeyOutlivesDeadline(states, ticks, k - 1);
      SharedStep(states[k - 1], ticks[k - 1], now);
      SomePausesAll(ticks, k - 1, k, now);
    } else {
      NoPauseYet(states, ticks, 0, now);
    }
  }

  lemma {:induction false} OwnPause(states: seq<State>, ticks: seq<Tick>, k: nat, w: Worker, now: Time)
    requires Run(states, ticks) && k <= |ticks| && now >= 0.0
    ensures now < LocalOf(states[k], w) <==> exists j: nat :: PausesOwn(states, ticks, j, k, w, now)
  {
    hide PausesOwn, StillPausing, PaidReply, Enabled, Step, LocalOf;
    if k > 0 {
      assert Transition(states[k - 1], ticks[k - 1], states[k]);
      OwnPause(states, ticks, k - 1, w, now);
      OwnStep(states[k - 1], ticks[k - 1], w, now);
      SomePausesOwn(states, ticks, k - 1, k, w, now);
    } else {
      NoPauseYet(states, ticks, w, now);
    }
  }

  lemma NoPauseYet(states: seq<State>, ticks: seq<Tick>, w: Worker, now: Time)
    requires Run(states, ticks)
    ensures !SharedBlock(states[0], now)
    ensures now >= 0.0 ==> !(now < LocalOf(states[0], w))
    ensures forall j: nat :: !PausesAll(ticks, j, 0, now)
    ensures forall j: nat :: !PausesOwn(states, ticks, j, 0, w, now)
  {
  }

  /** A worker is kept from asking exactly while a pause lasts that somebody called, and no paid answer came in
      since, or that it called itself, and it got no paid answer since. */
  lemma BlockedIff(states: seq<State>, ticks: seq<Tick>, k: nat, w: Worker, now: Time)
    requires Run(states, ticks) && k <= |ticks| && now >= 0.0 && (k > 0 ==> ticks[k - 1].now <= now)
    ensures Blocked(states[k], w, now) <==>
              exists j: nat :: PausesAll(ticks, j, k, now) || PausesOwn(states, ticks, j, k, w, now)
  {
    SharedPause(states, ticks, k, now);
    OwnPause(states, ticks, k, w, now);
    hide PausesAll, PausesOwn, Run;
  }

  ghost predicate Continues(states: seq<State>, ticks: seq<Tick>, states': seq<State>, ticks': seq<Tick>) {
    states <= states' && ticks <= ticks' && Run(states', ticks')
  }

  ghost predicate SilentFrom(ticks: seq<Tick>, k: nat, until: Time) {
    forall i :: k <= i < |ticks| && ticks[i].event.Send? ==> ticks[i].now >= until
  }

  /** Whatever happens after this run, no worker sends a check before the time. */
  ghost predicate SilentUntil(states: seq<State>, ticks: seq<Tick>, until: Time) {
    forall states', ticks' :: Continues(states, ticks, states', ticks') ==> SilentFrom(ticks', |ticks|, until)
  }

  lemma RunGoesOn(states: seq<State>, ticks: seq<Tick>, t: Tick)
    requires Run(states, ticks) && Enabled(states[|ticks|], t)
    requires ticks != [] ==> ticks[|ticks| - 1].now <= t.now
    ensures Run(states + [Step(states[|ticks|], t)], ticks + [t])
  {
    hide Enabled, Step;
    var states', ticks' := states + [Step(states[|ticks|], t)], ticks + [t];
    assert forall k :: 0 <= k < |ticks| ==> Transition(states[k], ticks[k], states[k + 1]);
    forall k | 0 <= k < |ticks'|
      ensures Transition(states'[k], ticks'[k], states'[k + 1])
    {
      if k < |ticks| {
        assert Transition(states[k], ticks[k], states[k + 1]);
      }
    }
  }

  /** A block keeps every worker silent for its whole cooldown, whatever follows, exactly when it finds no
      probe in the air: any probe that is may come back paid and reopen the breaker at once. */
  lemma SilentIffNothingFlying(states: seq<State>, ticks: seq<Tick>, c: Time)
    requires Run(states, ticks) && ticks != [] && Blocks(ticks[|ticks| - 1]) == Some(c)
    requires ticks[|ticks| - 1].now >= 0.0
    ensures SilentUntil(states, ticks, ticks[|ticks| - 1].now + Max(5.0, c)) <==> states[|ticks|].flying == map[]
  {
    var j := |ticks| - 1;
    var now := ticks[j].now;
    var until := now + Max(5.0, c);
    if states[|ticks|].flying == map[] {
      forall states', ticks' | Continues(states, ticks, states', ticks')
        ensures SilentFrom(ticks', |ticks|, until)
      {
        StaysSilent(states, ticks, states', ticks', c);
      }
    } else {
      var p :| p in states[|ticks|].flying;
      Reopened(states, ticks, p);
    }
  }

  lemma StaysSilent(states: seq<State>, ticks: seq<Tick>, states': seq<State>, ticks': seq<Tick>, c: Time)
    requires Continues(states, ticks, states', ticks') && |states| == |ticks| + 1
    requires ticks != [] && Blocks(ticks[|ticks| - 1]) == Some(c) && states[|ticks|].flying == map[]
    ensures SilentFrom(ticks', |ticks|, ticks[|ticks| - 1].now + Max(5.0, c))
  {
    hide Run;
    var j := |ticks| - 1;
    assert ticks'[j] == ticks[j] && states'[j + 1] == states[j + 1];
    forall k | |ticks| <= k < |ticks'| && ticks'[k].event.Send?
      ensures ticks'[k].now >= ticks[j].now + Max(5.0, c)
    {
      NoSendWithoutOverlap(states', ticks', j, k, c);
    }
  }

  /** The answer to a probe in the air, and a new probe of the same worker at the same instant. */
  lemma Reopened(states: seq<State>, ticks: seq<Tick>, p: ProbeId)
    requires Run(states, ticks) && ticks != [] && p in states[|ticks|].flying && ticks[|ticks| - 1].now >= 0.0
    ensures exists states', ticks' :: Continues(states, ticks, states', ticks') && |ticks'| == |ticks| + 2 &&
              ticks'[|ticks| + 1] == Tick(Send(p, states[|ticks|].flying[p]), ticks[|ticks| - 1].now)
    ensures forall until :: until > ticks[|ticks| - 1].now ==> !SilentUntil(states, ticks, until)
  {
    var s, now := states[|ticks|], ticks[|ticks| - 1].now;
    var paid, send := Tick(Reply(p, Paid), now), Tick(Send(p, s.flying[p]), now);
    var s1 := Step(s, paid);
    RunGoesOn(states, ticks, paid);
    assert (states + [s1])[|ticks + [paid]|] == s1;
    assert Enabled(s1, send);
    RunGoesOn(states + [s1], ticks + [paid], send);
    var states', ticks' := states + [s1] + [Step(s1, send)], ticks + [paid] + [send];
    hide Run;
    assert Continues(states, ticks, states', ticks');
    assert ticks'[|ticks| + 1] == send;
    forall until | until > now
      ensures !SilentUntil(states, ticks, until)
    {
      assert !SilentFrom(ticks', |ticks|, until);
    }
  }

  /** The exception is real: two overlapping probes, a rate limit, a late paid answer, and the third
      worker sends a check two seconds into an hour's pause. */
  lemma LatePaidReopens()
    ensures exists states: seq<State>, ticks: seq<Tick> ::
              Run(states, ticks) && |ticks| == 5 && Blocks(ticks[2]) == Some(QUOTA_COOLDOWN)
              && ticks[4].event.Send? && ticks[4].now < ticks[2].now + QUOTA_COOLDOWN
  {
    var ticks := [Tick(Send(1, 1), 0.0), Tick(Send(2, 2), 1.0), Tick(Reply(1, RateLimited), 2.0),
                  Tick(Reply(2, Paid), 3.0), Tick(Send(3, 3), 4.0)];
    var s0 := State(map[], None, map[]);
    var s1 := Step(s0, ticks[0]);
    var s2 := Step(s1, ticks[1]);
    var s3 := Step(s2, ticks[2]);
    var s4 := Step(s3, ticks[3]);
    assert s4.redis == None && LocalOf(s4, 3) == 0.0;
    var s5 := Step(s4, ticks[4]);
    var states := [s0, s1, s2, s3, s4, s5];
    assert Transition(states[0], ticks[0], states[1]) && Transition(states[1], ticks[1], states[2])
           && Transition(states[2], ticks[2], states[3]) && Transition(states[3], ticks[3], states[4])
           && Transition(states[4], ticks[4], states[5]);
    assert Run(states, ticks);
  }
}
