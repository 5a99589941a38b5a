/** The alert relay: dedup by fingerprint and a sliding per-minute limit, over any history of alerts. */
module AlertRelay {
  import opened Options

  type Fingerprint = nat
  type Time = real   // seconds of a monotonic clock

  const MINUTE: Time := 60.0
  const DAY: Time := 86_400.0

  datatype Seen = Seen(sentAt: Time, held: nat)

  /** A missing or empty fingerprint is None. */
  datatype Alert = Alert(fingerprint: Option<Fingerprint>, resolved: bool)

  datatype Config = Config(dedup: Time, perMinute: nat)

  datatype State = State(seen: map<Fingerprint, Seen>, sent: seq<Time>, dropped: nat)

  /** `Sent` carries the number of repeats reported with the alert. */
  datatype Outcome = Sent(reported: nat) | Held | Dropped

  // ---- One alert, on values ----

  /** The deque without what left the window. */
  function Window(sent: seq<Time>, now: Time): seq<Time> {
    if sent != [] && now - sent[0] >= MINUTE then Window(sent[1..], now) else sent
  }

  predicate IsRepeat(s: State, cfg: Config, a: Alert, now: Time) {
    a.fingerprint.Some? && a.fingerprint.value in s.seen && !a.resolved
    && now - s.seen[a.fingerprint.value].sentAt < cfg.dedup
  }

  function Pruned(seen: map<Fingerprint, Seen>, now: Time): map<Fingerprint, Seen> {
    if |seen| < 500 then seen
    else map f | f in seen && seen[f].sentAt > now - DAY :: seen[f]
  }

  /** The dedup table once an alert goes out. */
  function Remember(seen: map<Fingerprint, Seen>, a: Alert, now: Time): map<Fingerprint, Seen> {
    if a.fingerprint.None? then seen
    else if a.resolved then seen - {a.fingerprint.value}
    else Pruned(seen[a.fingerprint.value := Seen(now, 0)], now)
  }

  function HeldFor(seen: map<Fingerprint, Seen>, a: Alert): nat {
    if a.fingerprint.Some? && a.fingerprint.value in seen then seen[a.fingerprint.value].held else 0
  }

  function Admitted(s: State, cfg: Config, a: Alert, now: Time): (State, Outcome) {
    if IsRepeat(s, cfg, a, now) then
      var f := a.fingerprint.value;
      (s.(seen := s.seen[f := s.seen[f].(held := s.seen[f].held + 1)]), Held)
    else
      var window := Window(s.sent, now);
      if |window| >= cfg.perMinute then (s.(sent := window, dropped := s.dropped + 1), Dropped)
      else (s.(sent := window + [now], seen := Remember(s.seen, a, now)), Sent(HeldFor(s.seen, a)))
  }

  /** An alert that goes out also reports, and clears, the dropped counter. */
  function Delivered(s: State, cfg: Config, a: Alert, now: Time): State {
    var (s', o) := Admitted(s, cfg, a, now);
    if o.Sent? then s'.(dropped := 0) else s'
  }

  // ---- The relay ----

  class Relay {
    const cfg: Config
    var seen: map<Fingerprint, Seen>
    var sent: seq<Time>
    var dropped: nat

    constructor (cfg: Config)
      ensures this.cfg == cfg && Abs() == State(map[], [], 0)
    {
      this.cfg, seen, sent, dropped := cfg, map[], [], 0;
    }

    function Abs(): State
      reads this
    {
      State(seen, sent, dropped)
    }

    method Admit(a: Alert, now: Time) returns (send: bool, held: nat)
      modifies this
      ensures Abs() == Admitted(old(Abs()), cfg, a, now).0
      ensures var o := Admitted(old(Abs()), cfg, a, now).1;
              (send <==> o.Sent?) && held == if o.Sent? then o.reported else 0
    {
      var known := a.fingerprint.Some? && a.fingerprint.value in seen;
      if known && !a.resolved && now - seen[a.fingerprint.value].sentAt < cfg.dedup {
        var entry := seen[a.fingerprint.value];
        seen := seen[a.fingerprint.value := entry.(held := entry.held + 1)];
        return false, 0;
      }
      var slot := TakeSlot(now);
      if !slot {
        dropped := dropped + 1;
        return false, 0;
      }
      held := if known then seen[a.fingerprint.value].held else 0;
      if a.fingerprint.Some? {
        if a.resolved {
          seen := seen - {a.fingerprint.value};
        } else {
          seen := seen[a.fingerprint.value := Seen(now, 0)];
          Prune(now);
        }
      }
      send := true;
    }

    method TakeSlot(now: Time) returns (taken: bool)
      modifies this`sent
      ensures taken <==> |Window(old(sent), now)| < cfg.perMinute
      ensures sent == Window(old(sent), now) + if taken then [now] else []
    {
      while sent != [] && now - sent[0] >= MINUTE
        invariant Window(sent, now) == Window(old(sent), now)
        decreases |sent|
      {
        sent := sent[1..];
      }
      if |sent| >= cfg.perMinute {
        return false;
      }
      sent := sent + [now];
      taken := true;
    }

    method Prune(now: Time)
      modifies this`seen
      ensures seen == Pruned(old(seen), now)
    {
      if |seen| < 500 {
        return;
      }
      var cutoff := now - DAY;
      seen := map f | f in seen && seen[f].sentAt > cutoff :: seen[f];
    }

    method TakeDropped() returns (n: nat)
      modifies this`dropped
      ensures n == old(dropped) && dropped == 0
    {
      n, dropped := dropped, 0;
    }

    /** Admit, and collect what the message reports. */
    method Deliver(a: Alert, now: Time) returns (send: bool, held: nat, missed: nat)
      modifies this
      ensures Abs() == Delivered(old(Abs()), cfg, a, now)
      ensures var o := Admitted(old(Abs()), cfg, a, now).1;
              (send <==> o.Sent?) && held == (if o.Sent? then o.reported else 0)
              && missed == if o.Sent? then old(dropped) else 0
    {
      send, held := Admit(a, now);
      missed := 0;
      if send {
        missed := TakeDropped();
      }
    }
  }

  // ---- Histories ----

  datatype Tick = Tick(alert: Alert, now: Time)

  const Start: State := State(map[], [], 0)

  function After(cfg: Config, ticks: seq<Tick>): State {
    if ticks == [] then Start
    else Delivered(After(cfg, ticks[..|ticks| - 1]), cfg, ticks[|ticks| - 1].alert, ticks[|ticks| - 1].now)
  }

  /** What became of alert k. */
  function OutcomeOf(cfg: Config, ticks: seq<Tick>, k: nat): Outcome
    requires k < |ticks|
  {
    Admitted(After(cfg, ticks[..k]), cfg, ticks[k].alert, ticks[k].now).1
  }

  ghost predicate Ordered(ticks: seq<Tick>) {
    forall j, k :: 0 <= j <= k < |ticks| ==> ticks[j].now <= ticks[k].now
  }

  lemma AfterNext(cfg: Config, ticks: seq<Tick>, n: nat)
    requires n < |ticks|
    ensures After(cfg, ticks[..n + 1]) == Delivered(After(cfg, ticks[..n]), cfg, ticks[n].alert, ticks[n].now)
  {
    assert ticks[..n + 1][..n] == ticks[..n];
  }

  // ---- The sliding window ----

  /** Times of the alerts sent among the first n, oldest first. */
  function SentTimes(cfg: Config, ticks: seq<Tick>, n: nat): seq<Time>
    requires n <= |ticks|
  {
    if n == 0 then []
    else SentTimes(cfg, ticks, n - 1) + if OutcomeOf(cfg, ticks, n - 1).Sent? then [ticks[n - 1].now] else []
  }

  /** How many of the times lie in [from, until). */
  function CountIn(times: seq<Time>, from: Time, until: Time): nat {
    if times == [] then 0
    else CountIn(times[..|times| - 1], from, until) + if from <= times[|times| - 1] < until then 1 else 0
  }

  lemma {:induction false} CountInSplit(a: seq<Time>, b: seq<Time>, from: Time, until: Time)
    ensures CountIn(a + b, from, until) == CountIn(a, from, until) + CountIn(b, from, until)
    decreases |b|
  {
    if b == [] {
      assert a + b == a;
    } else {
      CountInSplit(a, b[..|b| - 1], from, until);
      assert (a + b)[..|a + b| - 1] == a + b[..|b| - 1];
    }
  }

  /** The times that left the window are at least a minute old. */
  predicate Expired(times: seq<Time>, now: Time) {
    forall k :: 0 <= k < |times| ==> now - times[k] >= MINUTE
  }

  lemma {:induction false} WindowPops(gone: seq<Time>, deque: seq<Time>, now: Time) returns (gone': seq<Time>)
    requires Expired(gone, now)
    ensures gone' + Window(deque, now) == gone + deque && Expired(gone', now)
    decreases |deque|
  {
    if deque != [] && now - deque[0] >= MINUTE {
      assert gone + deque == (gone + [deque[0]]) + deque[1..];
      gone' := WindowPops(gone + [deque[0]], deque[1..], now);
    } else {
      gone' := gone;
    }
  }

  /** The deque holds every send of the last minute: what it misses has left the window. */
  lemma {:induction false} DequeMissesOnlyExpired(cfg: Config, ticks: seq<Tick>, n: nat, now: Time)
    returns (gone: seq<Time>)
    requires Ordered(ticks) && n <= |ticks| && (n > 0 ==> ticks[n - 1].now <= now)
    ensures SentTimes(cfg, ticks, n) == gone + After(cfg, ticks[..n]).sent
    ensures Expired(gone, now)
    decreases n
  {
    if n == 0 {
      assert ticks[..0] == [];
      gone := [];
    } else {
      var last := ticks[n - 1].now;
      assert n > 1 ==> ticks[n - 2].now <= last;
      var before := DequeMissesOnlyExpired(cfg, ticks, n - 1, last);
      AfterNext(cfg, ticks, n - 1);
      var s := After(cfg, ticks[..n - 1]);
      if OutcomeOf(cfg, ticks, n - 1).Held? {
        gone := before;
      } else {
        gone := WindowPops(before, s.sent, last);
        assert gone + (Window(s.sent, last) + [last]) == gone + Window(s.sent, last) + [last];
      }
      hide Window;
    }
  }

  // ---- When an alert goes out ----

  /** How many of the times are less than a minute old. */
  function Recent(times: seq<Time>, now: Time): nat {
    if times == [] then 0
    else Recent(times[..|times| - 1], now) + if now - times[|times| - 1] < 60.0 then 1 else 0
  }

  lemma {:induction false} RecentSplit(a: seq<Time>, b: seq<Time>, now: Time)
    ensures Recent(a + b, now) == Recent(a, now) + Recent(b, now)
    decreases |b|
  {
    if b == [] {
      assert a + b == a;
    } else {
      RecentSplit(a, b[..|b| - 1], now);
      assert (a + b)[..|a + b| - 1] == a + b[..|b| - 1];
    }
  }

  lemma {:induction false} NoneRecent(times: seq<Time>, now: Time)
    requires Expired(times, now)
    ensures Recent(times, now) == 0
  {
    if times != [] {
      NoneRecent(times[..|times| - 1], now);
    }
  }

  lemma {:induction false} AllRecent(times: seq<Time>, now: Time)
    requires forall k :: 0 <= k < |times| ==> now - times[k] < MINUTE
    ensures Recent(times, now) == |times|
  {
    if times != [] {
      AllRecent(times[..|times| - 1], now);
    }
  }

  ghost predicate Ascending(times: seq<Time>) {
    forall j, k :: 0 <= j <= k < |times| ==> times[j] <= times[k]
  }

  lemma {:induction false} SentAscending(cfg: Config, ticks: seq<Tick>, n: nat)
    requires Ordered(ticks) && n <= |ticks|
    ensures Ascending(SentTimes(cfg, ticks, n))
    ensures forall k :: 0 <= k < |SentTimes(cfg, ticks, n)| ==> n > 0 && SentTimes(cfg, ticks, n)[k] <= ticks[n - 1].now
  {
    hide OutcomeOf;
    if n > 0 {
      SentAscending(cfg, ticks, n - 1);
      assert n > 1 ==> ticks[n - 2].now <= ticks[n - 1].now;
    }
  }

  lemma {:induction false} WindowHead(deque: seq<Time>, now: Time)
    ensures Window(deque, now) != [] ==> now - Window(deque, now)[0] < MINUTE
  {
    if deque != [] && now - deque[0] >= MINUTE {
      WindowHead(deque[1..], now);
    }
  }

  /** The window's size is the number of alerts really sent in the last minute. */
  lemma WindowCounts(cfg: Config, ticks: seq<Tick>, n: nat)
    requires Ordered(ticks) && n < |ticks|
    ensures |Window(After(cfg, ticks[..n]).sent, ticks[n].now)| == Recent(SentTimes(cfg, ticks, n), ticks[n].now)
  {
    hide After, SentTimes, Window;
    var now, deque := ticks[n].now, After(cfg, ticks[..n]).sent;
    assert n > 0 ==> ticks[n - 1].now <= now;
    var gone := DequeMissesOnlyExpired(cfg, ticks, n, now);
    var gone' := WindowPops(gone, deque, now);
    var window := Window(deque, now);
    RecentSplit(gone', window, now);
    NoneRecent(gone', now);
    SentAscending(cfg, ticks, n);
    WindowHead(deque, now);
    forall k | 0 <= k < |window|
      ensures now - window[k] < MINUTE
    {
      assert (gone' + window)[|gone'|] == window[0] && (gone' + window)[|gone'| + k] == window[k];
    }
    AllRecent(window, now);
  }

  /** Over any history, an alert that is no repeat goes out exactly when fewer than the limit were sent in the
      minute before it. */
  lemma GoesOutIff(cfg: Config, ticks: seq<Tick>, n: nat)
    requires Ordered(ticks) && n < |ticks|
    ensures var recent := Recent(SentTimes(cfg, ticks, n), ticks[n].now);
            var repeat := IsRepeat(After(cfg, ticks[..n]), cfg, ticks[n].alert, ticks[n].now);
            && (OutcomeOf(cfg, ticks, n).Sent? <==> !repeat && recent < cfg.perMinute)
            && (OutcomeOf(cfg, ticks, n).Dropped? <==> !repeat && recent >= cfg.perMinute)
  {
    WindowCounts(cfg, ticks, n);
    hide After, SentTimes, Window, IsRepeat, Recent, Remember, HeldFor;
  }

  lemma {:induction false} CountInRecent(times: seq<Time>, from: Time, now: Time)
    requires from <= now < from + MINUTE
    ensures CountIn(times, from, from + MINUTE) <= Recent(times, now)
  {
    if times != [] {
      CountInRecent(times[..|times| - 1], from, now);
    }
  }

  /** Over any history of alerts under a clock that never goes back, no half-open minute contains more
      than `perMinute` sent alerts. */
  lemma {:induction false} AtMostPerMinute(cfg: Config, ticks: seq<Tick>, n: nat, from: Time)
    requires Ordered(ticks) && n <= |ticks|
    ensures CountIn(SentTimes(cfg, ticks, n), from, from + 60.0) <= cfg.perMinute
    decreases n
  {
    hide OutcomeOf, After;
    if n > 0 {
      AtMostPerMinute(cfg, ticks, n - 1, from);
      var now, times := ticks[n - 1].now, SentTimes(cfg, ticks, n - 1);
      if OutcomeOf(cfg, ticks, n - 1).Sent? {
        assert SentTimes(cfg, ticks, n) == times + [now];
        CountInSplit(times, [now], from, from + MINUTE);
        assert CountIn([now], from, from + MINUTE) == if from <= now < from + MINUTE then 1 else 0;
        if from <= now < from + MINUTE {
          GoesOutIff(cfg, ticks, n - 1);
          CountInRecent(times, from, now);
        }
      } else {
        assert SentTimes(cfg, ticks, n) == times;
      }
    }
  }

  /** A resolved alert is never held back as a repeat, but it does not always go out: it is dropped exactly
      when the limit was used up in the minute before it. */
  lemma ResolvedGoesOutIff(cfg: Config, ticks: seq<Tick>, n: nat)
    requires Ordered(ticks) && n < |ticks| && ticks[n].alert.resolved
    ensures OutcomeOf(cfg, ticks, n).Sent? <==> Recent(SentTimes(cfg, ticks, n), ticks[n].now) < cfg.perMinute
    ensures !OutcomeOf(cfg, ticks, n).Sent? ==> OutcomeOf(cfg, ticks, n).Dropped?
  {
    GoesOutIff(cfg, ticks, n);
  }

  /** n alerts without fingerprint at one instant, then a resolved one. */
  function Burst(n: nat): seq<Tick> {
    seq(n, _ => Tick(Alert(None, false), 0.0)) + [Tick(Alert(Some(0), true), 0.0)]
  }

  lemma {:induction false} BurstSent(cfg: Config, n: nat)
    requires n <= cfg.perMinute
    ensures SentTimes(cfg, Burst(cfg.perMinute), n) == seq(n, _ => 0.0)
    ensures Recent(seq(n, _ => 0.0), 0.0) == n
  {
    hide After, OutcomeOf;
    var ticks := Burst(cfg.perMinute);
    if n > 0 {
      BurstSent(cfg, n - 1);
      assert seq(n, _ => 0.0) == seq(n - 1, _ => 0.0) + [0.0];
      GoesOutIff(cfg, ticks, n - 1);
    }
  }

  /** Under every limit there is a history in which a resolved alert is dropped. */
  lemma ResolvedDropped(cfg: Config)
    ensures var ticks := Burst(cfg.perMinute);
            Ordered(ticks) && ticks[cfg.perMinute].alert.resolved && OutcomeOf(cfg, ticks, cfg.perMinute) == Dropped
  {
    hide After, OutcomeOf, SentTimes, Recent;
    BurstSent(cfg, cfg.perMinute);
    ResolvedGoesOutIff(cfg, Burst(cfg.perMinute), cfg.perMinute);
  }

  // ---- Held repeats are accounted for ----

  ghost function SumHeld(seen: map<Fingerprint, Seen>): nat {
    if seen == map[] then 0
    else
      var f :| f in seen;
      seen[f].held + SumHeld(seen - {f})
  }

  lemma {:induction false} SumHeldWithout(seen: map<Fingerprint, Seen>, f: Fingerprint)
    requires f in seen
    ensures SumHeld(seen) == seen[f].held + SumHeld(seen - {f})
    decreases |seen|
  {
    var g :| g in seen && SumHeld(seen) == seen[g].held + SumHeld(seen - {g});
    if g != f {
      SumHeldWithout(seen - {g}, f);
      SumHeldWithout(seen - {f}, g);
      assert seen - {g} - {f} == seen - {f} - {g};
    }
  }

  lemma SumHeldUpdate(seen: map<Fingerprint, Seen>, f: Fingerprint, x: Seen)
    ensures SumHeld(seen[f := x]) == SumHeld(seen - {f}) + x.held
    ensures f in seen ==> SumHeld(seen[f := x]) == SumHeld(seen) - seen[f].held + x.held
    ensures f !in seen ==> SumHeld(seen[f := x]) == SumHeld(seen) + x.held
  {
    SumHeldWithout(seen[f := x], f);
    assert seen[f := x] - {f} == seen - {f};
    if f in seen {
      SumHeldWithout(seen, f);
    } else {
      assert seen - {f} == seen;
    }
  }

  lemma {:induction false} SumHeldSplit(seen: map<Fingerprint, Seen>, kept: map<Fingerprint, Seen>)
    requires forall f :: f in kept ==> f in seen && seen[f] == kept[f]
    ensures SumHeld(seen) == SumHeld(kept) + SumHeld(seen - kept.Keys)
    decreases |kept|
  {
    if kept == map[] {
      assert seen - kept.Keys == seen;
    } else {
      var f :| f in kept;
      SumHeldWithout(seen, f);
      SumHeldWithout(kept, f);
      var seen', kept' := seen - {f}, kept - {f};
      assert kept.Keys == kept'.Keys + {f};
      assert seen' - kept'.Keys == seen - kept.Keys;
      SumHeldSplit(seen', kept');
    }
  }

  /** Repeats whose count a prune throws away in one step. */
  ghost function Lost(s: State, cfg: Config, a: Alert, now: Time): nat {
    if Admitted(s, cfg, a, now).1.Sent? && a.fingerprint.Some? && !a.resolved then
      var table := s.seen[a.fingerprint.value := Seen(now, 0)];
      SumHeld(table - Pruned(table, now).Keys)
    else 0
  }

  /** Calls held, counts reported and counts lost among the first n alerts. */
  function CallsHeld(cfg: Config, ticks: seq<Tick>, n: nat): nat
    requires n <= |ticks|
  {
    if n == 0 then 0 else CallsHeld(cfg, ticks, n - 1) + if OutcomeOf(cfg, ticks, n - 1).Held? then 1 else 0
  }

  function CallsDropped(cfg: Config, ticks: seq<Tick>, n: nat): nat
    requires n <= |ticks|
  {
    if n == 0 then 0 else CallsDropped(cfg, ticks, n - 1) + if OutcomeOf(cfg, ticks, n - 1).Dropped? then 1 else 0
  }

  function Reported(cfg: Config, ticks: seq<Tick>, n: nat): nat
    requires n <= |ticks|
  {
    if n == 0 then 0
    else Reported(cfg, ticks, n - 1) +
         if OutcomeOf(cfg, ticks, n - 1).Sent? then OutcomeOf(cfg, ticks, n - 1).reported else 0
  }

  /** Drops reported so far: each alert that went out reported the counter it found. */
  function DropsReported(cfg: Config, ticks: seq<Tick>, n: nat): nat
    requires n <= |ticks|
  {
    if n == 0 then 0
    else DropsReported(cfg, ticks, n - 1) +
         if OutcomeOf(cfg, ticks, n - 1).Sent? then After(cfg, ticks[..n - 1]).dropped else 0
  }

  ghost function LostSoFar(cfg: Config, ticks: seq<Tick>, n: nat): nat
    requires n <= |ticks|
  {
    if n == 0 then 0
    else LostSoFar(cfg, ticks, n - 1) + Lost(After(cfg, ticks[..n - 1]), cfg, ticks[n - 1].alert, ticks[n - 1].now)
  }

  lemma PruneSplits(table: map<Fingerprint, Seen>, now: Time)
    ensures SumHeld(table) == SumHeld(Pruned(table, now)) + SumHeld(table - Pruned(table, now).Keys)
  {
    SumHeldSplit(table, Pruned(table, now));
  }

  /** One alert conserves the held repeats. */
  lemma AlertConserves(s: State, cfg: Config, a: Alert, now: Time)
    ensures var (s', o) := Admitted(s, cfg, a, now);
            SumHeld(s'.seen) + (if o.Sent? then o.reported else 0) + Lost(s, cfg, a, now)
            == SumHeld(s.seen) + if o.Held? then 1 else 0
  {
    hide Window;
    var (s', o) := Admitted(s, cfg, a, now);
    if a.fingerprint.Some? {
      var f := a.fingerprint.value;
      if o.Held? {
        SumHeldUpdate(s.seen, f, s.seen[f].(held := s.seen[f].held + 1));
      } else if o.Sent? && a.resolved {
        if f in s.seen {
          SumHeldWithout(s.seen, f);
        } else {
          assert s.seen - {f} == s.seen;
        }
      } else if o.Sent? {
        var table := s.seen[f := Seen(now, 0)];
        SumHeldUpdate(s.seen, f, Seen(now, 0));
        PruneSplits(table, now);
        hide Pruned;
      }
    }
  }

  /** Delivering clears the dropped counter when something goes out and counts a drop otherwise. */
  lemma DeliveredParts(s: State, cfg: Config, a: Alert, now: Time)
    ensures var (s', o) := Admitted(s, cfg, a, now); var d := Delivered(s, cfg, a, now);
            d.seen == s'.seen && d.dropped == if o.Sent? then 0 else s.dropped + if o.Dropped? then 1 else 0
  {
    hide Window, Remember, IsRepeat, HeldFor;
  }

  lemma {:induction false} HeldAccount(cfg: Config, ticks: seq<Tick>, n: nat)
    requires n <= |ticks|
    ensures CallsHeld(cfg, ticks, n) ==
            Reported(cfg, ticks, n) + SumHeld(After(cfg, ticks[..n]).seen) + LostSoFar(cfg, ticks, n)
  {
    hide Admitted, Delivered, SumHeld, Lost, After;
    if n == 0 {
      assert ticks[..0] == [] && SumHeld(After(cfg, []).seen) == 0 by { NothingHeld(cfg); }
    } else {
      HeldAccount(cfg, ticks, n - 1);
      AfterNext(cfg, ticks, n - 1);
      AlertConserves(After(cfg, ticks[..n - 1]), cfg, ticks[n - 1].alert, ticks[n - 1].now);
      DeliveredParts(After(cfg, ticks[..n - 1]), cfg, ticks[n - 1].alert, ticks[n - 1].now);
    }
  }

  lemma NothingHeld(cfg: Config)
    ensures After(cfg, []) == Start && SumHeld(Start.seen) == 0
  {
  }

  lemma {:induction false} DropAccount(cfg: Config, ticks: seq<Tick>, n: nat)
    requires n <= |ticks|
    ensures CallsDropped(cfg, ticks, n) == DropsReported(cfg, ticks, n) + After(cfg, ticks[..n]).dropped
  {
    hide Admitted, Delivered, After;
    if n == 0 {
      assert ticks[..0] == [];
      NothingHeld(cfg);
    } else {
      DropAccount(cfg, ticks, n - 1);
      AfterNext(cfg, ticks, n - 1);
      DeliveredParts(After(cfg, ticks[..n - 1]), cfg, ticks[n - 1].alert, ticks[n - 1].now);
    }
  }

  lemma {:induction false} CallAccount(cfg: Config, ticks: seq<Tick>, n: nat)
    requires n <= |ticks|
    ensures CallsHeld(cfg, ticks, n) + CallsDropped(cfg, ticks, n) + |SentTimes(cfg, ticks, n)| == n
  {
    hide OutcomeOf;
    if n > 0 {
      CallAccount(cfg, ticks, n - 1);
    }
  }

  /** Every held repeat is still in the table, was reported with a later alert, or was lost to a prune;
      every dropped alert was reported once or is still counted; and each call is sent, held or dropped. */
  lemma HeldAccounting(cfg: Config, ticks: seq<Tick>, n: nat)
    requires n <= |ticks|
    ensures CallsHeld(cfg, ticks, n) ==
            Reported(cfg, ticks, n) + SumHeld(After(cfg, ticks[..n]).seen) + LostSoFar(cfg, ticks, n)
    ensures CallsDropped(cfg, ticks, n) == DropsReported(cfg, ticks, n) + After(cfg, ticks[..n]).dropped
    ensures CallsHeld(cfg, ticks, n) + CallsDropped(cfg, ticks, n) + |SentTimes(cfg, ticks, n)| == n
  {
    HeldAccount(cfg, ticks, n);
    DropAccount(cfg, ticks, n);
    CallAccount(cfg, ticks, n);
  }

  // ---- Repeats are spaced ----

  predicate SentFor(cfg: Config, ticks: seq<Tick>, k: nat, f: Fingerprint, resolved: bool) {
    k < |ticks| && ticks[k].alert == Alert(Some(f), resolved) && OutcomeOf(cfg, ticks, k).Sent?
  }

  /** The table knows f was sent at `at`, or some alert was sent a day or more after that. */
  predicate Remembers(seen: map<Fingerprint, Seen>, f: Fingerprint, at: Time, latest: Time) {
    (f in seen && seen[f].sentAt == at) || (f !in seen && at <= latest - DAY)
  }

  lemma AlertRemembers(s: State, cfg: Config, a: Alert, latest: Time, now: Time, f: Fingerprint, at: Time)
    requires latest <= now && Remembers(s.seen, f, at, latest)
    requires Admitted(s, cfg, a, now).1.Sent? ==> a.fingerprint != Some(f)
    ensures Remembers(Admitted(s, cfg, a, now).0.seen, f, at, if Admitted(s, cfg, a, now).1.Sent? then now else latest)
  {
  }

  /** The table remembers the last alert sent for f, until some other alert goes out a day later. */
  lemma {:induction false} TableRemembers(cfg: Config, ticks: seq<Tick>, j: nat, n: nat, f: Fingerprint)
    requires Ordered(ticks) && j < n <= |ticks| && SentFor(cfg, ticks, j, f, false)
    requires forall k :: j < k < n ==> !SentFor(cfg, ticks, k, f, false) && !SentFor(cfg, ticks, k, f, true)
    ensures var sent := SentTimes(cfg, ticks, n);
            sent != [] && Remembers(After(cfg, ticks[..n]).seen, f, ticks[j].now, sent[|sent| - 1])
    decreases n
  {
    hide Remembers, Window, After, Admitted;
    AfterNext(cfg, ticks, n - 1);
    var s, a, now := After(cfg, ticks[..n - 1]), ticks[n - 1].alert, ticks[n - 1].now;
    DeliveredParts(s, cfg, a, now);
    if n == j + 1 {
      JustSent(s, cfg, f, now);
    } else {
      TableRemembers(cfg, ticks, j, n - 1, f);
      SentAscending(cfg, ticks, n - 1);
      assert ticks[n - 2].now <= now;
      assert !SentFor(cfg, ticks, n - 1, f, false) && !SentFor(cfg, ticks, n - 1, f, true);
      assert a == Alert(a.fingerprint, true) || a == Alert(a.fingerprint, false);
      var before := SentTimes(cfg, ticks, n - 1);
      AlertRemembers(s, cfg, a, before[|before| - 1], now, f, ticks[j].now);
    }
  }

  lemma JustSent(s: State, cfg: Config, f: Fingerprint, now: Time)
    requires Admitted(s, cfg, Alert(Some(f), false), now).1.Sent?
    ensures Remembers(Admitted(s, cfg, Alert(Some(f), false), now).0.seen, f, now, now)
  {
  }

  /** Alerts j and n went out for f with nothing sent for f in between. */
  ghost predicate Consecutive(cfg: Config, ticks: seq<Tick>, j: nat, n: nat, f: Fingerprint) {
    && Ordered(ticks) && j < n && SentFor(cfg, ticks, j, f, false) && SentFor(cfg, ticks, n, f, false)
    && forall k :: j < k < n ==> !SentFor(cfg, ticks, k, f, false) && !SentFor(cfg, ticks, k, f, true)
  }

  /** How long a dedup interval the relay keeps: the send that prunes leaves no slot for another minute when
      the limit is one, and nothing is ever sent when it is zero. */
  predicate KeepsInterval(cfg: Config) {
    cfg.perMinute == 0 || cfg.dedup <= 86_400.0 + Pause(cfg)
  }

  function Pause(cfg: Config): Time {
    if cfg.perMinute == 1 then 60.0 else 0.0
  }

  /** Within that length, two alerts sent for one fingerprint without a resolved one sent between them are at
      least the interval apart. */
  lemma RepeatsAreSpaced(cfg: Config, ticks: seq<Tick>, j: nat, n: nat, f: Fingerprint)
    requires KeepsInterval(cfg) && Consecutive(cfg, ticks, j, n, f)
    ensures ticks[n].now - ticks[j].now >= cfg.dedup
  {
    TableRemembers(cfg, ticks, j, n, f);
    GoesOutIff(cfg, ticks, n);
    assert ticks[n - 1].now <= ticks[n].now;
    SentAscending(cfg, ticks, n);
    hide After, SentTimes, OutcomeOf;
  }

  // ---- Held exactly when, and what is reported ----

  /** Alert j is the last of the first n that went out for f, and it was no resolved one. */
  ghost predicate LastSent(cfg: Config, ticks: seq<Tick>, j: nat, n: nat, f: Fingerprint) {
    && j < n <= |ticks| && SentFor(cfg, ticks, j, f, false)
    && forall k :: j < k < n ==> !SentFor(cfg, ticks, k, f, false) && !SentFor(cfg, ticks, k, f, true)
  }

  /** How many repeats of f were held back after alert j, among the first n. */
  function HeldSince(cfg: Config, ticks: seq<Tick>, f: Fingerprint, j: nat, n: nat): nat
    requires j < n <= |ticks|
    decreases n
  {
    if n == j + 1 then 0
    else HeldSince(cfg, ticks, f, j, n - 1) +
         if ticks[n - 1].alert.fingerprint == Some(f) && OutcomeOf(cfg, ticks, n - 1).Held? then 1 else 0
  }

  /** What one alert does to an entry that is there afterwards. */
  lemma EntryAfter(s: State, cfg: Config, a: Alert, now: Time, f: Fingerprint)
    requires f in Admitted(s, cfg, a, now).0.seen
    ensures var (s', o) := Admitted(s, cfg, a, now);
            if a.fingerprint == Some(f) && o.Sent? then !a.resolved && s'.seen[f] == Seen(now, 0)
            else
              && f in s.seen && s'.seen[f].sentAt == s.seen[f].sentAt
              && s'.seen[f].held == s.seen[f].held + if a.fingerprint == Some(f) && o.Held? then 1 else 0
  {
    hide Window;
  }

  lemma NothingSeen(cfg: Config, ticks: seq<Tick>)
    ensures After(cfg, ticks[..0]).seen == map[]
  {
  }

  lemma OutcomeParts(s: State, cfg: Config, a: Alert, now: Time)
    ensures var o := Admitted(s, cfg, a, now).1;
            && (o.Held? <==> a.fingerprint.Some? && a.fingerprint.value in s.seen && !a.resolved &&
                             now - s.seen[a.fingerprint.value].sentAt < cfg.dedup)
            && (o.Sent? && a.fingerprint.Some? ==>
                  o.reported == if a.fingerprint.value in s.seen then s.seen[a.fingerprint.value].held else 0)
  {
    hide Window, Remember;
  }

  /** An entry of the table is the last alert sent for its fingerprint, with the repeats held back since. */
  lemma {:induction false} EntryIsLastSent(cfg: Config, ticks: seq<Tick>, n: nat, f: Fingerprint) returns (j: nat)
    requires n <= |ticks| && f in After(cfg, ticks[..n]).seen
    ensures LastSent(cfg, ticks, j, n, f)
    ensures After(cfg, ticks[..n]).seen[f] == Seen(ticks[j].now, HeldSince(cfg, ticks, f, j, n))
    decreases n
  {
    hide Admitted, Delivered;
    j := 0;
    if n == 0 {
      NothingSeen(cfg, ticks);
      assert false;
    } else {
      AfterNext(cfg, ticks, n - 1);
      var s, a, now := After(cfg, ticks[..n - 1]), ticks[n - 1].alert, ticks[n - 1].now;
      DeliveredParts(s, cfg, a, now);
      EntryAfter(s, cfg, a, now, f);
      hide After;
      if a.fingerprint == Some(f) && Admitted(s, cfg, a, now).1.Sent? {
        j := n - 1;
      } else {
        j := EntryIsLastSent(cfg, ticks, n - 1, f);
      }
    }
  }

  lemma OneLastSent(cfg: Config, ticks: seq<Tick>, j: nat, k: nat, n: nat, f: Fingerprint)
    requires LastSent(cfg, ticks, j, n, f) && LastSent(cfg, ticks, k, n, f)
    ensures j == k
  {
    hide OutcomeOf;
  }

  /** Less than a day after an alert the table still has its entry. */
  lemma StillRemembered(cfg: Config, ticks: seq<Tick>, j: nat, n: nat, f: Fingerprint)
    requires Ordered(ticks) && n < |ticks| && LastSent(cfg, ticks, j, n, f)
    requires ticks[n].now - ticks[j].now < 86_400.0
    ensures f in After(cfg, ticks[..n]).seen
    ensures After(cfg, ticks[..n]).seen[f] == Seen(ticks[j].now, HeldSince(cfg, ticks, f, j, n))
  {
    TableRemembers(cfg, ticks, j, n, f);
    SentAscending(cfg, ticks, n);
    assert ticks[n - 1].now <= ticks[n].now;
    hide After, OutcomeOf, SentTimes, LastSent, HeldSince;
    var i := EntryIsLastSent(cfg, ticks, n, f);
    OneLastSent(cfg, ticks, i, j, n, f);
  }

  /** With a dedup interval of at most a day, over any history: an alert is held back exactly when it is not resolved
      and the last alert for its fingerprint went out less than the interval ago. */
  lemma HeldIff(cfg: Config, ticks: seq<Tick>, n: nat)
    requires Ordered(ticks) && n < |ticks| && cfg.dedup <= 86_400.0
    ensures var a, now := ticks[n].alert, ticks[n].now;
            OutcomeOf(cfg, ticks, n).Held? <==>
              && !a.resolved && a.fingerprint.Some?
              && exists j: nat :: LastSent(cfg, ticks, j, n, a.fingerprint.value) && now - ticks[j].now < cfg.dedup
  {
    var a, now, s := ticks[n].alert, ticks[n].now, After(cfg, ticks[..n]);
    OutcomeParts(s, cfg, a, now);
    hide After, Admitted, LastSent;
    if a.fingerprint.Some? {
      var f := a.fingerprint.value;
      if f in s.seen {
        var i := EntryIsLastSent(cfg, ticks, n, f);
      }
      forall j: nat | LastSent(cfg, ticks, j, n, f) && now - ticks[j].now < cfg.dedup
        ensures f in s.seen && s.seen[f].sentAt == ticks[j].now
      {
        StillRemembered(cfg, ticks, j, n, f);
      }
    }
  }

  /** Whatever the interval, nothing else is held back, and an alert that goes out reports the repeats held back since
      the last one for its fingerprint, if that was less than a day ago; it never reports any others. */
  lemma ReportsHeld(cfg: Config, ticks: seq<Tick>, n: nat, f: Fingerprint)
    requires Ordered(ticks) && n < |ticks| && ticks[n].alert.fingerprint == Some(f)
    ensures OutcomeOf(cfg, ticks, n).Held? ==>
              exists j: nat :: LastSent(cfg, ticks, j, n, f) && ticks[n].now - ticks[j].now < cfg.dedup
    ensures OutcomeOf(cfg, ticks, n).Sent? ==>
              forall j: nat :: LastSent(cfg, ticks, j, n, f) && ticks[n].now - ticks[j].now < 86_400.0 ==>
                OutcomeOf(cfg, ticks, n).reported == HeldSince(cfg, ticks, f, j, n)
    ensures OutcomeOf(cfg, ticks, n).Sent? && OutcomeOf(cfg, ticks, n).reported > 0 ==>
              exists j: nat :: LastSent(cfg, ticks, j, n, f) &&
                          OutcomeOf(cfg, ticks, n).reported == HeldSince(cfg, ticks, f, j, n)
  {
    var a, now, s := ticks[n].alert, ticks[n].now, After(cfg, ticks[..n]);
    OutcomeParts(s, cfg, a, now);
    hide After, Admitted, LastSent;
    if f in s.seen {
      var i := EntryIsLastSent(cfg, ticks, n, f);
    }
    forall j: nat | LastSent(cfg, ticks, j, n, f) && now - ticks[j].now < 86_400.0
      ensures f in s.seen && s.seen[f].held == HeldSince(cfg, ticks, f, j, n)
    {
      StillRemembered(cfg, ticks, j, n, f);
    }
  }

  /** An entry is forgotten only by the resolved alert for its fingerprint, or a day after its alert when an alert goes
      out that leaves 500 or more entries. */
  lemma ForgottenIff(s: State, cfg: Config, a: Alert, now: Time, f: Fingerprint)
    requires f in s.seen
    ensures var (s', o) := Admitted(s, cfg, a, now);
            f !in s'.seen <==>
              && o.Sent? && a.fingerprint.Some?
              && if a.fingerprint == Some(f) then a.resolved
                 else !a.resolved && |s.seen[a.fingerprint.value := Seen(now, 0)]| >= 500 &&
                      now - s.seen[f].sentAt >= 86_400.0
  {
    hide Window, HeldFor;
  }

  // A longer interval is not kept: once 500 fingerprints are remembered, a prune forgets
  // whatever was sent a day ago.

  /** Fingerprints 0 to i, one a minute. */
  function Filling(i: nat): seq<Tick> {
    (if i == 0 then [] else Filling(i - 1)) + [Tick(Alert(Some(i), false), (60 * i) as real)]
  }

  function FilledTable(i: nat): map<Fingerprint, Seen> {
    map k: nat | k <= i :: Seen((60 * k) as real, 0)
  }

  lemma {:induction false} FillingShape(i: nat)
    ensures |Filling(i)| == i + 1 && Ordered(Filling(i))
    ensures forall k :: 0 <= k <= i ==> Filling(i)[k] == Tick(Alert(Some(k), false), (60 * k) as real)
  {
    if i > 0 {
      FillingShape(i - 1);
    }
  }

  lemma {:induction false} FillingFills(cfg: Config, i: nat)
    requires cfg.perMinute >= 1 && i < 1440
    ensures |Filling(i)| == i + 1
    ensures After(cfg, Filling(i)) == State(FilledTable(i), [(60 * i) as real], 0)
    ensures forall k :: 0 <= k <= i ==> OutcomeOf(cfg, Filling(i), k) == Sent(0)
  {
    hide Admitted, Delivered, FilledTable, Window, Ordered;
    FillingShape(i);
    var ticks := Filling(i);
    FillOne(cfg, i);
    assert ticks[..i + 1] == ticks;
    AfterNext(cfg, ticks, i);
    if i == 0 {
      assert ticks[..0] == [];
    } else {
      FillingShape(i - 1);
      FillingFills(cfg, i - 1);
      assert ticks[..i] == Filling(i - 1);
      forall k | 0 <= k < i
        ensures OutcomeOf(cfg, ticks, k) == Sent(0)
      {
        assert ticks[..k] == Filling(i - 1)[..k] && ticks[k] == Filling(i - 1)[k];
        assert OutcomeOf(cfg, Filling(i - 1), k) == Sent(0);
      }
    }
  }

  /** One more fingerprint, a minute later: the window is empty again and nothing is a day old. */
  lemma FillOne(cfg: Config, i: nat)
    requires cfg.perMinute >= 1 && i < 1440
    ensures var s := if i == 0 then Start else State(FilledTable(i - 1), [(60 * (i - 1)) as real], 0);
            var a, now := Alert(Some(i), false), (60 * i) as real;
            && Admitted(s, cfg, a, now) == (State(FilledTable(i), [now], 0), Sent(0))
            && Delivered(s, cfg, a, now) == State(FilledTable(i), [now], 0)
  {
    var s := if i == 0 then Start else State(FilledTable(i - 1), [(60 * (i - 1)) as real], 0);
    var now := (60 * i) as real;
    assert Window([], now) == [];
    if i > 0 {
      assert [(60 * (i - 1)) as real][1..] == [];
      assert Window([(60 * (i - 1)) as real], now) == [];
    }
    assert i !in s.seen && s.seen[i := Seen(now, 0)] == FilledTable(i);
    assert Pruned(FilledTable(i), now) == FilledTable(i);
    assert [] + [now] == [now];
  }

  /** The filling history, then a day after its start one more fingerprint, and as soon as there is a slot
      again, fingerprint 0. */
  function Forgetting(cfg: Config): seq<Tick> {
    Filling(499) + [Tick(Alert(Some(1440), false), DAY), Tick(Alert(Some(0), false), DAY + Pause(cfg))]
  }

  function UpTo(i: nat): (r: set<nat>)
    ensures |r| == i + 1 && forall k: nat :: k in r <==> k <= i
  {
    (if i == 0 then {} else UpTo(i - 1)) + {i}
  }

  lemma FilledTableSize(i: nat)
    ensures |FilledTable(i)| == i + 1
  {
    assert FilledTable(i).Keys == UpTo(i);
    assert |FilledTable(i)| == |FilledTable(i).Keys|;
  }

  /** A day later the prune forgets fingerprint 0. */
  lemma DayLater(cfg: Config)
    requires cfg.perMinute >= 1
    ensures var s := State(FilledTable(499), [(60 * 499) as real], 0);
            var s1 := Delivered(s, cfg, Alert(Some(1440), false), DAY);
            && s1.sent == [DAY] && 0 !in s1.seen
            && Admitted(s1, cfg, Alert(Some(0), false), DAY + Pause(cfg)).1.Sent?
  {
    var table := FilledTable(499)[1440 := Seen(DAY, 0)];
    FilledTableSize(499);
    assert |table| == 501 && 0 !in Pruned(table, DAY);
    assert [(60 * 499) as real][1..] == [];
    assert Window([], DAY) == [];
    assert Window([(60 * 499) as real], DAY) == [];
    assert [DAY][1..] == [];
    assert Window([], DAY + Pause(cfg)) == [];
    assert Window([DAY], DAY + Pause(cfg)) == if cfg.perMinute == 1 then [] else [DAY];
    hide Pruned, FilledTable, Window;
  }

  lemma ForgettingShape(cfg: Config)
    ensures |Filling(499)| == 500 && |Forgetting(cfg)| == 502 && Forgetting(cfg)[..500] == Filling(499)
    ensures Forgetting(cfg)[500] == Tick(Alert(Some(1440), false), DAY)
    ensures Forgetting(cfg)[501] == Tick(Alert(Some(0), false), DAY + Pause(cfg))
  {
    FillingShape(499);
    hide Filling;
  }

  lemma ForgettingStart(cfg: Config, k: nat)
    requires cfg.perMinute >= 1 && k < 500 < |Forgetting(cfg)|
    ensures Forgetting(cfg)[k] == Tick(Alert(Some(k), false), (60 * k) as real)
    ensures OutcomeOf(cfg, Forgetting(cfg), k) == Sent(0)
  {
    hide Admitted, After, FilledTable, Filling, Forgetting;
    ForgettingShape(cfg);
    FillingShape(499);
    FillingFills(cfg, 499);
    var ticks := Forgetting(cfg);
    assert ticks[..500][..k] == ticks[..k] && ticks[..500][k] == ticks[k];
    assert OutcomeOf(cfg, Filling(499), k) == Sent(0);
  }

  lemma ForgettingSends(cfg: Config)
    requires cfg.perMinute >= 1
    ensures var ticks := Forgetting(cfg);
            && |ticks| == 502 && ticks[501] == Tick(Alert(Some(0), false), DAY + Pause(cfg))
            && OutcomeOf(cfg, ticks, 501).Sent?
            && ticks[500].alert == Alert(Some(1440), false)
            && forall k :: 0 <= k < 500 ==>
                 ticks[k] == Tick(Alert(Some(k), false), (60 * k) as real) && OutcomeOf(cfg, ticks, k) == Sent(0)
  {
    hide Admitted, Delivered, FilledTable, After, Forgetting, Filling;
    var ticks := Forgetting(cfg);
    ForgettingShape(cfg);
    forall k | 0 <= k < 500
      ensures ticks[k] == Tick(Alert(Some(k), false), (60 * k) as real) && OutcomeOf(cfg, ticks, k) == Sent(0)
    {
      ForgettingStart(cfg, k);
    }
    FillingFills(cfg, 499);
    AfterNext(cfg, ticks, 500);
    DayLater(cfg);
  }

  lemma ForgettingRepeats(cfg: Config)
    requires cfg.perMinute >= 1
    ensures Consecutive(cfg, Forgetting(cfg), 0, 501, 0)
    ensures Forgetting(cfg)[501].now - Forgetting(cfg)[0].now == DAY + Pause(cfg)
  {
    hide OutcomeOf, Forgetting, Ordered;
    ForgettingSends(cfg);
    ForgettingOrdered(cfg);
  }

  lemma ForgettingOrdered(cfg: Config)
    ensures Ordered(Forgetting(cfg))
  {
    hide OutcomeOf, Filling, Admitted, Delivered, After;
    FillingShape(499);
    var ticks := Forgetting(cfg);
    forall j, k | 0 <= j <= k < |ticks|
      ensures ticks[j].now <= ticks[k].now
    {
      assert j < 500 ==> ticks[j].now == (60 * j) as real <= (60 * 499) as real <= DAY;
      assert k < 500 ==> ticks[k].now == (60 * k) as real;
    }
  }

  /** Over all histories, the spacing is guaranteed exactly for dedup intervals of at most a day, or a minute
      more when the limit is one alert a minute. */
  lemma SpacingIff(cfg: Config)
    ensures (forall ticks: seq<Tick>, j: nat, n: nat, f ::
               Consecutive(cfg, ticks, j, n, f) ==> ticks[n].now - ticks[j].now >= cfg.dedup)
            <==> KeepsInterval(cfg)
  {
    if KeepsInterval(cfg) {
      forall ticks: seq<Tick>, j: nat, n: nat, f | Consecutive(cfg, ticks, j, n, f)
        ensures ticks[n].now - ticks[j].now >= cfg.dedup
      {
        RepeatsAreSpaced(cfg, ticks, j, n, f);
      }
    } else {
      ForgettingRepeats(cfg);
    }
  }
}
