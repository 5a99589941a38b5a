/** What holds over whole runs of the billing tables, under a clock that never goes back. */
module BillingRuns {
  import opened Options
  import opened BillingTables
  import opened BillingInvariant
  import opened BillingSteps
  import opened BillingTerms

  datatype Tick = Tick(event: Event, now: Time)

  function ClockAt(ticks: seq<Tick>, start: Time, k: nat): Time
    requires k <= |ticks|
  {
    if k == 0 then start else ticks[k - 1].now
  }

  /** states[k + 1] is what transaction k leaves behind. */
  ghost predicate Run(states: seq<Tables>, ticks: seq<Tick>, s: Settings, start: Time) {
    && |states| == |ticks| + 1
    && forall k :: 0 <= k < |ticks| ==> Transition(states[k], ticks[k], states[k + 1], s, ClockAt(ticks, start, k))
  }

  ghost predicate Transition(t: Tables, tick: Tick, t': Tables, s: Settings, clock: Time) {
    clock <= tick.now && Enabled(t, tick.event) && t' == Step(t, tick.event, s, tick.now)
  }

  /** None of the first k steps is a sweep that strands a subscription. */
  ghost predicate NothingStranded(states: seq<Tables>, ticks: seq<Tick>, s: Settings, start: Time, k: nat)
    requires Run(states, ticks, s, start) && k <= |ticks|
  {
    forall j :: 0 <= j < k ==> !Stranding(states, ticks, s, start, j)
  }

  ghost predicate Stranding(states: seq<Tables>, ticks: seq<Tick>, s: Settings, start: Time, k: nat)
    requires Run(states, ticks, s, start) && k < |ticks|
  {
    Transition(states[k], ticks[k], states[k + 1], s, ClockAt(ticks, start, k)) &&
      StrandsSub(states[k], ticks[k].event, s)
  }

  const Empty: Tables := Tables(map[], map[], map[], map[], map[], [], map[], {}, {}, map[])

  lemma EmptyInv(start: Time)
    ensures Inv(Empty, start)
  {
  }

  /** A run of the deployed system: it starts from the empty tables. */
  ghost predicate FromEmpty(states: seq<Tables>, ticks: seq<Tick>, s: Settings, start: Time) {
    Run(states, ticks, s, start) && states[0] == Empty
  }

  /** The core of the invariant holds in every state of every run. */
  lemma {:induction false} RunKeepsCore(states: seq<Tables>, ticks: seq<Tick>, s: Settings, start: Time, k: nat)
    requires Run(states, ticks, s, start) && Core(states[0], start) && k < |states|
    ensures Core(states[k], ClockAt(ticks, start, k))
  {
    hide Core, Step, Enabled, StrandsSub, ReceiptsComplete;
    if k > 0 {
      RunKeepsCore(states, ticks, s, start, k - 1);
      assert Transition(states[k - 1], ticks[k - 1], states[k], s, ClockAt(ticks, start, k - 1));
      StepKeepsInv(states[k - 1], ticks[k - 1].event, s, ClockAt(ticks, start, k - 1), ticks[k - 1].now);
    }
  }

  /** Every succeeded intent has its receipt exactly until a sweep strands a subscription, and never again
      after that: no later step of the run repairs it. */
  lemma {:induction false} CompleteUntilStranded(states: seq<Tables>, ticks: seq<Tick>, s: Settings, start: Time,
                                                 k: nat)
    requires Run(states, ticks, s, start) && Inv(states[0], start) && k < |states|
    ensures ReceiptsComplete(states[k]) <==> NothingStranded(states, ticks, s, start, k)
    ensures !NothingStranded(states, ticks, s, start, k) ==> exists j :: Unfunded(states[k], j)
  {
    hide Core, Step, Enabled, StrandsSub, ReceiptsComplete, ReceiptsSound, Unfunded;
    if k > 0 {
      CompleteUntilStranded(states, ticks, s, start, k - 1);
      RunKeepsCore(states, ticks, s, start, k - 1);
      var t, e, now := states[k - 1], ticks[k - 1].event, ticks[k - 1].now;
      assert Transition(t, ticks[k - 1], states[k], s, ClockAt(ticks, start, k - 1));
      StepKeepsInv(t, e, s, ClockAt(ticks, start, k - 1), now);
      assert Stranding(states, ticks, s, start, k - 1) <==> StrandsSub(t, e, s);
      if !NothingStranded(states, ticks, s, start, k - 1) {
        var j :| Unfunded(t, j);
        CoreIsSound(t, ClockAt(ticks, start, k - 1));
        StepLeavesUnfunded(t, e, s, now, j);
        UnfundedBreaks(states[k], j);
      }
    }
  }

  lemma CoreIsSound(t: Tables, clock: Time)
    requires Core(t, clock)
    ensures ReceiptsSound(t) && AllShaped(t)
  {
  }

  /** In every state of every run from the empty tables: receipts sound, superseded intents owned, pending intents
      unique, the ledger summarised, and receipts complete exactly until a sweep strands a subscription. */
  lemma FromEmptyHolds(states: seq<Tables>, ticks: seq<Tick>, s: Settings, start: Time, k: nat)
    requires FromEmpty(states, ticks, s, start) && k < |states|
    ensures Core(states[k], ClockAt(ticks, start, k))
    ensures ReceiptsComplete(states[k]) <==> NothingStranded(states, ticks, s, start, k)
  {
    EmptyInv(start);
    hide Core, ReceiptsComplete, Run, NothingStranded, Empty;
    RunKeepsCore(states, ticks, s, start, k);
    CompleteUntilStranded(states, ticks, s, start, k);
  }

  const MonthlyOn: Plan := Plan("monthly", 300, 30, true)
  const Film: Content := Content(Movie, true, false, Some(50), None)
  const SubDraft: Intent :=
    Intent(User(1), Sub, None, None, Some("monthly"), Some(30), "sub-monthly-a", 300, Some(11), None, Some(0), 0,
           Pending, None)
  const FilmDraft: Intent :=
    Intent(User(1), Single, Some(5), None, None, None, "movie-b", 50, Some(12), None, Some(0), 0, Pending, None)
  const BothPaid: Probes := Probes(Paid, Paid)

  const Seen: SweepInput := SweepInput(false, false, BothPaid, BothPaid)
  const WithFilm: Tables := Empty.(contents := map[5 := Film])
  const WithPlan: Tables := WithFilm.(plans := [MonthlyOn])
  const OneOpen: Tables := WithPlan.(intents := map[1 := SubDraft])
  const BothOpen: Tables := OneOpen.(intents := map[1 := SubDraft, 2 := FilmDraft])
  const PlanOff: Tables := BothOpen.(plans := [MonthlyOn.(active := false)])
  const LastSweep: Event := SweepCall([1, 2], [Seen, Seen])

  lemma OpeningSteps(s: Settings)
    ensures Transition(Empty, Tick(CatalogEdited(map[5 := Film], {}, {}), 0), WithFilm, s, 0)
    ensures Transition(WithFilm, Tick(PlansEdited([MonthlyOn]), 0), WithPlan, s, 0)
    ensures Transition(WithPlan, Tick(Insert(1, SubDraft), 0), OneOpen, s, 0)
    ensures Transition(OneOpen, Tick(Insert(2, FilmDraft), 0), BothOpen, s, 0)
    ensures Transition(BothOpen, Tick(PlansEdited([MonthlyOn.(active := false)]), 0), PlanOff, s, 0)
  {
    hide UniquePending;
    UniqueAlone(1, SubDraft);
    UniqueTogether();
    assert WithPlan.intents[1 := SubDraft] == map[1 := SubDraft];
    assert OneOpen.intents[2 := FilmDraft] == map[1 := SubDraft, 2 := FilmDraft];
  }

  lemma LastSweepStrands(s: Settings)
    requires s.nbc
    ensures Enabled(PlanOff, LastSweep) && StrandsSub(PlanOff, LastSweep, s)
  {
    var batch, ins := [1, 2], [Seen, Seen];
    assert batch[0] == 1 && batch[1] == 2 && SweepBatch(PlanOff, batch);
    assert !SweepStops(PlanOff.intents[batch[0]], ins[0]) && !SweepStops(PlanOff.intents[batch[1]], ins[1]);
    assert SeenPaid(PlanOff, batch, s, ins, 0) && SeenPaid(PlanOff, batch, s, ins, 1);
  }

  ghost function StrandingRun(s: Settings): (r: (seq<Tables>, seq<Tick>))
    requires Enabled(PlanOff, LastSweep)
  {
    ([Empty, WithFilm, WithPlan, OneOpen, BothOpen, PlanOff, Step(PlanOff, LastSweep, s, 0)],
     [Tick(CatalogEdited(map[5 := Film], {}, {}), 0), Tick(PlansEdited([MonthlyOn]), 0), Tick(Insert(1, SubDraft), 0),
      Tick(Insert(2, FilmDraft), 0), Tick(PlansEdited([MonthlyOn.(active := false)]), 0), Tick(LastSweep, 0)])
  }

  lemma StrandingRunIsRun(s: Settings)
    requires Enabled(PlanOff, LastSweep)
    ensures var (states, ticks) := StrandingRun(s); Run(states, ticks, s, 0)
  {
    OpeningSteps(s);
    SweepTransition(s);
    hide Step, Enabled, Transition;
    var (states, ticks) := StrandingRun(s);
    hide Empty, WithFilm, WithPlan, OneOpen, BothOpen, PlanOff, LastSweep;
    assert Transition(states[0], ticks[0], states[1], s, 0) && Transition(states[1], ticks[1], states[2], s, 0);
    assert Transition(states[2], ticks[2], states[3], s, 0) && Transition(states[3], ticks[3], states[4], s, 0);
    assert Transition(states[4], ticks[4], states[5], s, 0) && Transition(states[5], ticks[5], states[6], s, 0);
  }

  lemma StrandingRunStrands(s: Settings)
    requires s.nbc && Enabled(PlanOff, LastSweep)
    ensures var (states, ticks) := StrandingRun(s);
            && FromEmpty(states, ticks, s, 0) && |ticks| == 6 && Stranding(states, ticks, s, 0, 5)
  {
    StrandingRunIsRun(s);
    LastSweepStrands(s);
    SweepTransition(s);
    hide Step, Enabled, StrandsSub, Run, Transition, PlanOff, LastSweep;
  }

  /** It does happen: the only plan is switched off between a checkout and the sweep that finds it paid. */
  lemma StrandingHappens(s: Settings)
    requires s.nbc
    ensures exists states, ticks :: FromEmpty(states, ticks, s, 0) && |ticks| > 0 &&
              Stranding(states, ticks, s, 0, |ticks| - 1)
  {
    LastSweepStrands(s);
    StrandingRunStrands(s);
    hide Stranding, FromEmpty, StrandingRun, Enabled;
    var (states, ticks) := StrandingRun(s);
    assert FromEmpty(states, ticks, s, 0) && Stranding(states, ticks, s, 0, |ticks| - 1);
  }

  lemma SweepTransition(s: Settings)
    requires Enabled(PlanOff, LastSweep)
    ensures Transition(PlanOff, Tick(LastSweep, 0), Step(PlanOff, LastSweep, s, 0), s, 0)
  {
    hide Step, Enabled;
  }

  lemma UniqueAlone(id: IntentId, d: Intent)
    ensures UniquePending(map[id := d])
  {
  }

  lemma UniqueTogether()
    ensures UniquePending(map[1 := SubDraft, 2 := FilmDraft])
  {
  }

  // ---- Receipts ----

  function ReceiptCount(t: Tables, id: IntentId): nat {
    (if id in t.purchases then 1 else 0) + (if id in t.seriesPurchases then 1 else 0) +
      (if id in t.subPayments then 1 else 0)
  }

  predicate TargetPresent(i: Intent) {
    i.kind == Sub || (i.kind == Single && i.contentId.Some?) || (i.kind == Series && i.seriesId.Some?)
  }

  /** At most one receipt per intent, only for succeeded intents, and exactly one when the target is there;
      only a stranded subscription is without. */
  lemma OneReceipt(states: seq<Tables>, ticks: seq<Tick>, s: Settings, start: Time, k: nat, id: IntentId)
    requires Run(states, ticks, s, start) && Core(states[0], start) && k < |states|
    ensures ReceiptCount(states[k], id) <= 1
    ensures ReceiptCount(states[k], id) == 1 ==>
              id in states[k].intents && states[k].intents[id].status == Succeeded
    ensures id in states[k].intents && states[k].intents[id].status == Succeeded && TargetPresent(states[k].intents[id])
            && Inv(states[0], start) && NothingStranded(states, ticks, s, start, k) ==>
              ReceiptCount(states[k], id) == 1
  {
    RunKeepsCore(states, ticks, s, start, k);
    var t := states[k];
    hide Ledger, UniquePending, AllShaped, SupersededOwned;
    if id in t.intents && t.intents[id].status == Succeeded && Inv(states[0], start) &&
       NothingStranded(states, ticks, s, start, k) {
      CompleteUntilStranded(states, ticks, s, start, k);
      assert HasReceipt(t, id);
    }
  }

  /** A superseded intent's title is owned by its buyer through a different, succeeded intent. */
  lemma SupersededMeansOwned(states: seq<Tables>, ticks: seq<Tick>, s: Settings, start: Time, k: nat, id: IntentId)
    requires Run(states, ticks, s, start) && Core(states[0], start) && k < |states|
    requires id in states[k].intents && states[k].intents[id].status == Superseded
    requires TargetPresent(states[k].intents[id])
    ensures exists other :: other != id && other in states[k].intents && states[k].intents[other].status == Succeeded
                            && states[k].intents[other].buyer == states[k].intents[id].buyer
                            && states[k].intents[other].kind == states[k].intents[id].kind
                            && states[k].intents[other].contentId == states[k].intents[id].contentId
                            && states[k].intents[other].seriesId == states[k].intents[id].seriesId
                            && ReceiptCount(states[k], other) == 1
  {
    RunKeepsCore(states, ticks, s, start, k);
    var t := states[k];
    var i := t.intents[id];
    hide Ledger, UniquePending, ReceiptsComplete;
    assert OwnedElsewhere(t, id);
    if i.kind == Single {
      var o :| o in t.purchases && o != id && t.purchases[o].buyer == i.buyer &&
        t.purchases[o].contentId == i.contentId.value;
      assert PurchaseMatches(t.intents[o], t.purchases[o]) && Shaped(t.intents[o]) && Shaped(i);
      OneReceipt(states, ticks, s, start, k, o);
    } else {
      var o :| o in t.seriesPurchases && o != id && t.seriesPurchases[o].buyer == i.buyer &&
               t.seriesPurchases[o].seriesId == i.seriesId.value;
      assert UnlockMatches(t.intents[o], t.seriesPurchases[o]) && Shaped(t.intents[o]) && Shaped(i);
      OneReceipt(states, ticks, s, start, k, o);
    }
  }

  // ---- Money is only recorded against a paid answer ----

  /** The step asked the network about this intent and was told that it is paid. */
  ghost predicate ToldPaid(t: Tables, e: Event, s: Settings, id: IntentId) {
    s.nbc && id in t.intents &&
    match e
    case Reuse(x, _, a) => x == id && Md5sPaid(t.intents[id], s, a.settle)
    case PollCall(x, a) => (x == id && Md5sPaid(t.intents[id], s, a.own)) ||
                           (a.sibling == Some(id) && Md5sPaid(t.intents[id], s, a.siblingProbes))
    case AuthorizeCall(_, _, rows, ps) =>
      exists k :: 0 <= k < |rows| && k < |ps| && rows[k] == id && Md5sPaid(t.intents[id], s, ps[k])
    case SweepCall(batch, ins) =>
      exists k :: 0 <= k < |batch| && k < |ins| && batch[k] == id && Md5sPaid(t.intents[id], s, ins[k].settle)
    case _ => false
  }

  lemma FulfilTouchesOnly(t: Tables, id: IntentId, now: Time, bank: string)
    ensures var o := Fulfil(t, id, now, bank);
            var t' := if o.Done? then o.tables else o.dirty;
            && t'.intents.Keys == t.intents.Keys
            && (forall x :: x in t.intents && x != id ==> t'.intents[x] == t.intents[x])
            && (id in t.intents ==> SameQr(t.intents[id], t'.intents[id]))
  {
    hide RecordPurchase, RecordUnlock, RecordPayment, Target, ResolvePlan;
  }

  predicate SameQr(i: Intent, j: Intent) {
    i.md5 == j.md5 && i.prevMd5 == j.prevMd5
  }

  lemma SettleTouchesOnly(t: Tables, id: IntentId, s: Settings, now: Time, p: Probes)
    requires id in t.intents
    ensures var r := SettleIfPaid(t, id, s, now, p);
            var t' := match r case Yes(x) => x case Failed(x) => x case No => t;
            && t'.intents.Keys == t.intents.Keys
            && (forall x :: x in t.intents && x != id ==> t'.intents[x] == t.intents[x])
            && SameQr(t.intents[id], t'.intents[id])
            && (t'.intents[id].status != t.intents[id].status ==> s.nbc && Md5sPaid(t.intents[id], s, p))
  {
    FulfilTouchesOnly(t, id, now, "bakong");
    hide Fulfil;
  }

  lemma {:induction false} AuthorizeTouchesOnly(t: Tables, rows: seq<IntentId>, s: Settings, now: Time, ps: seq<Probes>)
    requires |ps| == |rows| && forall id <- rows :: id in t.intents
    ensures var t' := Authorize(t, rows, s, now, ps);
            && t'.intents.Keys == t.intents.Keys
            && forall x :: x in t.intents ==>
                 && SameQr(t.intents[x], t'.intents[x])
                 && (t'.intents[x].status != t.intents[x].status ==>
                       s.nbc && exists k :: 0 <= k < |rows| && rows[k] == x && Md5sPaid(t.intents[x], s, ps[k]))
    decreases |rows|
  {
    hide SettleIfPaid, Md5sPaid;
    if rows != [] {
      SettleTouchesOnly(t, rows[0], s, now, ps[0]);
      if SettleIfPaid(t, rows[0], s, now, ps[0]).No? {
        AuthorizeTouchesOnly(t, rows[1..], s, now, ps[1..]);
        assert forall k :: 0 <= k < |rows| - 1 ==> rows[1..][k] == rows[k + 1] && ps[1..][k] == ps[k + 1];
      } else {
        assert rows[0] == rows[0] && 0 < |rows|;
      }
    }
  }

  lemma SweepOneTouchesOnly(w: Sweeping, id: IntentId, s: Settings, now: Time, a: SweepInput)
    requires id in w.tables.intents
    ensures var t' := SweepOne(w, id, s, now, a).tables;
            && t'.intents.Keys == w.tables.intents.Keys
            && (forall x :: x in w.tables.intents && x != id ==> t'.intents[x] == w.tables.intents[x])
            && SameQr(w.tables.intents[id], t'.intents[id])
            && (t'.intents[id].status != w.tables.intents[id].status ==>
                  s.nbc && Md5sPaid(w.tables.intents[id], s, a.settle))
  {
    SettleTouchesOnly(w.tables, id, s, now, a.settle);
    hide SettleIfPaid;
  }

  lemma {:induction false} SweepTouchesOnly(w: Sweeping, batch: seq<IntentId>, s: Settings, now: Time,
                                            ins: seq<SweepInput>)
    requires |ins| == |batch| && (forall id <- batch :: id in w.tables.intents)
    requires forall j, k :: 0 <= j < k < |batch| ==> batch[j] != batch[k]
    ensures var t' := SweepFrom(w, batch, s, now, ins).tables;
            && t'.intents.Keys == w.tables.intents.Keys
            && forall x :: x in w.tables.intents ==>
                 && SameQr(w.tables.intents[x], t'.intents[x])
                 && (t'.intents[x].status != w.tables.intents[x].status ==>
                       s.nbc && exists k ::
                         0 <= k < |batch| && batch[k] == x && Md5sPaid(w.tables.intents[x], s, ins[k].settle))
    decreases |batch|
  {
    hide SweepOne, Md5sPaid;
    if batch != [] && !SweepStops(w.tables.intents[batch[0]], ins[0]) {
      SweepOneTouchesOnly(w, batch[0], s, now, ins[0]);
      var w' := SweepOne(w, batch[0], s, now, ins[0]);
      SweepTouchesOnly(w', batch[1..], s, now, ins[1..]);
      assert forall k :: 0 <= k < |batch| - 1 ==> batch[1..][k] == batch[k + 1] && ins[1..][k] == ins[k + 1];
      assert batch[0] !in batch[1..];
    }
  }

  lemma PollTouchesOnly(t: Tables, x: IntentId, s: Settings, now: Time, a: PollInput, id: IntentId)
    requires x in t.intents && NewestSibling(t, x, a.sibling) && id in t.intents
    ensures var t' := Poll(t, x, s, now, a);
            && id in t'.intents
            && SameQr(t.intents[id], t'.intents[id])
            && (t'.intents[id].status == Succeeded && t.intents[id].status != Succeeded ==>
                  ToldPaid(t, PollCall(x, a), s, id))
  {
    hide SettleIfPaid, Md5sPaid, AlreadyOwned, SettleSibling, IsSibling, SameQr;
    SettleTouchesOnly(t, x, s, now, a.own);
    if a.sibling.Some? {
      assert IsSibling(t, x, a.sibling.value);
      SiblingIn(t, x, a.sibling.value);
      SiblingTouchesOnly(t, x, a.sibling.value, s, now, a.siblingProbes, id);
    }
    hide NewestSibling;
    SupersedeKeepsQr(t, x, now, id);
  }

  lemma SupersedeKeepsQr(t: Tables, x: IntentId, now: Time, id: IntentId)
    requires x in t.intents && id in t.intents
    ensures SameQr(t.intents[id], t.intents[id])
    ensures SameQr(t.intents[id], Resolve(t, x, Superseded, Some(now)).intents[id])
  {
  }

  lemma SiblingIn(t: Tables, x: IntentId, o: IntentId)
    requires IsSibling(t, x, o)
    ensures o in t.intents
  {
  }

  lemma SiblingTouchesOnly(t: Tables, x: IntentId, o: IntentId, s: Settings, now: Time, p: Probes, id: IntentId)
    requires x in t.intents && o in t.intents && id in t.intents
    ensures var t' := SettleSibling(t, x, o, s, now, p);
            && id in t'.intents
            && SameQr(t.intents[id], t'.intents[id])
            && (t'.intents[id].status == Succeeded && t.intents[id].status != Succeeded ==>
                  id == o && s.nbc && Md5sPaid(t.intents[o], s, p))
  {
    hide SettleIfPaid, Md5sPaid;
    SettleTouchesOnly(t, o, s, now, p);
  }

  lemma RefreshedTouchesOnly(t: Tables, x: IntentId, now: Time, md5: Md5, id: IntentId)
    requires x in t.intents && id in t.intents
    ensures var t' := Regenerate(t, x, md5, now);
            && id in t'.intents && t'.intents[id].status == t.intents[id].status
            && (x != id ==> SameQr(t.intents[id], t'.intents[id]))
  {
  }

  lemma ReuseTouchesOnly(t: Tables, x: IntentId, check: bool, s: Settings, now: Time, a: RefreshInput, id: IntentId)
    requires x in t.intents && t.intents[x].status == Pending && id in t.intents
    ensures var t' := ReuseOrRefresh(t, x, check, s, now, a);
            && id in t'.intents
            && (x != id ==> SameQr(t.intents[id], t'.intents[id]))
            && (t'.intents[id].status == Succeeded && t.intents[id].status != Succeeded ==>
                  x == id && s.nbc && Md5sPaid(t.intents[id], s, a.settle))
  {
    hide SettleIfPaid, Md5sPaid, AlreadyOwned, ConfirmedUnpaid, QrIsStale, Regenerate, Resolve, SameQr;
    SettleTouchesOnly(t, x, s, now, a.settle);
    SupersedeKeepsQr(t, x, now, id);
    SupersedeNotPaid(t, x, now, id);
    if a.khqr.Some? {
      RefreshedTouchesOnly(t, x, now, a.khqr.value, id);
    }
    if x != id {
      assert SettleIfPaid(t, x, s, now, a.settle).Yes? ==>
        SettleIfPaid(t, x, s, now, a.settle).tables.intents[id] == t.intents[id];
    }
  }

  lemma SupersedeNotPaid(t: Tables, x: IntentId, now: Time, id: IntentId)
    requires x in t.intents && id in t.intents
    ensures var t' := Resolve(t, x, Superseded, Some(now));
            id in t'.intents && (t'.intents[id].status == Succeeded ==> t.intents[id].status == Succeeded)
  {
  }

  /** A new or refreshed intent, or a direct fulfilment. */
  lemma CheckoutTouchesOnly(t: Tables, e: Event, s: Settings, now: Time, id: IntentId)
    requires Enabled(t, e) && id in t.intents && (e.Insert? || e.FulfilCall? || e.Reuse?)
    ensures var t' := Step(t, e, s, now);
            && id in t'.intents
            && (!(e.Reuse? && e.id == id) ==> SameQr(t.intents[id], t'.intents[id]))
            && (t'.intents[id].status == Succeeded && t.intents[id].status != Succeeded ==>
                  (e.FulfilCall? && e.id == id) || ToldPaid(t, e, s, id))
  {
    hide SettleIfPaid, Md5sPaid, AlreadyOwned, UniquePending, Fulfil, ReuseOrRefresh;
    match e
    case FulfilCall(x, bank) => FulfilTouchesOnly(t, x, now, bank);
    case Reuse(x, check, a) => ReuseTouchesOnly(t, x, check, s, now, a, id);
    case Insert(_, _) =>
  }

  lemma SweepCallTouchesOnly(t: Tables, batch: seq<IntentId>, s: Settings, now: Time, ins: seq<SweepInput>,
                             id: IntentId)
    requires |ins| == |batch| && SweepBatch(t, batch) && id in t.intents
    ensures var t' := Sweep(t, batch, s, now, ins);
            && id in t'.intents
            && SameQr(t.intents[id], t'.intents[id])
            && (t'.intents[id].status == Succeeded && t.intents[id].status != Succeeded ==>
                  ToldPaid(t, SweepCall(batch, ins), s, id))
  {
    hide SweepFrom, Md5sPaid;
    SweepTouchesOnly(Sweeping(t, 0), batch, s, now, ins);
  }

  /** The other steps never make an intent succeed and never touch its QR. */
  lemma HousekeepingTouchesOnly(t: Tables, e: Event, s: Settings, now: Time, id: IntentId)
    requires Enabled(t, e) && id in t.intents
    requires e.ClaimCall? || e.ContentDeleted? || e.SeriesDeleted? || e.CatalogEdited? || e.PlansEdited?
    ensures var t' := Step(t, e, s, now);
            && id in t'.intents
            && SameQr(t.intents[id], t'.intents[id])
            && t'.intents[id].status == t.intents[id].status
  {
    hide UniquePending;
  }

  /** What one step may do to one intent. */
  lemma StepTouches(t: Tables, e: Event, s: Settings, now: Time, id: IntentId)
    requires Enabled(t, e) && id in t.intents
    ensures var t' := Step(t, e, s, now);
            && id in t'.intents
            && (!(e.Reuse? && e.id == id) ==> SameQr(t.intents[id], t'.intents[id]))
            && (t'.intents[id].status == Succeeded && t.intents[id].status != Succeeded ==>
                  (e.FulfilCall? && e.id == id) || ToldPaid(t, e, s, id))
  {
    hide Md5sPaid, UniquePending, Poll, Authorize, Sweep, SameQr;
    match e
    case PollCall(x, a) => PollTouchesOnly(t, x, s, now, a, id);
    case AuthorizeCall(_, _, rows, ps) => AuthorizeTouchesOnly(t, rows, s, now, ps);
    case SweepCall(batch, ins) => SweepCallTouchesOnly(t, batch, s, now, ins, id);
    case Insert(_, _) =>
      CheckoutTouchesOnly(t, e, s, now, id);
      hide Step;
    case FulfilCall(_, _) =>
      CheckoutTouchesOnly(t, e, s, now, id);
      hide Step;
    case Reuse(_, _, _) =>
      CheckoutTouchesOnly(t, e, s, now, id);
      hide Step;
    case _ =>
      HousekeepingTouchesOnly(t, e, s, now, id);
      hide Step;
  }

  /** An intent becomes succeeded only by a direct fulfilment (an operator's mark-paid) or in a step
      that was told its QR is paid: owning a title never counts as a payment. */
  lemma {:induction false} SucceedsOnlyWhenPaid(states: seq<Tables>, ticks: seq<Tick>, s: Settings, start: Time,
                                                k: nat, n: nat, id: IntentId)
    requires Run(states, ticks, s, start) && k <= n < |states|
    requires id in states[k].intents && states[k].intents[id].status != Succeeded
    ensures id in states[n].intents
    ensures states[n].intents[id].status == Succeeded ==>
              exists j :: k <= j < n && ((ticks[j].event.FulfilCall? && ticks[j].event.id == id) ||
                                         ToldPaid(states[j], ticks[j].event, s, id))
  {
    hide Step, Enabled, ToldPaid;
    if k < n {
      SucceedsOnlyWhenPaid(states, ticks, s, start, k, n - 1, id);
      assert Transition(states[n - 1], ticks[n - 1], states[n], s, ClockAt(ticks, start, n - 1));
      StepTouches(states[n - 1], ticks[n - 1].event, s, ticks[n - 1].now, id);
    }
  }

  // ---- No tracked QR is forgotten unverified ----

  predicate Tracked(i: Intent, m: Md5) {
    i.md5 == Some(m) || i.prevMd5 == Some(m)
  }

  /** The refresh asked about m and the answer was unpaid. */
  predicate AnsweredUnpaid(i: Intent, a: RefreshInput, m: Md5) {
    || (i.md5 == Some(m) && a.confirm.current == Unpaid)
    || (i.prevMd5 == Some(m) && HasPrevious(i) && a.confirm.previous == Unpaid)
  }

  lemma RefreshTracks(t: Tables, id: IntentId, check: bool, s: Settings, now: Time, a: RefreshInput, m: Md5)
    requires id in t.intents && s.nbc
    ensures var t' := ReuseOrRefresh(t, id, check, s, now, a);
            && id in t'.intents
            && (Tracked(t.intents[id], m) ==> Tracked(t'.intents[id], m) || AnsweredUnpaid(t.intents[id], a, m))
  {
    hide SettleIfPaid, AlreadyOwned;
    SettleTouchesOnly(t, id, s, now, a.settle);
  }

  /** With NBC settle on, over any run, an md5 once issued for an intent is its current or its previous
      md5, or was answered unpaid in the very refresh that dropped it. */
  lemma {:induction false} NoQrForgotten(states: seq<Tables>, ticks: seq<Tick>, s: Settings, start: Time,
                                         k: nat, n: nat, id: IntentId, m: Md5)
    requires Run(states, ticks, s, start) && s.nbc && k <= n < |states|
    requires id in states[k].intents && Tracked(states[k].intents[id], m)
    ensures id in states[n].intents
    ensures Tracked(states[n].intents[id], m) ||
            exists j :: k <= j < n && ticks[j].event.Reuse? && ticks[j].event.id == id && id in states[j].intents &&
                        AnsweredUnpaid(states[j].intents[id], ticks[j].event.refresh, m)
  {
    hide Step, Enabled, Tracked, AnsweredUnpaid;
    if k < n {
      NoQrForgotten(states, ticks, s, start, k, n - 1, id, m);
      var t, e := states[n - 1], ticks[n - 1].event;
      assert Transition(t, ticks[n - 1], states[n], s, ClockAt(ticks, start, n - 1));
      StepTracks(t, e, s, ticks[n - 1].now, id, m);
    }
  }

  lemma StepTracks(t: Tables, e: Event, s: Settings, now: Time, id: IntentId, m: Md5)
    requires Enabled(t, e) && s.nbc && id in t.intents
    ensures var t' := Step(t, e, s, now);
            && id in t'.intents
            && (Tracked(t.intents[id], m) ==>
                  Tracked(t'.intents[id], m) || (e.Reuse? && e.id == id && AnsweredUnpaid(t.intents[id], e.refresh, m)))
  {
    if e.Reuse? && e.id == id {
      RefreshTracks(t, id, e.checkOwnership, s, now, e.refresh, m);
      hide ReuseOrRefresh, Tracked, AnsweredUnpaid;
    } else {
      StepTouches(t, e, s, now, id);
      hide Step;
    }
  }

  /** Between states k and n of a run from the empty tables, m stopped being tracked for id although no refresh
      was told that it is unpaid. */
  ghost predicate ForgetsQr(states: seq<Tables>, ticks: seq<Tick>, s: Settings, start: Time, k: nat, n: nat,
                            id: IntentId, m: Md5)
  {
    && FromEmpty(states, ticks, s, start) && k <= n < |states|
    && id in states[k].intents && Tracked(states[k].intents[id], m)
    && id in states[n].intents && !Tracked(states[n].intents[id], m)
    && forall j :: k <= j < n && ticks[j].event.Reuse? && ticks[j].event.id == id && id in states[j].intents ==>
         !AnsweredUnpaid(states[j].intents[id], ticks[j].event.refresh, m)
  }

  const NoAnswer: Probes := Probes(Unknown, Unknown)

  /** Two expiries in a row, with no network to ask. */
  ghost function ExpiryRun(s: Settings): (r: (seq<Tables>, seq<Tick>)) {
    var age := if s.qrTtl > 0 then s.qrTtl else 0;
    var planned := Empty.(plans := [MonthlyOn]);
    var placed := planned.(intents := map[1 := SubDraft]);
    var first := Regenerate(placed, 1, 21, age);
    var second := Regenerate(first, 1, 22, 2 * age);
    ([Empty, planned, placed, first, second],
     [Tick(PlansEdited([MonthlyOn]), 0), Tick(Insert(1, SubDraft), 0),
      Tick(Reuse(1, false, RefreshInput(NoAnswer, NoAnswer, Some(21))), age),
      Tick(Reuse(1, false, RefreshInput(NoAnswer, NoAnswer, Some(22))), 2 * age)])
  }

  lemma RefreshRegenerates(t: Tables, id: IntentId, s: Settings, now: Time, md5: Md5)
    requires !s.nbc && id in t.intents && t.intents[id].status == Pending && QrIsStale(t.intents[id], s, now)
    ensures ReuseOrRefresh(t, id, false, s, now, RefreshInput(NoAnswer, NoAnswer, Some(md5))) ==
            Regenerate(t, id, md5, now)
  {
    hide Fulfil;
  }

  lemma ExpiryRunIsRun(s: Settings)
    requires !s.nbc
    ensures var (states, ticks) := ExpiryRun(s); Run(states, ticks, s, 0)
  {
    hide ReuseOrRefresh, UniquePending;
    var (states, ticks) := ExpiryRun(s);
    var age := if s.qrTtl > 0 then s.qrTtl else 0;
    UniqueAlone(1, SubDraft);
    assert Empty.intents[1 := SubDraft] == map[1 := SubDraft];
    RefreshRegenerates(states[2], 1, s, age, 21);
    RefreshRegenerates(states[3], 1, s, 2 * age, 22);
    assert Transition(states[0], ticks[0], states[1], s, 0) && Transition(states[1], ticks[1], states[2], s, 0);
    assert Transition(states[2], ticks[2], states[3], s, 0) && Transition(states[3], ticks[3], states[4], s, age);
    hide Transition;
  }

  /** A run from the empty tables can forget a QR unverified exactly when the network checks are off. */
  lemma ForgetsQrIffNoNbc(s: Settings)
    ensures (exists states, ticks, start, k, n, id, m :: ForgetsQr(states, ticks, s, start, k, n, id, m)) <==> !s.nbc
  {
    if s.nbc {
      forall states, ticks, start, k: nat, n: nat, id, m
        ensures !ForgetsQr(states, ticks, s, start, k, n, id, m)
      {
        if ForgetsQr(states, ticks, s, start, k, n, id, m) {
          NoQrForgotten(states, ticks, s, start, k, n, id, m);
        }
      }
    } else {
      var (states, ticks) := ExpiryRun(s);
      ExpiryRunIsRun(s);
      hide Run;
      assert ForgetsQr(states, ticks, s, 0, 2, 4, 1, 11);
    }
  }

  // ---- The one-row subscription summary refines the payment ledger ----

  predicate HasActiveSubscription(t: Tables, u: UserId, at: Time) {
    u in t.subscriptions && t.subscriptions[u].active && t.subscriptions[u].end > at
  }

  /** Read at or after the last transaction, the one row answers exactly what the ledger of periods says. */
  lemma SummaryRefinesLedger(states: seq<Tables>, ticks: seq<Tick>, s: Settings, start: Time, k: nat, u: UserId,
                             at: Time)
    requires Run(states, ticks, s, start) && Core(states[0], start) && k < |states| && ClockAt(ticks, start, k) <= at
    ensures Disjoint(GrantsOf(states[k], u))
    ensures HasActiveSubscription(states[k], u, at) <==> Covered(GrantsOf(states[k], u), at)
  {
    RunKeepsCore(states, ticks, s, start, k);
    RowIsLedger(states[k], u, ClockAt(ticks, start, k), at);
  }

  lemma RowIsLedger(t: Tables, u: UserId, clock: Time, at: Time)
    requires Core(t, clock) && clock <= at
    ensures Disjoint(GrantsOf(t, u))
    ensures HasActiveSubscription(t, u, at) <==> Covered(GrantsOf(t, u), at)
  {
    assert LedgerOf(t, u, clock);
    var gs := GrantsOf(t, u);
    if Covered(gs, at) {
      var k :| 0 <= k < |gs| && gs[k].start <= at < gs[k].end;
      assert k < |gs| - 1 ==> gs[k].end <= gs[|gs| - 1].start < gs[|gs| - 1].end;
    }
  }

  /** The user's fulfilled subscription intents. */
  ghost function FulfilledSubs(t: Tables, u: UserId): set<IntentId> {
    set j | j in t.intents && t.intents[j].kind == Sub && t.intents[j].status == Succeeded &&
      t.intents[j].buyer == User(u)
            && !Unfunded(t, j)
  }

  function IntervalSeconds(t: Tables, id: IntentId): int
    requires id in t.intents
  {
    (if t.intents[id].intervalDays.Some? then t.intents[id].intervalDays.value else 0) * SECONDS_PER_DAY
  }

  ghost function SumIntervals(t: Tables, ids: set<IntentId>): int
    requires ids <= t.intents.Keys
  {
    if ids == {} then 0
    else
      var x :| x in ids;
      IntervalSeconds(t, x) + SumIntervals(t, ids - {x})
  }

  function TotalGranted(gs: seq<Grant>): int {
    if gs == [] then 0 else TotalGranted(gs[..|gs| - 1]) + gs[|gs| - 1].end - gs[|gs| - 1].start
  }

  lemma {:induction false} SumIntervalsWithout(t: Tables, ids: set<IntentId>, x: IntentId)
    requires ids <= t.intents.Keys && x in ids
    ensures SumIntervals(t, ids) == IntervalSeconds(t, x) + SumIntervals(t, ids - {x})
    decreases |ids|
  {
    var y :| y in ids && SumIntervals(t, ids) == IntervalSeconds(t, y) + SumIntervals(t, ids - {y});
    if y != x {
      SumIntervalsWithout(t, ids - {y}, x);
      SumIntervalsWithout(t, ids - {x}, y);
      assert ids - {y} - {x} == ids - {x} - {y};
    }
  }

  lemma {:induction false} TotalIsSum(t: Tables, u: UserId, gs: seq<Grant>, ids: set<IntentId>)
    requires ids <= t.intents.Keys
    requires forall k :: 0 <= k < |gs| ==> gs[k].intentId in t.subPayments && GrantMatches(t, u, gs[k])
    requires forall j, k :: 0 <= j < k < |gs| ==> gs[j].intentId != gs[k].intentId
    requires forall x :: x in ids <==> exists k :: 0 <= k < |gs| && gs[k].intentId == x
    ensures TotalGranted(gs) == SumIntervals(t, ids)
  {
    if gs == [] {
      assert ids == {};
    } else {
      var init, last := gs[..|gs| - 1], gs[|gs| - 1];
      var rest := ids - {last.intentId};
      assert forall k :: 0 <= k < |init| ==> init[k] == gs[k];
      forall x
        ensures x in rest <==> exists k :: 0 <= k < |init| && init[k].intentId == x
      {
        if x in rest {
          var k :| 0 <= k < |gs| && gs[k].intentId == x;
          assert init[k].intentId == x;
        }
        if k :| 0 <= k < |init| && init[k].intentId == x {
          assert gs[k].intentId == x;
        }
      }
      TotalIsSum(t, u, init, rest);
      assert gs[|gs| - 1].intentId in ids;
      SumIntervalsWithout(t, ids, last.intentId);
      assert GrantMatches(t, u, last);
    }
  }

  /** Over any run, in any order and with any repeats, a user is granted exactly the intervals of the
      distinct subscription intents that were fulfilled; a stranded one grants nothing. */
  lemma GrantedIsPaidFor(states: seq<Tables>, ticks: seq<Tick>, s: Settings, start: Time, k: nat, u: UserId)
    requires Run(states, ticks, s, start) && Core(states[0], start) && k < |states|
    ensures FulfilledSubs(states[k], u) <= states[k].intents.Keys
    ensures TotalGranted(GrantsOf(states[k], u)) == SumIntervals(states[k], FulfilledSubs(states[k], u))
  {
    RunKeepsCore(states, ticks, s, start, k);
    var t := states[k];
    var gs := GrantsOf(t, u);
    assert LedgerOf(t, u, ClockAt(ticks, start, k));
    hide SupersededOwned, UniquePending, AllShaped, Run;
    forall x
      ensures x in FulfilledSubs(t, u) <==> exists k :: 0 <= k < |gs| && gs[k].intentId == x
    {
      if x in FulfilledSubs(t, u) {
        assert PaymentMatches(t.intents[x], t.subPayments[x]);
      }
      if k :| 0 <= k < |gs| && gs[k].intentId == x {
        assert GrantMatches(t, u, gs[k]) && PaymentMatches(t.intents[x], t.subPayments[x]);
      }
    }
    TotalIsSum(t, u, gs, FulfilledSubs(t, u));
  }
}
