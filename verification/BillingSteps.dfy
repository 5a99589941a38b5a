/**
 Every billing transaction keeps the invariant, with one exception that is stated exactly:
 a sweep that commits a fulfilment which raised halfway.
 */
module BillingSteps {
  import opened Options
  import opened BillingTables
  import opened BillingInvariant

  // ---- Settling and refreshing ----

  lemma SettleKeepsInv(t: Tables, id: IntentId, s: Settings, clock: Time, now: Time, p: Probes)
    requires Core(t, clock) && clock <= now && id in t.intents
    ensures SettleIfPaid(t, id, s, now, p).Yes? ==> Keeps(t, SettleIfPaid(t, id, s, now, p).tables, now)
    ensures SettleIfPaid(t, id, s, now, p).Yes? ==>
              SettleIfPaid(t, id, s, now, p).tables.intents.Keys == t.intents.Keys
  {
    hide Core, ReceiptsComplete, Fulfil;
    FulfilKeepsInv(t, id, clock, now, "bakong");
    Later(t, clock, now);
  }

  lemma Later(t: Tables, clock: Time, now: Time)
    requires Core(t, clock) && clock <= now
    ensures Keeps(t, t, now)
  {
    hide ReceiptsSound, ReceiptsComplete, SupersededOwned, UniquePending, Ledger, AllShaped;
    LedgerFrame(t, t, clock, now);
  }

  /** The QR fields of an intent play no part in the invariant. */
  lemma RegenerateKeepsInv(t: Tables, id: IntentId, md5: Md5, clock: Time, now: Time)
    requires Core(t, clock) && clock <= now && id in t.intents
    ensures Keeps(t, Regenerate(t, id, md5, now), now)
  {
    hide ReceiptsSound, ReceiptsComplete, SupersededOwned, UniquePending, AllShaped, Ledger;
    LedgerFrame(t, Regenerate(t, id, md5, now), clock, now);
    RegenerateReceipts(t, id, md5, now);
    RegenerateSuperseded(t, id, md5, now);
    RegenerateShapes(t, id, md5, now);
  }

  lemma RegenerateShapes(t: Tables, id: IntentId, md5: Md5, now: Time)
    requires AllShaped(t) && UniquePending(t.intents) && id in t.intents
    ensures AllShaped(Regenerate(t, id, md5, now)) && UniquePending(Regenerate(t, id, md5, now).intents)
  {
    var t' := Regenerate(t, id, md5, now);
    forall j, k
      ensures !Clash(t'.intents, j, k)
    {
      assert !Clash(t.intents, j, k);
    }
    forall j | j in t'.intents
      ensures Shaped(t'.intents[j])
    {
      assert Shaped(t.intents[j]);
    }
  }

  lemma RegenerateReceipts(t: Tables, id: IntentId, md5: Md5, now: Time)
    requires ReceiptsSound(t) && id in t.intents
    ensures ReceiptsSound(Regenerate(t, id, md5, now))
    ensures ReceiptsComplete(t) ==> ReceiptsComplete(Regenerate(t, id, md5, now))
  {
    var t' := Regenerate(t, id, md5, now);
    if ReceiptsComplete(t) {
      forall j | j in t'.intents && t'.intents[j].status == Succeeded
        ensures HasReceipt(t', j)
      {
        assert HasReceipt(t, j);
      }
    }
  }

  lemma RegenerateSuperseded(t: Tables, id: IntentId, md5: Md5, now: Time)
    requires SupersededOwned(t) && id in t.intents
    ensures SupersededOwned(Regenerate(t, id, md5, now))
  {
    var t' := Regenerate(t, id, md5, now);
    forall j | j in t'.intents && t'.intents[j].status == Superseded
      ensures OwnedElsewhere(t', j)
    {
      assert OwnedElsewhere(t, j);
    }
  }

  lemma ReuseKeepsInv(t: Tables, id: IntentId, check: bool, s: Settings, clock: Time, now: Time, a: RefreshInput)
    requires Core(t, clock) && clock <= now && id in t.intents && t.intents[id].status == Pending
    ensures Keeps(t, ReuseOrRefresh(t, id, check, s, now, a), now)
  {
    hide Core, ReceiptsComplete, SettleIfPaid, Regenerate;
    Later(t, clock, now);
    SettleKeepsInv(t, id, s, clock, now, a.settle);
    if AlreadyOwned(t, t.intents[id]) {
      SupersedeKeepsInv(t, id, clock, now);
    }
    if a.khqr.Some? {
      RegenerateKeepsInv(t, id, a.khqr.value, clock, now);
    }
  }

  /** With pending intents unique per buyer and title, the poll path's sibling lookup finds nothing. */
  lemma NoSibling(t: Tables, id: IntentId, other: IntentId)
    requires UniquePending(t.intents)
    requires id in t.intents && t.intents[id].status == Pending && Shaped(t.intents[id])
    ensures !IsSibling(t, id, other)
  {
    if IsSibling(t, id, other) {
      assert Clash(t.intents, id, other);
    }
  }

  /** And playback authorize finds at most one intent to settle. */
  lemma OneRowToSettle(t: Tables, b: Buyer, c: ContentId, rows: seq<IntentId>)
    requires UniquePending(t.intents) && NewestPending(t, b, c, rows)
    ensures |rows| <= 1
  {
    if |rows| == 2 {
      assert Clash(t.intents, rows[0], rows[1]);
    }
  }

  lemma PollKeepsInv(t: Tables, id: IntentId, s: Settings, clock: Time, now: Time, a: PollInput)
    requires Core(t, clock) && clock <= now && id in t.intents && NewestSibling(t, id, a.sibling)
    ensures Keeps(t, Poll(t, id, s, now, a), now)
  {
    if t.intents[id].status == Pending && a.sibling.Some? {
      NoSibling(t, id, a.sibling.value);
    }
    hide Core, ReceiptsComplete, SettleIfPaid;
    Later(t, clock, now);
    SettleKeepsInv(t, id, s, clock, now, a.own);
    if t.intents[id].status == Pending && AlreadyOwned(t, t.intents[id]) {
      SupersedeKeepsInv(t, id, clock, now);
    }
  }

  lemma {:induction false} AuthorizeKeepsInv(t: Tables, rows: seq<IntentId>, s: Settings, clock: Time, now: Time,
                                             ps: seq<Probes>)
    requires Core(t, clock) && clock <= now && |ps| == |rows| && forall id <- rows :: id in t.intents
    ensures Keeps(t, Authorize(t, rows, s, now, ps), now)
    decreases |rows|
  {
    hide Core, ReceiptsComplete, SettleIfPaid;
    Later(t, clock, now);
    if rows != [] {
      SettleKeepsInv(t, rows[0], s, clock, now, ps[0]);
      AuthorizeKeepsInv(t, rows[1..], s, clock, now, ps[1..]);
    }
  }

  // ---- Claims, deletions, inserts ----

  lemma ClaimKeepsSound(t: Tables, g: GuestId, u: UserId)
    requires ReceiptsSound(t)
    ensures ReceiptsSound(Claimed(t, g, u))
  {
  }

  lemma ClaimKeepsComplete(t: Tables, g: GuestId, u: UserId)
    requires ReceiptsComplete(t)
    ensures ReceiptsComplete(Claimed(t, g, u))
  {
    var t' := Claimed(t, g, u);
    forall j | j in t'.intents && t'.intents[j].status == Succeeded
      ensures HasReceipt(t', j)
    {
      assert HasReceipt(t, j);
    }
  }

  lemma ClaimKeepsSuperseded(t: Tables, g: GuestId, u: UserId)
    requires SupersededOwned(t)
    ensures SupersededOwned(Claimed(t, g, u))
  {
    var t' := Claimed(t, g, u);
    forall j | j in t'.intents && t'.intents[j].status == Superseded
      ensures OwnedElsewhere(t', j)
    {
      assert OwnedElsewhere(t, j);
      match t.intents[j].kind
      case Single =>
        if t.intents[j].contentId.Some? {
          var o :| o in t.purchases && o != j && t.purchases[o].buyer == t.intents[j].buyer &&
                   t.purchases[o].contentId == t.intents[j].contentId.value;
          assert o in t'.purchases;
        }
      case Series =>
        if t.intents[j].seriesId.Some? {
          var o :| o in t.seriesPurchases && o != j && t.seriesPurchases[o].buyer == t.intents[j].buyer &&
                   t.seriesPurchases[o].seriesId == t.intents[j].seriesId.value;
          assert o in t'.seriesPurchases;
        }
      case Sub =>
    }
  }

  /** Who a row belongs to once a claim moved it. */
  predicate MovedTo(before: Buyer, after: Buyer, g: GuestId, u: UserId) {
    after == if before.Guest? && before.guestId == g then User(u) else before
  }

  /** Every receipt and every intent of the guest, and nobody else's, goes to the account. */
  lemma ClaimMovesAll(t: Tables, g: GuestId, u: UserId)
    ensures var t' := Claimed(t, g, u);
            && t'.intents.Keys == t.intents.Keys && t'.purchases.Keys == t.purchases.Keys
            && t'.seriesPurchases.Keys == t.seriesPurchases.Keys
            && (forall j :: j in t.intents ==> MovedTo(t.intents[j].buyer, t'.intents[j].buyer, g, u))
            && (forall j :: j in t.purchases ==> MovedTo(t.purchases[j].buyer, t'.purchases[j].buyer, g, u))
            && (forall j :: j in t.seriesPurchases ==>
                  MovedTo(t.seriesPurchases[j].buyer, t'.seriesPurchases[j].buyer, g, u))
  {
  }

  /** The guest's intent x and the account's intent y are pending checkouts of one product. */
  predicate BothPending(t: Tables, g: GuestId, u: UserId, x: IntentId, y: IntentId) {
    x in t.intents && y in t.intents &&
    match (PendingKey(t.intents[x]), PendingKey(t.intents[y]))
    case (Some(k), Some(l)) => k.0 == Guest(g) && l.0 == User(u) && k.1 == l.1
    case _ => false
  }

  lemma ClaimedKey(i: Intent, g: GuestId, u: UserId)
    requires Shaped(i)
    ensures var k := PendingKey(i);
            PendingKey(i.(buyer := Renamed(i.buyer, g, u))) ==
            if k.Some? then Some((Renamed(k.value.0, g, u), k.value.1)) else None
  {
  }

  /** A claim is refused as a whole exactly when guest and account are both about to pay for the same product. */
  lemma ClaimRefusedIff(t: Tables, g: GuestId, u: UserId)
    requires AllShaped(t) && UniquePending(t.intents)
    ensures Claim(t, g, u) == if exists x, y :: BothPending(t, g, u, x, y) then t else Claimed(t, g, u)
  {
    var after := Claimed(t, g, u).intents;
    forall j | j in t.intents
      ensures j in after && after[j] == t.intents[j].(buyer := Renamed(t.intents[j].buyer, g, u))
    {
    }
    assert after.Keys == t.intents.Keys;
    hide Claimed, PendingKey;
    if x, y :| BothPending(t, g, u, x, y) {
      ClaimedKey(t.intents[x], g, u);
      ClaimedKey(t.intents[y], g, u);
      assert Clash(after, x, y);
    } else {
      forall j, k | j in after && k in after
        ensures !Clash(after, j, k)
      {
        ClaimedKey(t.intents[j], g, u);
        ClaimedKey(t.intents[k], g, u);
        assert !Clash(t.intents, j, k) && !BothPending(t, g, u, j, k) && !BothPending(t, g, u, k, j);
      }
    }
  }

  lemma ClaimKeepsInv(t: Tables, g: GuestId, u: UserId, clock: Time, now: Time)
    requires Core(t, clock) && clock <= now
    ensures Keeps(t, Claim(t, g, u), now)
  {
    var t' := Claimed(t, g, u);
    Later(t, clock, now);
    ClaimKeepsSound(t, g, u);
    if ReceiptsComplete(t) {
      ClaimKeepsComplete(t, g, u);
    }
    ClaimKeepsSuperseded(t, g, u);
    forall j | j in t'.intents
      ensures Shaped(t'.intents[j])
    {
      assert Shaped(t.intents[j]);
    }
    assert AllShaped(t');
    hide Ledger, SupersededOwned, ReceiptsComplete, ReceiptsSound, AllShaped, UniquePending;
    LedgerFrame(t, t', clock, now);
  }

  /** The effect a deletion has on the tables, for movies and for whole series alike. */
  ghost predicate Deletion(t: Tables, t': Tables, movies: set<ContentId>, gone: set<SeriesId>) {
    && t'.intents.Keys == t.intents.Keys
    && (forall j :: j in t.intents ==> t'.intents[j] == Detached(t.intents[j], movies, gone))
    && (forall j :: j in t'.purchases <==> j in t.purchases && t.purchases[j].contentId !in movies)
    && (forall j :: j in t'.purchases ==> t'.purchases[j] == t.purchases[j])
    && (forall j :: j in t'.seriesPurchases <==> j in t.seriesPurchases && t.seriesPurchases[j].seriesId !in gone)
    && (forall j :: j in t'.seriesPurchases ==> t'.seriesPurchases[j] == t.seriesPurchases[j])
    && t'.subscriptions == t.subscriptions && t'.subPayments == t.subPayments
    && t'.plans == t.plans && t'.grants == t.grants
    && t'.contents == t.contents - movies && t'.freeToday == t.freeToday - movies && t'.series == t.series - gone
  }

  function Detached(i: Intent, movies: set<ContentId>, gone: set<SeriesId>): Intent {
    i.(contentId := if i.contentId.Some? && i.contentId.value in movies then None else i.contentId,
       seriesId := if i.seriesId.Some? && i.seriesId.value in gone then None else i.seriesId)
  }

  /** A receipt that a deletion leaves still matches its detached intent. */
  lemma DetachedMatches(i: Intent, movies: set<ContentId>, gone: set<SeriesId>)
    ensures forall p :: PurchaseMatches(i, p) && p.contentId !in movies ==>
            PurchaseMatches(Detached(i, movies, gone), p)
    ensures forall p :: UnlockMatches(i, p) && p.seriesId !in gone ==> UnlockMatches(Detached(i, movies, gone), p)
    ensures forall p :: PaymentMatches(i, p) ==> PaymentMatches(Detached(i, movies, gone), p)
  {
  }

  lemma DeletionSound(t: Tables, t': Tables, movies: set<ContentId>, gone: set<SeriesId>)
    requires Deletion(t, t', movies, gone) && ReceiptsSound(t)
    ensures ReceiptsSound(t')
  {
    hide Detached, PurchaseMatches, UnlockMatches, PaymentMatches;
    forall j | j in t'.purchases
      ensures j in t'.intents && PurchaseMatches(t'.intents[j], t'.purchases[j])
    {
      DetachedMatches(t.intents[j], movies, gone);
    }
    forall j | j in t'.seriesPurchases
      ensures j in t'.intents && UnlockMatches(t'.intents[j], t'.seriesPurchases[j])
    {
      DetachedMatches(t.intents[j], movies, gone);
    }
    forall j | j in t'.subPayments
      ensures j in t'.intents && PaymentMatches(t'.intents[j], t'.subPayments[j])
    {
      DetachedMatches(t.intents[j], movies, gone);
    }
  }

  lemma DeletionComplete(t: Tables, t': Tables, movies: set<ContentId>, gone: set<SeriesId>)
    requires Deletion(t, t', movies, gone) && ReceiptsSound(t) && ReceiptsComplete(t)
    ensures ReceiptsComplete(t')
  {
    forall j | j in t'.intents && t'.intents[j].status == Succeeded
      ensures HasReceipt(t', j)
    {
      assert HasReceipt(t, j);
    }
  }

  lemma DeletionSuperseded(t: Tables, t': Tables, movies: set<ContentId>, gone: set<SeriesId>)
    requires Deletion(t, t', movies, gone)
    requires SupersededOwned(t)
    ensures SupersededOwned(t')
  {
    forall j | j in t'.intents && t'.intents[j].status == Superseded
      ensures OwnedElsewhere(t', j)
    {
      assert OwnedElsewhere(t, j);
    }
  }

  lemma DeletionShapes(t: Tables, t': Tables, movies: set<ContentId>, gone: set<SeriesId>)
    requires Deletion(t, t', movies, gone)
    requires AllShaped(t) && UniquePending(t.intents)
    ensures AllShaped(t') && UniquePending(t'.intents)
  {
    forall j, k
      ensures !Clash(t'.intents, j, k)
    {
      assert !Clash(t.intents, j, k);
    }
    forall j | j in t'.intents
      ensures Shaped(t'.intents[j])
    {
      assert Shaped(t.intents[j]);
    }
  }

  lemma DeletionKeepsInv(t: Tables, t': Tables, movies: set<ContentId>, gone: set<SeriesId>, clock: Time, now: Time)
    requires Core(t, clock) && clock <= now && Deletion(t, t', movies, gone)
    ensures Keeps(t, t', now)
  {
    DeletionSound(t, t', movies, gone);
    if ReceiptsComplete(t) {
      DeletionComplete(t, t', movies, gone);
    }
    DeletionSuperseded(t, t', movies, gone);
    DeletionShapes(t, t', movies, gone);
    hide ReceiptsSound, ReceiptsComplete, SupersededOwned, UniquePending, AllShaped, Ledger;
    LedgerFrame(t, t', clock, now);
  }

  lemma InsertKeepsInv(t: Tables, id: IntentId, d: Intent, clock: Time, now: Time)
    requires Core(t, clock) && clock <= now && WellFormedDraft(d) && InsertAccepted(t, id, d)
    ensures Keeps(t, t.(intents := t.intents[id := d]), now)
  {
    var t' := t.(intents := t.intents[id := d]);
    InsertReceipts(t, id, d);
    SupersededFrame(t, t');
    forall j | j in t'.intents
      ensures Shaped(t'.intents[j])
    {
      if j != id {
        assert Shaped(t.intents[j]);
      }
    }
    hide ReceiptsSound, ReceiptsComplete, SupersededOwned, UniquePending, Ledger;
    LedgerFrame(t, t', clock, now);
  }

  lemma InsertReceipts(t: Tables, id: IntentId, d: Intent)
    requires ReceiptsSound(t) && d.status == Pending && id !in t.intents
    ensures var t' := t.(intents := t.intents[id := d]);
            ReceiptsSound(t') && (ReceiptsComplete(t) ==> ReceiptsComplete(t'))
  {
    var t' := t.(intents := t.intents[id := d]);
    if ReceiptsComplete(t) {
      forall j | j in t'.intents && t'.intents[j].status == Succeeded
        ensures HasReceipt(t', j)
      {
        assert HasReceipt(t, j);
      }
    }
  }

  // ---- Sweeps ----

  predicate NoActivePlan(t: Tables) {
    forall p <- t.plans :: !p.active
  }

  /** The loop gets as far as row k. */
  predicate Reached(t: Tables, batch: seq<IntentId>, ins: seq<SweepInput>, k: nat)
    requires |ins| == |batch| && k < |batch| && forall id <- batch :: id in t.intents
  {
    forall j :: 0 <= j <= k ==> !SweepStops(t.intents[batch[j]], ins[j])
  }

  /** Both the loop's probes and the settle call's probes report row k paid. */
  predicate SeenPaid(t: Tables, batch: seq<IntentId>, s: Settings, ins: seq<SweepInput>, k: nat)
    requires |ins| == |batch| && k < |batch| && forall id <- batch :: id in t.intents
  {
    && Reached(t, batch, ins, k)
    && SweepSeesPaid(t.intents[batch[k]], ins[k])
    && s.nbc && Md5sPaid(t.intents[batch[k]], s, ins[k].settle)
  }

  ghost predicate SomePaid(t: Tables, batch: seq<IntentId>, s: Settings, ins: seq<SweepInput>, sub: bool)
    requires |ins| == |batch| && forall id <- batch :: id in t.intents
  {
    exists k :: 0 <= k < |batch| && SeenPaid(t, batch, s, ins, k) && (t.intents[batch[k]].kind == Sub <==> sub)
  }

  /** A paid subscription cannot be granted because no plan is active, its error is swallowed,
      and another row of the batch makes the sweep commit. */
  ghost predicate Strands(t: Tables, batch: seq<IntentId>, s: Settings, ins: seq<SweepInput>)
    requires |ins| == |batch| && forall id <- batch :: id in t.intents
  {
    NoActivePlan(t) && SomePaid(t, batch, s, ins, true) && SomePaid(t, batch, s, ins, false)
  }

  /** Rows a sweep may work on: distinct pending intents without a receipt. */
  ghost predicate OpenRows(t: Tables, batch: seq<IntentId>) {
    && (forall j, k :: 0 <= j < k < |batch| ==> batch[j] != batch[k])
    && (forall id <- batch :: id in t.intents && t.intents[id].status == Pending && Shaped(t.intents[id])
                              && id !in t.subPayments)
  }

  lemma SettleSucceeds(t: Tables, id: IntentId, s: Settings, now: Time, p: Probes)
    requires id in t.intents && t.intents[id].status == Pending && Shaped(t.intents[id]) && id !in t.subPayments
    requires s.nbc && Md5sPaid(t.intents[id], s, p)
    ensures t.intents[id].kind != Sub || !NoActivePlan(t) ==> SettleIfPaid(t, id, s, now, p).Yes?
    ensures t.intents[id].kind == Sub && NoActivePlan(t) ==>
              SettleIfPaid(t, id, s, now, p) == Failed(Resolve(t, id, Succeeded, Some(now)))
  {
    var t1 := Resolve(t, id, Succeeded, Some(now));
    ResolvedPlanExists(t1.plans, t1.intents[id]);
    hide ResolvePlan;
  }

  /** One row of a sweep changes that row only, and marks it succeeded when it is seen paid. */
  lemma SweepOneFrame(w: Sweeping, id: IntentId, s: Settings, now: Time, a: SweepInput)
    requires id in w.tables.intents && w.tables.intents[id].status == Pending
    ensures var w' := SweepOne(w, id, s, now, a);
            && w'.tables.intents.Keys == w.tables.intents.Keys
            && (forall x :: x in w.tables.intents && x != id ==> w'.tables.intents[x] == w.tables.intents[x])
            && (forall x :: x in w'.tables.subPayments ==> x in w.tables.subPayments || x == id)
            && w'.tables.plans == w.tables.plans
            && w'.settled >= w.settled
            && (SweepSeesPaid(w.tables.intents[id], a) && s.nbc && Md5sPaid(w.tables.intents[id], s, a.settle) ==>
                  w'.tables.intents[id] == w.tables.intents[id].(status := Succeeded, resolvedAt := Some(now)))
  {
    var t1 := Resolve(w.tables, id, Succeeded, Some(now));
    RecordAddsOwnPayment(t1, id, now, "bakong");
    hide Record;
  }

  lemma RecordAddsOwnPayment(t: Tables, id: IntentId, now: Time, bank: string)
    requires id in t.intents
    ensures var o := Record(t, id, now, bank);
            var t' := if o.Done? then o.tables else o.dirty;
            && t'.plans == t.plans && t'.intents == t.intents
            && (forall x :: x in t'.subPayments ==> x in t.subPayments || x == id)
  {
    hide ResolvePlan;
  }

  /** What the head of the batch sees and does carries over to the tail. */
  lemma SweepTail(w: Sweeping, batch: seq<IntentId>, s: Settings, now: Time, ins: seq<SweepInput>)
    requires batch != [] && |ins| == |batch| && OpenRows(w.tables, batch)
    requires !SweepStops(w.tables.intents[batch[0]], ins[0])
    ensures var w' := SweepOne(w, batch[0], s, now, ins[0]);
            && OpenRows(w'.tables, batch[1..])
            && (forall k :: 0 < k < |batch| ==>
                  (SeenPaid(w.tables, batch, s, ins, k) <==> SeenPaid(w'.tables, batch[1..], s, ins[1..], k - 1)))
  {
    SweepOneFrame(w, batch[0], s, now, ins[0]);
    var w' := SweepOne(w, batch[0], s, now, ins[0]);
    var tail, insTail := batch[1..], ins[1..];
    hide SweepOne;
    forall k | 0 < k < |batch|
      ensures SeenPaid(w.tables, batch, s, ins, k) <==> SeenPaid(w'.tables, tail, s, insTail, k - 1)
    {
      assert forall j :: 0 <= j < |tail| ==>
        (tail[j] == batch[j + 1] && insTail[j] == ins[j + 1] &&
         w'.tables.intents[tail[j]] == w.tables.intents[batch[j + 1]]);
      if Reached(w.tables, batch, ins, k) {
        forall j | 0 <= j <= k - 1
          ensures !SweepStops(w'.tables.intents[tail[j]], insTail[j])
        {
          assert !SweepStops(w.tables.intents[batch[j + 1]], ins[j + 1]);
        }
      }
      if Reached(w'.tables, tail, insTail, k - 1) {
        forall j | 0 <= j <= k
          ensures !SweepStops(w.tables.intents[batch[j]], ins[j])
        {
          if j > 0 {
            assert !SweepStops(w'.tables.intents[tail[j - 1]], insTail[j - 1]);
          }
        }
      }
    }
  }

  lemma SomePaidTail(w: Sweeping, batch: seq<IntentId>, s: Settings, now: Time, ins: seq<SweepInput>, sub: bool)
    requires batch != [] && |ins| == |batch| && OpenRows(w.tables, batch)
    requires !SweepStops(w.tables.intents[batch[0]], ins[0])
    ensures var w' := SweepOne(w, batch[0], s, now, ins[0]);
            && (forall id <- batch[1..] :: id in w'.tables.intents)
            && (SomePaid(w.tables, batch, s, ins, sub) <==>
                  || (SeenPaid(w.tables, batch, s, ins, 0) && (w.tables.intents[batch[0]].kind == Sub <==> sub))
                  || SomePaid(w'.tables, batch[1..], s, ins[1..], sub))
  {
    SweepTail(w, batch, s, now, ins);
    SweepOneFrame(w, batch[0], s, now, ins[0]);
    var w' := SweepOne(w, batch[0], s, now, ins[0]);
    var tail, insTail := batch[1..], ins[1..];
    hide SweepOne, SeenPaid;
    if SomePaid(w.tables, batch, s, ins, sub) {
      var k :| 0 <= k < |batch| && SeenPaid(w.tables, batch, s, ins, k) &&
        (w.tables.intents[batch[k]].kind == Sub <==> sub);
      if k > 0 {
        assert SeenPaid(w'.tables, tail, s, insTail, k - 1) &&
          w'.tables.intents[tail[k - 1]] == w.tables.intents[batch[k]];
      }
    }
    if SomePaid(w'.tables, tail, s, insTail, sub) {
      var k :| 0 <= k < |tail| && SeenPaid(w'.tables, tail, s, insTail, k) &&
        (w'.tables.intents[tail[k]].kind == Sub <==> sub);
      assert SeenPaid(w.tables, batch, s, ins, k + 1) && w'.tables.intents[tail[k]] == w.tables.intents[batch[k + 1]];
    }
  }

  lemma MarkedSound(t: Tables, id: IntentId, at: Time)
    requires ReceiptsSound(t) && id in t.intents && t.intents[id].status == Pending
    ensures ReceiptsSound(Resolve(t, id, Succeeded, Some(at)))
  {
    NoReceiptYet(t, id);
  }

  /** Even a fulfilment that raised halfway leaves the core standing: it adds no receipt and no period. */
  lemma MarkedKeepsCore(t: Tables, id: IntentId, now: Time)
    requires Core(t, now) && id in t.intents && t.intents[id].status == Pending
    ensures Core(Resolve(t, id, Succeeded, Some(now)), now)
  {
    hide ReceiptsSound, SupersededOwned, UniquePending, AllShaped, Ledger;
    var t' := Resolve(t, id, Succeeded, Some(now));
    MarkedSound(t, id, now);
    SupersededFrame(t, t');
    ResolveKeepsUnique(t, id, Succeeded, Some(now));
    ResolveKeepsShapes(t, id, Succeeded, now);
    LedgerFrame(t, t', now, now);
  }

  lemma SweepOneKeepsCore(w: Sweeping, id: IntentId, s: Settings, now: Time, a: SweepInput)
    requires Core(w.tables, now) && id in w.tables.intents && w.tables.intents[id].status == Pending
    ensures Core(SweepOne(w, id, s, now, a).tables, now)
  {
    hide Core, ReceiptsComplete, Record;
    SettleKeepsInv(w.tables, id, s, now, now, a.settle);
    MarkedKeepsCore(w.tables, id, now);
  }

  lemma {:induction false} SweepKeepsCore(w: Sweeping, batch: seq<IntentId>, s: Settings, now: Time,
                                          ins: seq<SweepInput>)
    requires |ins| == |batch| && Core(w.tables, now) && OpenRows(w.tables, batch)
    ensures Core(SweepFrom(w, batch, s, now, ins).tables, now)
    decreases |batch|
  {
    hide Core, SettleIfPaid, OpenRows, SeenPaid;
    HeadIsOpen(w.tables, batch);
    if batch != [] && !SweepStops(w.tables.intents[batch[0]], ins[0]) {
      SweepTail(w, batch, s, now, ins);
      SweepOneKeepsCore(w, batch[0], s, now, ins[0]);
      SweepOneFrame(w, batch[0], s, now, ins[0]);
      SweepKeepsCore(SweepOne(w, batch[0], s, now, ins[0]), batch[1..], s, now, ins[1..]);
    }
  }

  /** Without a stranded subscription, every row leaves the invariant standing. */
  lemma {:induction false} CleanSweep(w: Sweeping, batch: seq<IntentId>, s: Settings, now: Time, ins: seq<SweepInput>)
    requires |ins| == |batch| && Core(w.tables, now) && OpenRows(w.tables, batch)
    requires !NoActivePlan(w.tables) || !SomePaid(w.tables, batch, s, ins, true)
    ensures Keeps(w.tables, SweepFrom(w, batch, s, now, ins).tables, now)
    decreases |batch|
  {
    hide Core, ReceiptsComplete, SettleIfPaid, SomePaid, OpenRows, Md5sPaid;
    HeadIsOpen(w.tables, batch);
    if batch != [] && !SweepStops(w.tables.intents[batch[0]], ins[0]) {
      SweepTail(w, batch, s, now, ins);
      SomePaidTail(w, batch, s, now, ins, true);
      SettleKeepsInv(w.tables, batch[0], s, now, now, ins[0].settle);
      CleanRow(w, batch, s, now, ins);
      SweepOneFrame(w, batch[0], s, now, ins[0]);
      CleanSweep(SweepOne(w, batch[0], s, now, ins[0]), batch[1..], s, now, ins[1..]);
    }
  }

  lemma CleanRow(w: Sweeping, batch: seq<IntentId>, s: Settings, now: Time, ins: seq<SweepInput>)
    requires batch != [] && |ins| == |batch| && OpenRows(w.tables, batch)
    requires !SweepStops(w.tables.intents[batch[0]], ins[0])
    requires !NoActivePlan(w.tables) || !SomePaid(w.tables, batch, s, ins, true)
    ensures SweepSeesPaid(w.tables.intents[batch[0]], ins[0]) ==>
              !SettleIfPaid(w.tables, batch[0], s, now, ins[0].settle).Failed?
  {
    var id := batch[0];
    if SweepSeesPaid(w.tables.intents[id], ins[0]) && s.nbc && Md5sPaid(w.tables.intents[id], s, ins[0].settle) {
      assert SeenPaid(w.tables, batch, s, ins, 0);
      SettleSucceeds(w.tables, id, s, now, ins[0].settle);
    }
  }

  lemma {:induction false} PlanlessCommits(w: Sweeping, batch: seq<IntentId>, s: Settings, now: Time,
                                           ins: seq<SweepInput>)
    requires |ins| == |batch| && OpenRows(w.tables, batch) && NoActivePlan(w.tables)
    ensures var r := SweepFrom(w, batch, s, now, ins);
            && r.settled >= w.settled
            && (r.settled > w.settled <==> SomePaid(w.tables, batch, s, ins, false))
            && r.tables.subPayments == w.tables.subPayments
    decreases |batch|
  {
    hide OpenRows, SomePaid, SeenPaid;
    HeadIsOpen(w.tables, batch);
    if batch == [] {
      assert !SomePaid(w.tables, batch, s, ins, false) by { NonePaid(w.tables, s); }
    } else if SweepStops(w.tables.intents[batch[0]], ins[0]) {
      StoppedSeesNothing(w.tables, batch, s, ins);
    } else {
      SweepTail(w, batch, s, now, ins);
      SomePaidTail(w, batch, s, now, ins, false);
      SweepOneFrame(w, batch[0], s, now, ins[0]);
      PlanlessRow(w, batch, s, now, ins);
      hide SweepOne, SweepStops;
      PlanlessCommits(SweepOne(w, batch[0], s, now, ins[0]), batch[1..], s, now, ins[1..]);
    }
  }

  lemma {:induction false} PlanlessMarks(w: Sweeping, batch: seq<IntentId>, s: Settings, now: Time,
                                         ins: seq<SweepInput>)
    requires |ins| == |batch| && OpenRows(w.tables, batch) && NoActivePlan(w.tables)
    ensures var r := SweepFrom(w, batch, s, now, ins);
            && r.tables.intents.Keys == w.tables.intents.Keys
            && (forall x :: x in w.tables.intents && x !in batch ==> r.tables.intents[x] == w.tables.intents[x])
            && (forall k :: 0 <= k < |batch| && SeenPaid(w.tables, batch, s, ins, k) ==>
                  r.tables.intents[batch[k]].status == Succeeded)
            && (forall x :: x in w.tables.intents ==> r.tables.intents[x].kind == w.tables.intents[x].kind)
    decreases |batch|
  {
    hide OpenRows, SeenPaid;
    HeadIsOpen(w.tables, batch);
    if batch != [] && SweepStops(w.tables.intents[batch[0]], ins[0]) {
      StoppedSeesNothing(w.tables, batch, s, ins);
    } else if batch != [] {
      SweepTail(w, batch, s, now, ins);
      SweepOneFrame(w, batch[0], s, now, ins[0]);
      PlanlessRow(w, batch, s, now, ins);
      hide SweepOne, SweepStops;
      PlanlessMarks(SweepOne(w, batch[0], s, now, ins[0]), batch[1..], s, now, ins[1..]);
      var r := SweepFrom(w, batch, s, now, ins);
      forall k | 0 <= k < |batch| && SeenPaid(w.tables, batch, s, ins, k)
        ensures r.tables.intents[batch[k]].status == Succeeded
      {
        if k > 0 {
          assert batch[k] == batch[1..][k - 1];
        }
      }
    }
  }

  /** With no active plan, the sweep commits exactly when a title was paid, and every paid
      subscription it saw is left succeeded without a payment row. */
  lemma PlanlessSweep(w: Sweeping, batch: seq<IntentId>, s: Settings, now: Time, ins: seq<SweepInput>)
    requires |ins| == |batch| && OpenRows(w.tables, batch) && NoActivePlan(w.tables)
    ensures var r := SweepFrom(w, batch, s, now, ins);
            && r.settled >= w.settled
            && (r.settled > w.settled <==> SomePaid(w.tables, batch, s, ins, false))
            && r.tables.subPayments == w.tables.subPayments
            && r.tables.intents.Keys == w.tables.intents.Keys
            && (forall k :: 0 <= k < |batch| && SeenPaid(w.tables, batch, s, ins, k) ==>
                  r.tables.intents[batch[k]].status == Succeeded)
            && (forall x :: x in w.tables.intents ==> r.tables.intents[x].kind == w.tables.intents[x].kind)
  {
    PlanlessCommits(w, batch, s, now, ins);
    PlanlessMarks(w, batch, s, now, ins);
    hide SweepFrom, SomePaid, SeenPaid;
  }

  lemma HeadIsOpen(t: Tables, batch: seq<IntentId>)
    requires OpenRows(t, batch)
    ensures forall id <- batch :: id in t.intents
    ensures batch != [] ==> batch[0] !in batch[1..] && t.intents[batch[0]].status == Pending
  {
  }

  lemma NonePaid(t: Tables, s: Settings)
    ensures !SomePaid(t, [], s, [], false)
  {
  }

  lemma StoppedSeesNothing(t: Tables, batch: seq<IntentId>, s: Settings, ins: seq<SweepInput>)
    requires batch != [] && |ins| == |batch| && forall id <- batch :: id in t.intents
    requires SweepStops(t.intents[batch[0]], ins[0])
    ensures !SomePaid(t, batch, s, ins, false)
    ensures forall k :: 0 <= k < |batch| ==> !SeenPaid(t, batch, s, ins, k)
  {
    hide SweepStops;
  }

  lemma PlanlessRow(w: Sweeping, batch: seq<IntentId>, s: Settings, now: Time, ins: seq<SweepInput>)
    requires batch != [] && |ins| == |batch| && OpenRows(w.tables, batch) && NoActivePlan(w.tables)
    requires !SweepStops(w.tables.intents[batch[0]], ins[0])
    ensures var w' := SweepOne(w, batch[0], s, now, ins[0]);
            && (w'.settled == w.settled +
                  if SeenPaid(w.tables, batch, s, ins, 0) && w.tables.intents[batch[0]].kind != Sub then 1 else 0)
            && w'.tables.subPayments == w.tables.subPayments
            && (SeenPaid(w.tables, batch, s, ins, 0) ==> w'.tables.intents[batch[0]].status == Succeeded)
            && w'.tables.intents[batch[0]].kind == w.tables.intents[batch[0]].kind
  {
    var id := batch[0];
    assert SeenPaid(w.tables, batch, s, ins, 0) <==>
      SweepSeesPaid(w.tables.intents[id], ins[0]) && s.nbc && Md5sPaid(w.tables.intents[id], s, ins[0].settle);
    assert Shaped(w.tables.intents[id]) && id !in w.tables.subPayments;
    hide SeenPaid, OpenRows, SweepStops;
    if SweepSeesPaid(w.tables.intents[id], ins[0]) && s.nbc && Md5sPaid(w.tables.intents[id], s, ins[0].settle) {
      SettleSucceeds(w.tables, id, s, now, ins[0].settle);
      if w.tables.intents[id].kind != Sub {
        TitlePaid(w.tables, id, now, "bakong");
      }
      hide Fulfil, NoActivePlan, Md5sPaid;
    } else {
      hide Fulfil, NoActivePlan, Md5sPaid;
    }
  }

  lemma TitlePaid(t: Tables, id: IntentId, now: Time, bank: string)
    requires id in t.intents && t.intents[id].kind != Sub && t.intents[id].status == Pending
    ensures var o := Fulfil(t, id, now, bank);
            && o.Done? && o.tables.subPayments == t.subPayments
            && o.tables.intents[id] == t.intents[id].(status := Succeeded, resolvedAt := Some(now))
  {
    TitleKeepsLedgerTables(Resolve(t, id, Succeeded, Some(now)), id, now, bank);
    hide Record;
  }

  lemma BatchIsOpen(t: Tables, batch: seq<IntentId>)
    requires ReceiptsSound(t) && AllShaped(t) && SweepBatch(t, batch)
    ensures OpenRows(t, batch)
  {
    forall id <- batch
      ensures Shaped(t.intents[id]) && id !in t.subPayments
    {
      NoReceiptYet(t, id);
    }
  }

  lemma PlanlessStrands(t: Tables, batch: seq<IntentId>, s: Settings, now: Time, ins: seq<SweepInput>)
    requires |ins| == |batch| && OpenRows(t, batch) && NoActivePlan(t)
    ensures Sweep(t, batch, s, now, ins) ==
            if SomePaid(t, batch, s, ins, false) then SweepFrom(Sweeping(t, 0), batch, s, now, ins).tables else t
    ensures SomePaid(t, batch, s, ins, true) ==>
              exists j :: Unfunded(SweepFrom(Sweeping(t, 0), batch, s, now, ins).tables, j)
  {
    hide SweepFrom, SeenPaid;
    PlanlessSweep(Sweeping(t, 0), batch, s, now, ins);
    var t' := SweepFrom(Sweeping(t, 0), batch, s, now, ins).tables;
    if SomePaid(t, batch, s, ins, true) {
      var k :| 0 <= k < |batch| && SeenPaid(t, batch, s, ins, k) && t.intents[batch[k]].kind == Sub;
      assert Unfunded(t', batch[k]);
    }
  }

  /** A sweep always keeps the core, and it leaves every succeeded intent with its receipt exactly when it
      strands no paid subscription. */
  lemma SweepKeepsInvIff(t: Tables, batch: seq<IntentId>, s: Settings, clock: Time, now: Time, ins: seq<SweepInput>)
    requires Core(t, clock) && clock <= now && |ins| == |batch| && SweepBatch(t, batch)
    ensures Core(Sweep(t, batch, s, now, ins), now)
    ensures ReceiptsComplete(t) ==> (ReceiptsComplete(Sweep(t, batch, s, now, ins)) <==> !Strands(t, batch, s, ins))
    ensures Strands(t, batch, s, ins) ==> exists j :: Unfunded(Sweep(t, batch, s, now, ins), j)
  {
    Later(t, clock, now);
    BatchIsOpen(t, batch);
    var w := Sweeping(t, 0);
    hide Core, ReceiptsComplete, SweepFrom, SomePaid, NoActivePlan, OpenRows, SweepBatch, Unfunded;
    SweepKeepsCore(w, batch, s, now, ins);
    if !NoActivePlan(t) || !SomePaid(t, batch, s, ins, true) {
      CleanSweep(w, batch, s, now, ins);
    } else {
      PlanlessStrands(t, batch, s, now, ins);
      var j :| Unfunded(SweepFrom(w, batch, s, now, ins).tables, j);
      UnfundedBreaks(SweepFrom(w, batch, s, now, ins).tables, j);
    }
  }

  /** A subscription marked succeeded, with no payment row and no period granted. */
  predicate Unfunded(t: Tables, j: IntentId) {
    j in t.intents && t.intents[j].kind == Sub && t.intents[j].status == Succeeded && j !in t.subPayments
  }

  lemma UnfundedBreaks(t: Tables, id: IntentId)
    requires Unfunded(t, id)
    ensures !ReceiptsComplete(t)
  {
    assert !HasReceipt(t, id);
  }

  // ---- Every step ----

  /** The step is a sweep that commits a subscription as succeeded without its payment. */
  ghost predicate StrandsSub(t: Tables, e: Event, s: Settings)
    requires Enabled(t, e)
  {
    e.SweepCall? && Strands(t, e.batch, s, e.sweeps)
  }

  /** Every step keeps the core; receipts stay complete except exactly when a sweep strands a subscription. */
  lemma StepKeepsInv(t: Tables, e: Event, s: Settings, clock: Time, now: Time)
    requires Core(t, clock) && clock <= now && Enabled(t, e)
    ensures Core(Step(t, e, s, now), now)
    ensures ReceiptsComplete(t) ==> (ReceiptsComplete(Step(t, e, s, now)) <==> !StrandsSub(t, e, s))
    ensures StrandsSub(t, e, s) ==> exists j :: Unfunded(Step(t, e, s, now), j)
  {
    hide Core, ReceiptsComplete, ReuseOrRefresh, Poll, Authorize, Sweep, Claim, Fulfil, Strands, DeleteContent,
         DeleteSeries, UniquePending, SweepBatch;
    Later(t, clock, now);
    match e
    case Insert(id, d) => InsertKeepsInv(t, id, d, clock, now);
    case FulfilCall(id, bank) => FulfilKeepsInv(t, id, clock, now, bank);
    case Reuse(id, check, a) => ReuseKeepsInv(t, id, check, s, clock, now, a);
    case PollCall(id, a) => PollKeepsInv(t, id, s, clock, now, a);
    case AuthorizeCall(_, _, rows, ps) => AuthorizeKeepsInv(t, rows, s, clock, now, ps);
    case SweepCall(batch, ins) => SweepKeepsInvIff(t, batch, s, clock, now, ins);
    case ClaimCall(g, u) => ClaimKeepsInv(t, g, u, clock, now);
    case ContentDeleted(c) => ContentDeletionKeepsInv(t, c, clock, now);
    case SeriesDeleted(x) => SeriesDeletionKeepsInv(t, x, clock, now);
    case CatalogEdited(cs, ss, ft) => CatalogEditKeepsInv(t, cs, ss, ft, now);
    case PlansEdited(ps) => EditKeepsInv(t, ps, t.contents, t.series, t.freeToday, now);
  }

  lemma CatalogEditKeepsInv(t: Tables, cs: map<ContentId, Content>, ss: set<SeriesId>, ft: set<ContentId>, now: Time)
    requires Core(t, now)
    ensures Keeps(t, t.(contents := cs, series := ss, freeToday := ft), now)
  {
    EditKeepsInv(t, t.plans, cs, ss, ft, now);
    assert t.(plans := t.plans, contents := cs, series := ss, freeToday := ft) ==
      t.(contents := cs, series := ss, freeToday := ft);
  }

  /** Deleting a title takes it and its receipts and detaches its intents, and changes nothing else. */
  lemma ContentGone(t: Tables, c: ContentId)
    ensures Deletion(t, DeleteContent(t, c), {c}, {})
  {
  }

  /** Deleting a series does the same to the series and to each of its episodes. */
  lemma SeriesGone(t: Tables, x: SeriesId)
    ensures Deletion(t, DeleteSeries(t, x), EpisodesOf(t, x), {x})
    ensures EpisodesOf(t, x) == set c | c in t.contents && t.contents[c].seriesId == Some(x)
  {
  }

  lemma ContentDeletionKeepsInv(t: Tables, c: ContentId, clock: Time, now: Time)
    requires Core(t, clock) && clock <= now
    ensures Keeps(t, DeleteContent(t, c), now)
  {
    hide Core, ReceiptsComplete, Deletion;
    ContentGone(t, c);
    DeletionKeepsInv(t, DeleteContent(t, c), {c}, {}, clock, now);
  }

  lemma SeriesDeletionKeepsInv(t: Tables, x: SeriesId, clock: Time, now: Time)
    requires Core(t, clock) && clock <= now
    ensures Keeps(t, DeleteSeries(t, x), now)
  {
    hide Core, ReceiptsComplete, Deletion;
    SeriesGone(t, x);
    DeletionKeepsInv(t, DeleteSeries(t, x), EpisodesOf(t, x), {x}, clock, now);
  }

  lemma EditKeepsInv(t: Tables, plans: seq<Plan>, cs: map<ContentId, Content>, ss: set<SeriesId>, ft: set<ContentId>,
                     now: Time)
    requires Core(t, now) && forall p <- plans :: p.days >= 1
    ensures Keeps(t, t.(plans := plans, contents := cs, series := ss, freeToday := ft), now)
  {
    var t' := t.(plans := plans, contents := cs, series := ss, freeToday := ft);
    SupersededFrame(t, t');
    LedgerFrame(t, t', now, now);
    if ReceiptsComplete(t) {
      forall j | j in t'.intents && t'.intents[j].status == Succeeded
        ensures HasReceipt(t', j)
      {
        assert HasReceipt(t, j);
      }
    }
  }
}
