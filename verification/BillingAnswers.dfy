/**
 What the answers of the payment network do, told from the answers alone: a QR reported paid is settled with its
 receipt, nothing else is, a title already owned is closed, and only an unpaid QR is replaced.
 */
module BillingAnswers {
  import opened Options
  import opened BillingTables
  import opened BillingInvariant
  import opened BillingSteps
  import opened BillingTerms
  import opened BillingRuns
  import opened BillingFulfilment

  /** The answer for the current QR, or if that is unpaid the answer for a different previous one. */
  function Verdict(i: Intent, p: Probes): Answer {
    if p.current == Unpaid && i.prevMd5.Some? && i.prevMd5 != i.md5 then p.previous else p.current
  }

  predicate ReportedPaid(i: Intent, p: Probes) {
    i.md5.Some? && Verdict(i, p) == Paid
  }

  /** Each QR of the intent is answered unpaid. */
  predicate ReportedUnpaid(i: Intent, p: Probes) {
    && (i.md5.Some? ==> p.current == Unpaid)
    && (i.prevMd5.Some? && i.prevMd5 != i.md5 ==> p.previous == Unpaid)
  }

  predicate Stale(i: Intent, s: Settings, now: Time) {
    match i.qrCreatedAt
    case Some(at) => at + s.qrTtl <= now
    case None => i.createdAt + s.qrTtl <= now
  }

  /** The buyer holds a receipt for the title of the intent. */
  predicate HoldsTitle(t: Tables, i: Intent) {
    match i.kind
    case Single => exists j :: j in t.purchases && t.purchases[j].buyer == i.buyer &&
                               i.contentId == Some(t.purchases[j].contentId)
    case Series => exists j :: j in t.seriesPurchases && t.seriesPurchases[j].buyer == i.buyer &&
                               i.seriesId == Some(t.seriesPurchases[j].seriesId)
    case Sub => false
  }

  lemma HoldsIsOwned(t: Tables, i: Intent)
    requires Shaped(i)
    ensures HoldsTitle(t, i) <==> AlreadyOwned(t, i)
  {
  }

  predicate PaidUp(t: Tables, id: IntentId) {
    id in t.intents && t.intents[id].status == Succeeded && HasReceipt(t, id)
  }

  lemma PaidForIsPaid(t: Tables, t': Tables, id: IntentId, now: Time, bank: string)
    requires id in t.intents && PaidFor(t, t', id, now, bank)
    ensures PaidUp(t', id)
    ensures t'.intents.Keys == t.intents.Keys && forall x :: x in t.intents && x != id ==> t'.intents[x] == t.intents[x]
  {
    hide PaysFor;
  }

  /** Asking about one pending intent. */
  lemma SettleAnswers(t: Tables, id: IntentId, s: Settings, now: Time, p: Probes)
    requires ReceiptsSound(t) && id in t.intents && t.intents[id].status == Pending
    ensures var r := SettleIfPaid(t, id, s, now, p);
            if !s.nbc || !ReportedPaid(t.intents[id], p) then r == No
            else if Payable(t, t.intents[id]) then r.Yes? && PaidFor(t, r.tables, id, now, "bakong")
            else r == Failed(Resolve(t, id, Succeeded, Some(now)))
  {
    hide PaidFor, Payable, ReceiptsSound;
    FulfilPays(t, id, now, "bakong");
    if Fulfil(t, id, now, "bakong").Raised? {
      RaisedLeaves(t, id, now, "bakong");
    }
    hide Fulfil, Payable;
  }

  lemma RaisedLeaves(t: Tables, id: IntentId, now: Time, bank: string)
    requires Fulfil(t, id, now, bank).Raised?
    ensures id in t.intents && Fulfil(t, id, now, bank).dirty == Resolve(t, id, Succeeded, Some(now))
  {
    hide ResolvePlan;
  }

  /** The intent is closed without payment, and nothing else changes. */
  predicate Closed(t: Tables, t': Tables, id: IntentId, now: Time)
    requires id in t.intents
  {
    t' == t.(intents := t.intents[id := t.intents[id].(status := Superseded, resolvedAt := Some(now))])
  }

  /** The QR is replaced and the old one remembered, and nothing else changes. */
  predicate QrReplaced(t: Tables, t': Tables, id: IntentId, md5: Md5, now: Time)
    requires id in t.intents
  {
    var i := t.intents[id];
    t' == t.(intents := t.intents[id := i.(prevMd5 := i.md5, md5 := Some(md5), qrCreatedAt := Some(now))])
  }

  /** Reusing a pending intent: a stale one reported paid is settled; else an owned title is closed; else a stale
      QR is replaced, with network checks on only when each QR is answered unpaid; else nothing happens. */
  lemma ReuseAnswers(t: Tables, id: IntentId, s: Settings, now: Time, a: RefreshInput)
    requires ReceiptsSound(t) && id in t.intents && t.intents[id].status == Pending && Shaped(t.intents[id])
    ensures var i := t.intents[id];
            var t' := ReuseOrRefresh(t, id, i.kind != Sub, s, now, a);
            if Stale(i, s, now) && s.nbc && ReportedPaid(i, a.settle) then
              if Payable(t, i) then PaidFor(t, t', id, now, "bakong") else t' == t
            else if HoldsTitle(t, i) then Closed(t, t', id, now)
            else if Stale(i, s, now) && a.khqr.Some? && (s.nbc ==> ReportedUnpaid(i, a.confirm)) then
              QrReplaced(t, t', id, a.khqr.value, now)
            else t' == t
  {
    var i := t.intents[id];
    HoldsIsOwned(t, i);
    SettleAnswers(t, id, s, now, a.settle);
    assert QrIsStale(i, s, now) <==> Stale(i, s, now);
    assert ConfirmedUnpaid(i, s, a.confirm) <==> (s.nbc ==> ReportedUnpaid(i, a.confirm));
    assert i.kind == Sub ==> !HoldsTitle(t, i);
    hide ReceiptsSound, SettleIfPaid, PaidFor, Payable, ReportedPaid, ReportedUnpaid, ConfirmedUnpaid, QrIsStale, Stale,
         HoldsTitle, AlreadyOwned, Shaped;
  }

  /** Polling a pending intent: an owned title is closed; else, unless the breaker blocks, one reported paid is
      settled; else nothing happens. */
  lemma PollAnswers(t: Tables, id: IntentId, s: Settings, now: Time, a: PollInput)
    requires ReceiptsSound(t) && UniquePending(t.intents) && NewestSibling(t, id, a.sibling)
    requires id in t.intents && Shaped(t.intents[id])
    ensures var i := t.intents[id];
            var t' := Poll(t, id, s, now, a);
            if i.status != Pending then t' == t
            else if HoldsTitle(t, i) then Closed(t, t', id, now)
            else if s.nbc && !a.blocked && ReportedPaid(i, a.own) && Payable(t, i) then
              PaidFor(t, t', id, now, "bakong")
            else t' == t
  {
    var i := t.intents[id];
    HoldsIsOwned(t, i);
    if i.status == Pending {
      SettleAnswers(t, id, s, now, a.own);
      if a.sibling.Some? {
        NoSibling(t, id, a.sibling.value);
      }
    }
    hide ReceiptsSound, UniquePending, SettleIfPaid, PaidFor, Payable, HoldsTitle, AlreadyOwned, Shaped, IsSibling;
  }

  /** Row k is the first that is reported paid. */
  predicate FirstPaid(t: Tables, rows: seq<IntentId>, ps: seq<Probes>, k: nat)
    requires |ps| == |rows| && forall id <- rows :: id in t.intents
  {
    && k < |rows| && ReportedPaid(t.intents[rows[k]], ps[k])
    && forall j :: 0 <= j < k ==> !ReportedPaid(t.intents[rows[j]], ps[j])
  }

  /** Playback authorize settles the first row that is reported paid, and only that one. */
  lemma {:induction false} AuthorizeAnswers(t: Tables, rows: seq<IntentId>, s: Settings, now: Time, ps: seq<Probes>)
    requires ReceiptsSound(t) && |ps| == |rows|
    requires forall id <- rows :: id in t.intents && t.intents[id].status == Pending
    ensures var t' := Authorize(t, rows, s, now, ps);
            && (forall k: nat :: s.nbc && FirstPaid(t, rows, ps, k) && Payable(t, t.intents[rows[k]]) ==>
                  PaidFor(t, t', rows[k], now, "bakong"))
            && ((forall k: nat :: !(s.nbc && FirstPaid(t, rows, ps, k) && Payable(t, t.intents[rows[k]]))) ==> t' == t)
    decreases |rows|
  {
    hide ReceiptsSound, SettleIfPaid, PaidFor, Payable, ReportedPaid;
    if rows != [] {
      SettleAnswers(t, rows[0], s, now, ps[0]);
      AuthorizeAnswers(t, rows[1..], s, now, ps[1..]);
      if s.nbc && ReportedPaid(t.intents[rows[0]], ps[0]) {
        assert FirstPaid(t, rows, ps, 0);
      } else if s.nbc {
        forall k: nat
          ensures FirstPaid(t, rows, ps, k + 1) <==> FirstPaid(t, rows[1..], ps[1..], k)
        {
          FirstPaidTail(t, rows, ps, k);
        }
        assert forall k: nat :: FirstPaid(t, rows, ps, k) ==> k > 0 && FirstPaid(t, rows, ps, k - 1 + 1);
      }
      hide FirstPaid;
    }
  }

  lemma FirstPaidTail(t: Tables, rows: seq<IntentId>, ps: seq<Probes>, k: nat)
    requires rows != [] && |ps| == |rows| && (forall id <- rows :: id in t.intents)
    requires !ReportedPaid(t.intents[rows[0]], ps[0])
    ensures FirstPaid(t, rows, ps, k + 1) <==> FirstPaid(t, rows[1..], ps[1..], k)
  {
    hide ReportedPaid;
    var tail, rest := rows[1..], ps[1..];
    assert forall j :: 0 <= j < |tail| ==> tail[j] == rows[j + 1] && rest[j] == ps[j + 1];
    if FirstPaid(t, tail, rest, k) {
      forall j | 0 <= j < k + 1
        ensures !ReportedPaid(t.intents[rows[j]], ps[j])
      {
        if j > 0 {
          assert !ReportedPaid(t.intents[tail[j - 1]], rest[j - 1]);
        }
      }
    }
    if FirstPaid(t, rows, ps, k + 1) {
      forall j | 0 <= j < k
        ensures !ReportedPaid(t.intents[tail[j]], rest[j])
      {
        assert !ReportedPaid(t.intents[rows[j + 1]], ps[j + 1]);
      }
    }
  }

  // ---- The sweep ----

  /** The sweep goes on past this row: nothing blocks, and the network answered or the probe broke. */
  predicate RowPassed(i: Intent, a: SweepInput) {
    !a.blocked && (a.raised || Verdict(i, a.loop) != Unknown)
  }

  /** The sweep gets to row k and twice hears that it is paid. */
  predicate SweepFinds(t: Tables, batch: seq<IntentId>, ins: seq<SweepInput>, k: nat)
    requires |ins| == |batch| && forall id <- batch :: id in t.intents
  {
    && k < |batch|
    && (forall j :: 0 <= j <= k ==> RowPassed(t.intents[batch[j]], ins[j]))
    && !ins[k].raised && Verdict(t.intents[batch[k]], ins[k].loop) == Paid
    && ReportedPaid(t.intents[batch[k]], ins[k].settle)
  }

  lemma FindsIsSeen(t: Tables, batch: seq<IntentId>, s: Settings, ins: seq<SweepInput>, k: nat)
    requires |ins| == |batch| && k < |batch| && forall id <- batch :: id in t.intents
    ensures SeenPaid(t, batch, s, ins, k) <==> s.nbc && SweepFinds(t, batch, ins, k)
  {
    forall j | 0 <= j <= k
      ensures SweepStops(t.intents[batch[j]], ins[j]) <==> !RowPassed(t.intents[batch[j]], ins[j])
    {
    }
    hide SweepStops, RowPassed;
  }

  lemma {:induction false} SettledGrows(w: Sweeping, batch: seq<IntentId>, s: Settings, now: Time,
                                        ins: seq<SweepInput>)
    requires |ins| == |batch| && forall id <- batch :: id in w.tables.intents
    ensures SweepFrom(w, batch, s, now, ins).settled >= w.settled
    decreases |batch|
  {
    if batch != [] && !SweepStops(w.tables.intents[batch[0]], ins[0]) {
      SweepKeepsKeys(w, batch[0], s, now, ins[0]);
      SettledGrows(SweepOne(w, batch[0], s, now, ins[0]), batch[1..], s, now, ins[1..]);
    }
    hide SettleIfPaid;
  }

  /** The row that the sweep is at. */
  lemma HeadAnswers(w: Sweeping, id: IntentId, s: Settings, now: Time, a: SweepInput)
    requires ReceiptsSound(w.tables) && id in w.tables.intents && w.tables.intents[id].status == Pending
    ensures var w' := SweepOne(w, id, s, now, a);
            var seen := SweepSeesPaid(w.tables.intents[id], a) && s.nbc && Md5sPaid(w.tables.intents[id], s, a.settle);
            && id in w'.tables.intents
            && (seen && Payable(w.tables, w.tables.intents[id]) ==> PaidUp(w'.tables, id) && w'.settled > w.settled)
            && (w'.tables.intents[id].status == Succeeded ==> seen)
            && (PaidUp(w'.tables, id) ==> Payable(w.tables, w.tables.intents[id]))
  {
    SettleAnswers(w.tables, id, s, now, a.settle);
    assert s.nbc && Md5sPaid(w.tables.intents[id], s, a.settle) <==>
           s.nbc && ReportedPaid(w.tables.intents[id], a.settle);
    NoReceiptYet(w.tables, id);
    hide SettleIfPaid, Md5sPaid, ReportedPaid, SweepSeesPaid, ReceiptsSound;
    if SettleIfPaid(w.tables, id, s, now, a.settle).Yes? {
      PaidForIsPaid(w.tables, SettleIfPaid(w.tables, id, s, now, a.settle).tables, id, now, "bakong");
    }
    hide PaidFor;
  }

  lemma OpenIsDistinct(t: Tables, batch: seq<IntentId>, k: nat)
    requires OpenRows(t, batch) && k < |batch|
    ensures batch[k] in t.intents && t.intents[batch[k]].status == Pending
    ensures k > 0 ==> batch[k] != batch[0] && batch[1..][k - 1] == batch[k]
    ensures batch[0] !in batch[1..]
  {
  }

  lemma NotPaidUp(t: Tables, id: IntentId)
    requires id in t.intents && t.intents[id].status == Pending
    ensures !PaidUp(t, id)
  {
  }

  lemma SamePayable(t: Tables, t': Tables, i: Intent)
    requires t'.plans == t.plans
    ensures Payable(t, i) <==> Payable(t', i)
  {
  }

  lemma TitlePayable(t: Tables, i: Intent)
    ensures i.kind != Sub ==> Payable(t, i)
  {
  }

  lemma HeadSeen(t: Tables, batch: seq<IntentId>, s: Settings, ins: seq<SweepInput>)
    requires batch != [] && |ins| == |batch| && (forall id <- batch :: id in t.intents)
    requires !SweepStops(t.intents[batch[0]], ins[0])
    ensures SeenPaid(t, batch, s, ins, 0) <==>
            SweepSeesPaid(t.intents[batch[0]], ins[0]) && s.nbc && Md5sPaid(t.intents[batch[0]], s, ins[0].settle)
  {
    hide SweepStops;
  }

  /** The rest of a sweep leaves a row it has passed as it is. */
  lemma TailKeepsHead(w: Sweeping, tail: seq<IntentId>, s: Settings, now: Time, ins: seq<SweepInput>, id: IntentId)
    requires |ins| == |tail| && OpenRows(w.tables, tail) && id in w.tables.intents && id !in tail
    ensures forall x <- tail :: x in w.tables.intents
    ensures var r := SweepFrom(w, tail, s, now, ins).tables;
            && id in r.intents
            && r.intents[id].status == w.tables.intents[id].status
            && (PaidUp(w.tables, id) ==> PaidUp(r, id))
            && (PaidUp(r, id) && w.tables.intents[id].kind == Sub ==> PaidUp(w.tables, id))
  {
    HeadIsOpen(w.tables, tail);
    SweepCarries(w, tail, s, now, ins, id);
    SweepTouchesOnly(w, tail, s, now, ins);
    hide SweepFrom, HasReceipt;
  }

  /** What a whole sweep makes of its row k. */
  lemma {:induction false} RowAnswers(w: Sweeping, batch: seq<IntentId>, s: Settings, now: Time, ins: seq<SweepInput>,
                                      k: nat)
    requires |ins| == |batch| && k < |batch| && Core(w.tables, now) && OpenRows(w.tables, batch)
    ensures var r := SweepFrom(w, batch, s, now, ins);
            var i := w.tables.intents[batch[k]];
            && batch[k] in r.tables.intents
            && (SeenPaid(w.tables, batch, s, ins, k) && Payable(w.tables, i) ==>
                  PaidUp(r.tables, batch[k]) && r.settled > w.settled)
            && (r.tables.intents[batch[k]].status == Succeeded ==> SeenPaid(w.tables, batch, s, ins, k))
            && (PaidUp(r.tables, batch[k]) ==> Payable(w.tables, i))
    decreases |batch|
  {
    HeadIsOpen(w.tables, batch);
    CoreIsSound(w.tables, now);
    OpenIsDistinct(w.tables, batch, k);
    hide Core, ReceiptsSound, SweepOne, SeenPaid, Payable, PaidUp, OpenRows;
    var id := batch[k];
    if SweepStops(w.tables.intents[batch[0]], ins[0]) {
      StoppedSeesNothing(w.tables, batch, s, ins);
      hide SweepStops;
      NotPaidUp(w.tables, id);
    } else {
      HeadAnswers(w, batch[0], s, now, ins[0]);
      var w' := SweepOne(w, batch[0], s, now, ins[0]);
      SweepTail(w, batch, s, now, ins);
      SweepOneKeepsCore(w, batch[0], s, now, ins[0]);
      SweepOneFrame(w, batch[0], s, now, ins[0]);
      if k > 0 {
        RowAnswers(w', batch[1..], s, now, ins[1..], k - 1);
        SamePayable(w.tables, w'.tables, w.tables.intents[id]);
      } else {
        TailKeepsHead(w', batch[1..], s, now, ins[1..], id);
        HeadSeen(w.tables, batch, s, ins);
        TitlePayable(w.tables, w.tables.intents[id]);
      }
      SettledGrows(w', batch[1..], s, now, ins[1..]);
      hide SweepStops;
    }
  }

  // ---- Paid exactly when reported paid ----

  /** An operator marks the intent paid, or the step asks the network about it and hears that it is paid. */
  ghost predicate FoundPaid(t: Tables, e: Event, s: Settings, now: Time, id: IntentId)
    requires Enabled(t, e) && id in t.intents
  {
    var i := t.intents[id];
    match e
    case FulfilCall(x, _) => x == id && i.status != Succeeded
    case Reuse(x, _, a) => x == id && Stale(i, s, now) && s.nbc && ReportedPaid(i, a.settle)
    case PollCall(x, a) =>
      x == id && i.status == Pending && !HoldsTitle(t, i) && s.nbc && !a.blocked && ReportedPaid(i, a.own)
    case AuthorizeCall(_, _, rows, ps) => s.nbc && exists k: nat :: FirstPaid(t, rows, ps, k) && rows[k] == id
    case SweepCall(batch, ins) => s.nbc && exists k: nat :: SweepFinds(t, batch, ins, k) && batch[k] == id
    case _ => false
  }

  /** t' is right about id: paid up exactly when it can be paid for and was found paid, and succeeded only then. */
  ghost predicate AnswersFor(t: Tables, e: Event, t': Tables, s: Settings, now: Time, id: IntentId)
    requires Enabled(t, e) && id in t.intents
  {
    && id in t'.intents
    && (PaidUp(t', id) <==> Payable(t, t.intents[id]) && FoundPaid(t, e, s, now, id))
    && (t'.intents[id].status == Succeeded ==> FoundPaid(t, e, s, now, id))
  }

  lemma FulfilCallAnswers(t: Tables, x: IntentId, bank: string, s: Settings, now: Time, id: IntentId)
    requires ReceiptsSound(t) && id in t.intents && t.intents[id].status != Succeeded
    ensures AnswersFor(t, FulfilCall(x, bank), Committed(t, Fulfil(t, x, now, bank)), s, now, id)
  {
    hide ReceiptsSound, Fulfil, PaidFor, Payable, HasReceipt;
    if x in t.intents && t.intents[x].status != Succeeded {
      FulfilPays(t, x, now, bank);
      if Fulfil(t, x, now, bank).Done? {
        PaidForIsPaid(t, Fulfil(t, x, now, bank).tables, x, now, bank);
      }
    } else {
      FulfilIdle(t, x, now, bank);
    }
  }

  lemma FulfilIdle(t: Tables, x: IntentId, now: Time, bank: string)
    requires x !in t.intents || t.intents[x].status == Succeeded
    ensures Fulfil(t, x, now, bank) == Done(t)
  {
  }

  lemma ReuseCallAnswers(t: Tables, e: Event, s: Settings, now: Time, id: IntentId)
    requires ReceiptsSound(t) && AllShaped(t) && Enabled(t, e) && e.Reuse?
    requires id in t.intents && t.intents[id].status != Succeeded
    ensures AnswersFor(t, e, ReuseOrRefresh(t, e.id, e.checkOwnership, s, now, e.refresh), s, now, id)
  {
    var x := e.id;
    assert Shaped(t.intents[x]);
    ReuseAnswers(t, x, s, now, e.refresh);
    var t' := ReuseOrRefresh(t, x, e.checkOwnership, s, now, e.refresh);
    hide ReceiptsSound, AllShaped, ReuseOrRefresh, PaidFor, Payable, HasReceipt, HoldsTitle, ReportedPaid, Stale,
         ReportedUnpaid;
    if Stale(t.intents[x], s, now) && s.nbc && ReportedPaid(t.intents[x], e.refresh.settle) {
      if Payable(t, t.intents[x]) {
        PaidForIsPaid(t, t', x, now, "bakong");
      }
    } else {
      UnpaidStays(t, t', x, e.refresh, now, id);
      hide Closed, QrReplaced;
    }
  }

  lemma UnpaidStays(t: Tables, t': Tables, x: IntentId, a: RefreshInput, now: Time, id: IntentId)
    requires id in t.intents && t.intents[id].status != Succeeded && x in t.intents
    ensures t' == t || Closed(t, t', x, now) || (a.khqr.Some? && QrReplaced(t, t', x, a.khqr.value, now)) ==>
              id in t'.intents && t'.intents[id].status != Succeeded
  {
    if Closed(t, t', x, now) {
      hide QrReplaced;
      assert t'.intents == t.intents[x := t.intents[x].(status := Superseded, resolvedAt := Some(now))];
    } else if a.khqr.Some? && QrReplaced(t, t', x, a.khqr.value, now) {
      hide Closed;
      var i := t.intents[x];
      assert t'.intents == t.intents[x := i.(prevMd5 := i.md5, md5 := a.khqr, qrCreatedAt := Some(now))];
    }
  }

  lemma PollCallAnswers(t: Tables, e: Event, s: Settings, now: Time, id: IntentId)
    requires ReceiptsSound(t) && UniquePending(t.intents) && AllShaped(t) && Enabled(t, e) && e.PollCall?
    requires id in t.intents && t.intents[id].status != Succeeded
    ensures AnswersFor(t, e, Poll(t, e.id, s, now, e.poll), s, now, id)
  {
    var x, a := e.id, e.poll;
    assert Shaped(t.intents[x]);
    PollAnswers(t, x, s, now, a);
    var t' := Poll(t, x, s, now, a);
    hide ReceiptsSound, UniquePending, AllShaped, Poll, PaidFor, Payable, HasReceipt, HoldsTitle, ReportedPaid,
         NewestSibling;
    if t.intents[x].status == Pending && !HoldsTitle(t, t.intents[x]) && s.nbc && !a.blocked &&
       ReportedPaid(t.intents[x], a.own) && Payable(t, t.intents[x]) {
      PaidForIsPaid(t, t', x, now, "bakong");
    }
  }

  lemma AuthorizeCallAnswers(t: Tables, e: Event, s: Settings, now: Time, id: IntentId)
    requires ReceiptsSound(t) && Enabled(t, e) && e.AuthorizeCall?
    requires id in t.intents && t.intents[id].status != Succeeded
    ensures AnswersFor(t, e, Authorize(t, e.rows, s, now, e.probes), s, now, id)
  {
    var rows, ps := e.rows, e.probes;
    assert forall x <- rows :: IsBuyersPending(t, e.buyer, e.content, x);
    AuthorizeAnswers(t, rows, s, now, ps);
    var t' := Authorize(t, rows, s, now, ps);
    hide ReceiptsSound, Authorize, PaidFor, Payable, HasReceipt, FirstPaid;
    if k: nat :| s.nbc && FirstPaid(t, rows, ps, k) && Payable(t, t.intents[rows[k]]) {
      PaidForIsPaid(t, t', rows[k], now, "bakong");
      forall j: nat | FirstPaid(t, rows, ps, j)
        ensures j == k
      {
        OneFirstPaid(t, rows, ps, j, k);
      }
    }
  }

  lemma OneFirstPaid(t: Tables, rows: seq<IntentId>, ps: seq<Probes>, j: nat, k: nat)
    requires |ps| == |rows| && (forall id <- rows :: id in t.intents)
    requires FirstPaid(t, rows, ps, j) && FirstPaid(t, rows, ps, k)
    ensures j == k
  {
  }

  lemma SweepCallAnswers(t: Tables, e: Event, s: Settings, clock: Time, now: Time, id: IntentId)
    requires Core(t, clock) && clock <= now && Enabled(t, e) && e.SweepCall?
    requires id in t.intents && t.intents[id].status != Succeeded
    ensures AnswersFor(t, e, Sweep(t, e.batch, s, now, e.sweeps), s, now, id)
  {
    var batch, ins := e.batch, e.sweeps;
    Later(t, clock, now);
    CoreIsSound(t, clock);
    BatchIsOpen(t, batch);
    SweepFoundPaid(t, e, s, now, id);
    hide Core, ReceiptsSound, ReceiptsComplete, AllShaped, SweepFrom, Payable, HasReceipt, SeenPaid, FoundPaid,
         OpenRows;
    var w := Sweeping(t, 0);
    if k: nat :| k < |batch| && batch[k] == id {
      RowAnswers(w, batch, s, now, ins, k);
    } else {
      SweepTouchesOnly(w, batch, s, now, ins);
    }
  }

  lemma SweepFoundPaid(t: Tables, e: Event, s: Settings, now: Time, id: IntentId)
    requires Enabled(t, e) && e.SweepCall? && id in t.intents
    ensures FoundPaid(t, e, s, now, id) ==> id in e.batch
    ensures forall k: nat :: k < |e.batch| && e.batch[k] == id ==>
              (FoundPaid(t, e, s, now, id) <==> SeenPaid(t, e.batch, s, e.sweeps, k))
  {
    FindsInBatch(t, e.batch, e.sweeps);
    hide SeenPaid, SweepFinds;
    forall k: nat | k < |e.batch| && e.batch[k] == id
      ensures FoundPaid(t, e, s, now, id) <==> SeenPaid(t, e.batch, s, e.sweeps, k)
    {
      FindsIsSeen(t, e.batch, s, e.sweeps, k);
      assert forall j: nat :: j < |e.batch| && e.batch[j] == id ==> j == k;
    }
  }

  lemma FindsInBatch(t: Tables, batch: seq<IntentId>, ins: seq<SweepInput>)
    requires |ins| == |batch| && forall id <- batch :: id in t.intents
    ensures forall j: nat :: SweepFinds(t, batch, ins, j) ==> j < |batch|
  {
  }

  /** An unpaid intent comes out of a step paid, with its receipt, exactly when it can be paid for and the step
      found it paid; and it is marked succeeded at all only then. */
  lemma PaidIffFoundPaid(t: Tables, e: Event, s: Settings, clock: Time, now: Time, id: IntentId)
    requires Core(t, clock) && clock <= now && Enabled(t, e)
    requires id in t.intents && t.intents[id].status != Succeeded
    ensures AnswersFor(t, e, Step(t, e, s, now), s, now, id)
  {
    CoreIsSound(t, clock);
    CoreIsUnique(t, clock);
    hide Core, ReceiptsSound, AllShaped, UniquePending, Fulfil, ReuseOrRefresh, Poll, Authorize, Sweep, Payable,
         HasReceipt;
    match e
    case FulfilCall(x, bank) =>
      FulfilCallAnswers(t, x, bank, s, now, id);
      hide AnswersFor;
    case Reuse(_, _, _) =>
      ReuseCallAnswers(t, e, s, now, id);
      hide AnswersFor;
    case PollCall(_, _) =>
      PollCallAnswers(t, e, s, now, id);
      hide AnswersFor;
    case AuthorizeCall(_, _, _, _) =>
      AuthorizeCallAnswers(t, e, s, now, id);
      hide AnswersFor;
    case SweepCall(_, _) =>
      SweepCallAnswers(t, e, s, clock, now, id);
      hide AnswersFor;
    case Insert(_, _) =>
      InsertPaysNothing(t, e, s, now, id);
      hide AnswersFor, Step;
    case _ =>
      HousekeepingPaysNothing(t, e, s, now, id);
      hide AnswersFor, Step;
  }

  lemma InsertPaysNothing(t: Tables, e: Event, s: Settings, now: Time, id: IntentId)
    requires Enabled(t, e) && e.Insert? && id in t.intents && t.intents[id].status != Succeeded
    ensures AnswersFor(t, e, Step(t, e, s, now), s, now, id)
  {
    hide UniquePending, HasReceipt;
  }

  lemma HousekeepingPaysNothing(t: Tables, e: Event, s: Settings, now: Time, id: IntentId)
    requires Enabled(t, e) && id in t.intents && t.intents[id].status != Succeeded
    requires e.ClaimCall? || e.ContentDeleted? || e.SeriesDeleted? || e.CatalogEdited? || e.PlansEdited?
    ensures AnswersFor(t, e, Step(t, e, s, now), s, now, id)
  {
    HousekeepingTouchesOnly(t, e, s, now, id);
    hide Step, Enabled, HasReceipt;
  }

  lemma CoreIsUnique(t: Tables, clock: Time)
    requires Core(t, clock)
    ensures UniquePending(t.intents)
  {
  }

  /** Step j of the run pays for intent id. */
  ghost predicate PaidAt(states: seq<Tables>, ticks: seq<Tick>, s: Settings, start: Time, j: nat, id: IntentId)
    requires Run(states, ticks, s, start) && j < |ticks|
  {
    && Transition(states[j], ticks[j], states[j + 1], s, ClockAt(ticks, start, j))
    && id in states[j].intents && states[j].intents[id].status != Succeeded
    && Payable(states[j], states[j].intents[id]) && FoundPaid(states[j], ticks[j].event, s, ticks[j].now, id)
  }

  /** Over any run an unpaid intent is paid, with its receipt, from the step on that first finds it paid while it
      can be paid for, and not before. */
  lemma {:induction false} PaidSinceFoundPaid(states: seq<Tables>, ticks: seq<Tick>, s: Settings, start: Time,
                                              k: nat, n: nat, id: IntentId)
    requires Run(states, ticks, s, start) && Core(states[0], start) && k <= n < |states|
    requires id in states[k].intents && states[k].intents[id].status != Succeeded
    ensures id in states[n].intents && SameTerms(states[k].intents[id], states[n].intents[id])
    ensures PaidUp(states[n], id) <==> exists j :: k <= j < n && PaidAt(states, ticks, s, start, j, id)
    ensures states[n].intents[id].status == Succeeded && states[n].intents[id].kind != Sub ==> PaidUp(states[n], id)
  {
    hide Core, Step, Enabled, FoundPaid, Payable, HasReceipt, ReceiptsSound;
    if k < n {
      PaidSinceFoundPaid(states, ticks, s, start, k, n - 1, id);
      var t, tick := states[n - 1], ticks[n - 1];
      var clock := ClockAt(ticks, start, n - 1);
      assert Transition(t, tick, states[n], s, clock);
      RunKeepsCore(states, ticks, s, start, n - 1);
      CoreIsSound(t, clock);
      StepCarries(t, tick.event, s, tick.now, id);
      if t.intents[id].status != Succeeded {
        PaidIffFoundPaid(t, tick.event, s, clock, tick.now, id);
        TitlePayable(t, t.intents[id]);
        assert PaidAt(states, ticks, s, start, n - 1, id) <==>
          Payable(t, t.intents[id]) && FoundPaid(t, tick.event, s, tick.now, id);
      }
    }
  }
}
