/**
 The billing requests as the service runs them: field by field on the tables of one database
 session, with a rollback when an exception leaves the request.
 */
module BillingService {
  import opened Options
  import opened BillingTables

  class BillingDb {
    var intents: map<IntentId, Intent>
    var purchases: map<IntentId, Purchase>
    var seriesPurchases: map<IntentId, SeriesPurchase>
    var subscriptions: map<UserId, Subscription>
    var subPayments: map<IntentId, SubPayment>
    var plans: seq<Plan>
    var contents: map<ContentId, Content>
    var series: set<SeriesId>
    var freeToday: set<ContentId>
    var grants: map<UserId, seq<Grant>>   // the ledger of granted periods, kept for the proofs only

    function State(): Tables
      reads this
    {
      Tables(intents, purchases, seriesPurchases, subscriptions, subPayments, plans, contents, series, freeToday,
             grants)
    }

    /** An empty database. */
    constructor ()
      ensures State() == Tables(map[], map[], map[], map[], map[], [], map[], {}, {}, map[])
    {
      intents, purchases, seriesPurchases := map[], map[], map[];
      subscriptions, subPayments, plans := map[], map[], [];
      contents, series, freeToday, grants := map[], {}, {}, map[];
    }

    /** Mark the intent succeeded and write its receipt; `raised` leaves the session dirty. */
    method FulfillPaymentIntent(id: IntentId, now: Time, bank: string) returns (raised: bool)
      modifies this
      ensures raised <==> Fulfil(old(State()), id, now, bank).Raised?
      ensures State() == match Fulfil(old(State()), id, now, bank) case Done(t) => t case Raised(dirty) => dirty
    {
      raised := false;
      if id !in intents || intents[id].status == Succeeded {
        return;
      }
      intents := intents[id := intents[id].(status := Succeeded, resolvedAt := Some(now))];
      var intent := intents[id];
      if intent.kind == Single && intent.contentId.Some? {
        if id in purchases {
          return;
        }
        purchases := purchases[id :=
          Purchase(intent.buyer, intent.contentId.value, intent.orderId, bank, intent.amount)];
        return;
      }
      if intent.kind == Series && intent.seriesId.Some? {
        if id in seriesPurchases {
          return;
        }
        seriesPurchases := seriesPurchases[id :=
          SeriesPurchase(intent.buyer, intent.seriesId.value, intent.orderId, bank, intent.amount)];
        return;
      }
      if intent.kind != Sub || id in subPayments {
        return;
      }
      raised := ExtendSubscription(id, now, bank);
    }

    /** The subscription branch: one row per user, extended from its end or restarted now. */
    method ExtendSubscription(id: IntentId, now: Time, bank: string) returns (raised: bool)
      requires id in intents && id !in subPayments
      modifies this
      ensures raised <==> RecordPayment(old(State()), id, now, bank).Raised?
      ensures State() == match RecordPayment(old(State()), id, now, bank) case Done(t) => t case Raised(dirty) => dirty
    {
      var intent := intents[id];
      var plan := ResolvePlan(plans, intent);
      if plan.None? || intent.buyer.Guest? {
        return true;
      }
      raised := false;
      var userId := intent.buyer.userId;
      var days := BillingIntervalDays(intent, plan.value);
      var periodStart := now;
      if userId in subscriptions && subscriptions[userId].end > now {
        periodStart := subscriptions[userId].end;
      }
      var periodEnd := periodStart + days * SECONDS_PER_DAY;
      if userId !in subscriptions {
        subscriptions := subscriptions[userId := Subscription(plan.value.code, true, now, periodEnd)];
      } else {
        var row := subscriptions[userId];
        row := row.(active := true, plan := plan.value.code);
        if row.end <= now {
          row := row.(start := now);
        }
        row := row.(end := periodEnd);
        subscriptions := subscriptions[userId := row];
      }
      subPayments := subPayments[id := SubPayment(userId, intent.orderId, bank, intent.amount, periodEnd)];
      grants := grants[userId := (if userId in grants then grants[userId] else []) +
                       [Grant(id, periodStart, periodEnd)]];
      hide ResolvePlan;
    }

    /** Close a pending intent whose title the buyer already owns; not a payment. */
    method MarkSupersededIfOwned(id: IntentId, now: Time) returns (closed: bool)
      requires id in intents
      modifies this`intents
      ensures closed <==> AlreadyOwned(old(State()), old(intents[id]))
      ensures State() == if closed then Resolve(old(State()), id, Superseded, Some(now)) else old(State())
    {
      var intent := intents[id];
      if intent.kind == Series && intent.seriesId.Some? {
        closed := exists j :: j in seriesPurchases && seriesPurchases[j].buyer == intent.buyer
                              && seriesPurchases[j].seriesId == intent.seriesId.value;
      } else {
        closed := intent.contentId.Some? &&
          exists j :: j in purchases && purchases[j].buyer == intent.buyer
                      && purchases[j].contentId == intent.contentId.value;
      }
      if closed {
        intents := intents[id := intent.(status := Superseded, resolvedAt := Some(now))];
      }
    }

    method SettleBakongIntentIfPaid(id: IntentId, s: Settings, now: Time, p: Probes)
      returns (settled: bool, raised: bool)
      requires id in intents
      modifies this
      ensures var r := SettleIfPaid(old(State()), id, s, now, p);
              && (settled <==> r.Yes?) && (raised <==> r.Failed?)
              && State() == match r case Yes(t) => t case Failed(dirty) => dirty case No => old(State())
    {
      settled, raised := false, false;
      var intent := intents[id];
      if intent.status == Succeeded {
        return true, false;
      }
      if intent.status != Pending || !s.nbc || !Md5sPaid(intent, s, p) {
        return;
      }
      raised := FulfillPaymentIntent(id, now, "bakong");
      settled := !raised;
    }

    /** Keep the current md5 as the previous one and issue a fresh QR. */
    method RegenerateQr(id: IntentId, md5: Md5, now: Time)
      requires id in intents
      modifies this`intents
      ensures State() == Regenerate(old(State()), id, md5, now)
    {
      var intent := intents[id];
      intent := intent.(prevMd5 := intent.md5);
      intent := intent.(md5 := Some(md5));
      intent := intent.(qrCreatedAt := Some(now));
      intents := intents[id := intent];
    }

    /** Reuse a fresh pending QR; settle, close or reissue a stale one. */
    method ReuseOrRefreshPending(id: IntentId, checkOwnership: bool, s: Settings, now: Time, a: RefreshInput)
      requires id in intents
      modifies this
      ensures State() == ReuseOrRefresh(old(State()), id, checkOwnership, s, now, a)
    {
      hide SettleIfPaid, Md5sPaid;
      if !QrIsStale(intents[id], s, now) {
        if checkOwnership {
          var _ := MarkSupersededIfOwned(id, now);
        }
        return;
      }
      var saved := State();
      var settled, raised := SettleBakongIntentIfPaid(id, s, now, a.settle);
      if raised {
        Rollback(saved);
        return;
      }
      if settled {
        return;
      }
      if checkOwnership {
        var closed := MarkSupersededIfOwned(id, now);
        if closed {
          return;
        }
      }
      if ConfirmedUnpaid(intents[id], s, a.confirm) && a.khqr.Some? {
        RegenerateQr(id, a.khqr.value, now);
      }
    }

    /** The client's poll. */
    method SettlePendingIntentOnPoll(id: IntentId, s: Settings, now: Time, a: PollInput)
      requires id in intents && NewestSibling(State(), id, a.sibling)
      modifies this
      ensures State() == Poll(old(State()), id, s, now, a)
    {
      if a.sibling.Some? {
        assert IsSibling(State(), id, a.sibling.value);
      }
      hide SettleIfPaid, Md5sPaid, NewestSibling;
      if intents[id].status != Pending {
        return;
      }
      var closed := MarkSupersededIfOwned(id, now);
      if closed || !s.nbc || intents[id].md5.None? || a.blocked {
        return;
      }
      var saved := State();
      var settled, raised := SettleBakongIntentIfPaid(id, s, now, a.own);
      if raised {
        Rollback(saved);
      } else if !settled && intents[id].contentId.Some? && a.sibling.Some? {
        PollSibling(id, a.sibling.value, s, now, a.siblingProbes);
      }
    }

    method PollSibling(id: IntentId, sibling: IntentId, s: Settings, now: Time, p: Probes)
      requires id in intents && sibling in intents
      modifies this
      ensures State() == SettleSibling(old(State()), id, sibling, s, now, p)
    {
      var saved := State();
      var settled, raised := SettleBakongIntentIfPaid(sibling, s, now, p);
      if raised {
        Rollback(saved);
      } else if settled {
        intents := intents[id := intents[id].(status := Superseded, resolvedAt := intents[sibling].resolvedAt)];
      }
      hide SettleIfPaid;
    }

    /** Playback authorize: settle the first paid of the buyer's two newest pending intents for the movie.
        `rows` is what the query for them returns. */
    method SettlePendingMovieForBuyer(buyer: Option<Buyer>, movie: ContentId, blocked: bool, rows: seq<IntentId>,
                                      s: Settings, now: Time, ps: seq<Probes>)
      returns (settledAny: bool)
      requires |ps| == |rows| && (buyer.Some? ==> NewestPending(State(), buyer.value, movie, rows))
      modifies this
      ensures State() == if s.nbc && buyer.Some? && !blocked then Authorize(old(State()), rows, s, now, ps)
                         else old(State())
      ensures !settledAny ==> State() == old(State())
    {
      if !s.nbc || buyer.None? || blocked {
        return false;
      }
      assert forall id <- rows :: IsBuyersPending(State(), buyer.value, movie, id);
      hide NewestPending, Authorize;
      settledAny := SettleFirstPaid(rows, s, now, ps);
    }

    method SettleFirstPaid(rows: seq<IntentId>, s: Settings, now: Time, ps: seq<Probes>) returns (settledAny: bool)
      requires |ps| == |rows| && forall id <- rows :: id in intents
      modifies this
      ensures State() == Authorize(old(State()), rows, s, now, ps)
      ensures !settledAny ==> State() == old(State())
    {
      settledAny := false;
      ghost var t0 := State();
      var k := 0;
      while k < |rows| && !settledAny
        invariant 0 <= k <= |rows|
        invariant !settledAny ==>
          State() == t0 && Authorize(t0, rows, s, now, ps) == Authorize(t0, rows[k..], s, now, ps[k..])
        invariant settledAny ==> State() == Authorize(t0, rows, s, now, ps)
      {
        hide SettleIfPaid;
        assert rows[k..][1..] == rows[k + 1..] && ps[k..][1..] == ps[k + 1..];
        var saved := State();
        var settled, raised := SettleBakongIntentIfPaid(rows[k], s, now, ps[k]);
        if raised {
          Rollback(saved);
          return;
        }
        settledAny := settled;
        k := k + 1;
      }
    }

    /** One sweep over a batch of recent pending intents; commits only when something settled. */
    method SweepPendingBakongIntents(batch: seq<IntentId>, s: Settings, now: Time, ins: seq<SweepInput>)
      returns (settled: nat)
      requires |ins| == |batch| && forall id <- batch :: id in intents
      modifies this
      ensures State() == Sweep(old(State()), batch, s, now, ins)
      ensures settled == SweepFrom(Sweeping(old(State()), 0), batch, s, now, ins).settled
    {
      settled := 0;
      var saved := State();
      ghost var w0 := Sweeping(State(), 0);
      var k, stopped := 0, false;
      while k < |batch| && !stopped
        invariant 0 <= k <= |batch|
        invariant intents.Keys == old(intents.Keys)
        invariant !stopped ==>
                    SweepFrom(w0, batch, s, now, ins) ==
                      SweepFrom(Sweeping(State(), settled), batch[k..], s, now, ins[k..])
        invariant stopped ==> SweepFrom(w0, batch, s, now, ins) == Sweeping(State(), settled)
        decreases |batch| - k, !stopped
      {
        hide SettleIfPaid;
        assert batch[k..][1..] == batch[k + 1..] && ins[k..][1..] == ins[k + 1..];
        ghost var w := Sweeping(State(), settled);
        SweepKeepsKeys(w, batch[k], s, now, ins[k]);
        var intent := intents[batch[k]];
        if SweepStops(intent, ins[k]) {
          stopped := true;
        } else {
          if SweepSeesPaid(intent, ins[k]) {
            // An exception here is only logged: the half-done fulfilment stays in the session.
            var paid, _ := SettleBakongIntentIfPaid(batch[k], s, now, ins[k].settle);
            if paid {
              settled := settled + 1;
            }
          }
          assert Sweeping(State(), settled) == SweepOne(w, batch[k], s, now, ins[k]);
          k := k + 1;
        }
      }
      if settled == 0 {
        Rollback(saved);
      }
    }

    /** Move a guest's receipts and intents to an account; refused as a whole when the account
        already has a pending checkout for one of the titles. */
    method ClaimGuestPurchases(u: UserId, g: GuestId) returns (refused: bool)
      modifies this
      ensures State() == Claim(old(State()), g, u)
      ensures refused <==> !UniquePending(Claimed(old(State()), g, u).intents)
    {
      hide UniquePending, Claimed;
      var saved := State();
      ReassignReceipts(u, g);
      refused := !UniquePending(intents);
      if refused {
        Rollback(saved);
      }
    }

    /** The three bulk updates of a claim. */
    method ReassignReceipts(u: UserId, g: GuestId)
      modifies this`purchases, this`seriesPurchases, this`intents
      ensures State() == Claimed(old(State()), g, u)
    {
      purchases := map j | j in purchases ::
        purchases[j].(buyer := Renamed(purchases[j].buyer, g, u));
      seriesPurchases := map j | j in seriesPurchases ::
        seriesPurchases[j].(buyer := Renamed(seriesPurchases[j].buyer, g, u));
      intents := map j | j in intents ::
        intents[j].(buyer := Renamed(intents[j].buyer, g, u));
      ghost var claimed := Claimed(old(State()), g, u);
      assert purchases == claimed.purchases;
      assert seriesPurchases == claimed.seriesPurchases;
      assert intents == claimed.intents;
    }

    /** Add a pending intent; the database refuses it when a reference or the unique index does not allow it. */
    method CommitNewIntent(id: IntentId, draft: Intent) returns (conflict: bool)
      modifies this`intents
      ensures conflict <==> !InsertAccepted(old(State()), id, draft)
      ensures State() == if conflict then old(State()) else old(State()).(intents := old(intents)[id := draft])
    {
      conflict := !InsertAccepted(State(), id, draft);
      if !conflict {
        intents := intents[id := draft];
      }
    }

    // ---- Transactions ----

    method Rollback(saved: Tables)
      modifies this
      ensures State() == saved
    {
      intents, purchases, seriesPurchases := saved.intents, saved.purchases, saved.seriesPurchases;
      subscriptions, subPayments, plans := saved.subscriptions, saved.subPayments, saved.plans;
      contents, series, freeToday, grants := saved.contents, saved.series, saved.freeToday, saved.grants;
    }
  }
}
