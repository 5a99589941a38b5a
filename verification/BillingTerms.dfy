/**
 What no transaction changes about an intent: its terms, and once it succeeded, its status and its receipt.
 A subscription that a sweep left without a payment stays so: nothing repairs it.
 */
module BillingTerms {
  import opened Options
  import opened BillingTables
  import opened BillingInvariant
  import opened BillingSteps

  /** Same product, price, plan and interval; a deletion may only detach the title. */
  predicate SameTerms(i: Intent, j: Intent) {
    && j.kind == i.kind && j.orderId == i.orderId && j.amount == i.amount && j.createdAt == i.createdAt
    && j.planCode == i.planCode && j.intervalDays == i.intervalDays
    && (j.contentId == i.contentId || j.contentId.None?) && (j.seriesId == i.seriesId || j.seriesId.None?)
  }

  predicate Carried(t: Tables, t': Tables, j: IntentId)
    requires j in t.intents
  {
    && j in t'.intents && SameTerms(t.intents[j], t'.intents[j])
    && (t.intents[j].status == Succeeded ==>
          && t'.intents[j].status == Succeeded
          && (HasReceipt(t, j) ==> HasReceipt(t', j))
          && (t.intents[j].kind == Sub && HasReceipt(t', j) ==> HasReceipt(t, j)))
  }

  lemma CarriedItself(t: Tables, j: IntentId)
    requires j in t.intents
    ensures Carried(t, t, j)
  {
  }

  lemma CarriedOn(a: Tables, b: Tables, c: Tables, j: IntentId)
    requires j in a.intents && Carried(a, b, j) && Carried(b, c, j)
    ensures Carried(a, c, j)
  {
    hide HasReceipt;
  }

  /** Recording a fulfilment removes nothing and adds at most its own receipt. */
  lemma RecordAdds(t: Tables, id: IntentId, now: Time, bank: string)
    requires id in t.intents
    ensures var o := Record(t, id, now, bank);
            var t' := if o.Done? then o.tables else o.dirty;
            && t'.intents == t.intents
            && t.purchases.Keys <= t'.purchases.Keys && t.seriesPurchases.Keys <= t'.seriesPurchases.Keys
            && t.subPayments.Keys <= t'.subPayments.Keys <= t.subPayments.Keys + {id}
  {
    hide ResolvePlan;
  }

  lemma FulfilCarries(t: Tables, id: IntentId, now: Time, bank: string, j: IntentId)
    requires j in t.intents
    ensures var o := Fulfil(t, id, now, bank); Carried(t, if o.Done? then o.tables else o.dirty, j)
  {
    if id in t.intents && t.intents[id].status != Succeeded {
      RecordAdds(Resolve(t, id, Succeeded, Some(now)), id, now, bank);
      hide Record;
    } else {
      CarriedItself(t, j);
      hide Carried;
    }
  }

  lemma SettleCarries(t: Tables, id: IntentId, s: Settings, now: Time, p: Probes, j: IntentId)
    requires j in t.intents && id in t.intents
    ensures match SettleIfPaid(t, id, s, now, p)
            case Yes(x) => Carried(t, x, j)
            case Failed(x) => Carried(t, x, j)
            case No => true
  {
    FulfilCarries(t, id, now, "bakong", j);
    CarriedItself(t, j);
    hide Fulfil, Carried;
  }

  lemma SupersedeCarries(t: Tables, id: IntentId, at: Option<Time>, j: IntentId)
    requires j in t.intents && id in t.intents && t.intents[id].status != Succeeded
    ensures Carried(t, Resolve(t, id, Superseded, at), j)
  {
  }

  lemma RegenerateCarries(t: Tables, id: IntentId, md5: Md5, now: Time, j: IntentId)
    requires j in t.intents && id in t.intents
    ensures Carried(t, Regenerate(t, id, md5, now), j)
  {
  }

  lemma ReuseCarries(t: Tables, id: IntentId, check: bool, s: Settings, now: Time, a: RefreshInput, j: IntentId)
    requires j in t.intents && id in t.intents && t.intents[id].status == Pending
    ensures Carried(t, ReuseOrRefresh(t, id, check, s, now, a), j)
  {
    SettleCarries(t, id, s, now, a.settle, j);
    SupersedeCarries(t, id, Some(now), j);
    CarriedItself(t, j);
    if a.khqr.Some? {
      RegenerateCarries(t, id, a.khqr.value, now, j);
    }
    hide SettleIfPaid, Carried, Regenerate, Resolve;
  }

  lemma PollCarries(t: Tables, id: IntentId, s: Settings, now: Time, a: PollInput, j: IntentId)
    requires j in t.intents && id in t.intents && NewestSibling(t, id, a.sibling)
    ensures Carried(t, Poll(t, id, s, now, a), j)
  {
    hide SettleIfPaid, Carried, SettleSibling;
    CarriedItself(t, j);
    SettleCarries(t, id, s, now, a.own, j);
    if t.intents[id].status == Pending {
      SupersedeCarries(t, id, Some(now), j);
      if a.sibling.Some? {
        SiblingCarries(t, id, a.sibling.value, s, now, a.siblingProbes, j);
      }
    }
  }

  lemma SiblingCarries(t: Tables, id: IntentId, other: IntentId, s: Settings, now: Time, p: Probes, j: IntentId)
    requires j in t.intents && IsSibling(t, id, other) && t.intents[id].status == Pending
    ensures Carried(t, SettleSibling(t, id, other, s, now, p), j)
  {
    hide Carried;
    CarriedItself(t, j);
    SettleCarries(t, other, s, now, p, j);
    FulfilChangesOnly(t, other, now, "bakong", id);
    hide Fulfil;
    if SettleIfPaid(t, other, s, now, p).Yes? {
      var t' := SettleIfPaid(t, other, s, now, p).tables;
      CarriedStays(t, t', j);
      SupersedeCarries(t', id, t'.intents[other].resolvedAt, j);
      CarriedOn(t, t', Resolve(t', id, Superseded, t'.intents[other].resolvedAt), j);
    }
  }

  lemma CarriedStays(t: Tables, t': Tables, j: IntentId)
    requires j in t.intents && Carried(t, t', j)
    ensures j in t'.intents
  {
  }

  lemma FulfilChangesOnly(t: Tables, id: IntentId, now: Time, bank: string, x: IntentId)
    requires x in t.intents && x != id && Fulfil(t, id, now, bank).Done?
    ensures Fulfil(t, id, now, bank).tables.intents[x] == t.intents[x]
  {
    hide Record;
  }

  lemma {:induction false} AuthorizeCarries(t: Tables, rows: seq<IntentId>, s: Settings, now: Time, ps: seq<Probes>,
                                            j: IntentId)
    requires j in t.intents && |ps| == |rows| && forall id <- rows :: id in t.intents
    ensures Carried(t, Authorize(t, rows, s, now, ps), j)
    decreases |rows|
  {
    hide SettleIfPaid, Carried;
    CarriedItself(t, j);
    if rows != [] {
      SettleCarries(t, rows[0], s, now, ps[0], j);
      AuthorizeCarries(t, rows[1..], s, now, ps[1..], j);
    }
  }

  lemma {:induction false} SweepCarries(w: Sweeping, batch: seq<IntentId>, s: Settings, now: Time, ins: seq<SweepInput>,
                                        j: IntentId)
    requires j in w.tables.intents && |ins| == |batch| && forall id <- batch :: id in w.tables.intents
    ensures Carried(w.tables, SweepFrom(w, batch, s, now, ins).tables, j)
    decreases |batch|
  {
    hide SettleIfPaid, Carried;
    CarriedItself(w.tables, j);
    if batch != [] && !SweepStops(w.tables.intents[batch[0]], ins[0]) {
      SettleCarries(w.tables, batch[0], s, now, ins[0].settle, j);
      SweepKeepsKeys(w, batch[0], s, now, ins[0]);
      var w' := SweepOne(w, batch[0], s, now, ins[0]);
      SweepCarries(w', batch[1..], s, now, ins[1..], j);
      CarriedOn(w.tables, w'.tables, SweepFrom(w', batch[1..], s, now, ins[1..]).tables, j);
    }
  }

  lemma ClaimCarries(t: Tables, g: GuestId, u: UserId, j: IntentId)
    requires j in t.intents
    ensures Carried(t, Claim(t, g, u), j)
  {
    hide UniquePending;
  }

  lemma DeletionCarries(t: Tables, t': Tables, movies: set<ContentId>, gone: set<SeriesId>, j: IntentId)
    requires Deletion(t, t', movies, gone) && j in t.intents && ReceiptsSound(t)
    ensures Carried(t, t', j)
  {
    ReceiptNamesTitle(t, j);
    hide ReceiptsSound;
  }

  lemma ReceiptNamesTitle(t: Tables, j: IntentId)
    requires ReceiptsSound(t) && j in t.intents
    ensures j in t.purchases ==> t.intents[j].contentId == Some(t.purchases[j].contentId)
    ensures j in t.seriesPurchases ==> t.intents[j].seriesId == Some(t.seriesPurchases[j].seriesId)
  {
    if j in t.purchases {
      assert PurchaseMatches(t.intents[j], t.purchases[j]);
    }
    if j in t.seriesPurchases {
      assert UnlockMatches(t.intents[j], t.seriesPurchases[j]);
    }
  }

  lemma EditCarries(t: Tables, e: Event, s: Settings, now: Time, j: IntentId)
    requires Enabled(t, e) && (e.Insert? || e.CatalogEdited? || e.PlansEdited?) && j in t.intents
    ensures Carried(t, Step(t, e, s, now), j)
  {
    hide UniquePending;
  }

  /** Whatever happens, an intent keeps its terms, and a succeeded one its status and its receipt; and a succeeded
      subscription without payment never gets one. */
  lemma StepCarries(t: Tables, e: Event, s: Settings, now: Time, j: IntentId)
    requires ReceiptsSound(t) && Enabled(t, e) && j in t.intents
    ensures Carried(t, Step(t, e, s, now), j)
  {
    hide Carried, Fulfil, ReuseOrRefresh, Poll, Authorize, SweepFrom, UniquePending, Claim, DeleteContent, DeleteSeries,
         ReceiptsSound, Deletion;
    CarriedItself(t, j);
    match e
    case FulfilCall(id, bank) => FulfilCarries(t, id, now, bank, j);
    case Reuse(id, check, a) => ReuseCarries(t, id, check, s, now, a, j);
    case PollCall(id, a) => PollCarries(t, id, s, now, a, j);
    case AuthorizeCall(_, _, rows, ps) => AuthorizeCarries(t, rows, s, now, ps, j);
    case SweepCall(batch, ins) => SweepCarries(Sweeping(t, 0), batch, s, now, ins, j);
    case ClaimCall(g, u) => ClaimCarries(t, g, u, j);
    case ContentDeleted(c) =>
      ContentGone(t, c);
      DeletionCarries(t, DeleteContent(t, c), {c}, {}, j);
    case SeriesDeleted(x) =>
      SeriesGone(t, x);
      DeletionCarries(t, DeleteSeries(t, x), EpisodesOf(t, x), {x}, j);
    case _ => EditCarries(t, e, s, now, j);
  }

  lemma StepLeavesUnfunded(t: Tables, e: Event, s: Settings, now: Time, j: IntentId)
    requires ReceiptsSound(t) && Enabled(t, e) && Unfunded(t, j)
    ensures Unfunded(Step(t, e, s, now), j)
  {
    hide ReceiptsSound, Step;
    StepCarries(t, e, s, now, j);
  }
}
