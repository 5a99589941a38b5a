/**
 What every billing step keeps: receipts agree with intents, superseded intents are
 owned through another receipt, pending intents are unique per buyer and product, and
 the one-row subscription summary agrees with the ledger of granted periods.
 */
module BillingInvariant {
  import opened Options
  import opened BillingTables

  /** A receipt belongs to a succeeded intent of its own kind and repeats its buyer, title and amount. */
  ghost predicate ReceiptsSound(t: Tables) {
    && (forall j :: j in t.purchases ==> j in t.intents && PurchaseMatches(t.intents[j], t.purchases[j]))
    && (forall j :: j in t.seriesPurchases ==> j in t.intents && UnlockMatches(t.intents[j], t.seriesPurchases[j]))
    && (forall j :: j in t.subPayments ==> j in t.intents && PaymentMatches(t.intents[j], t.subPayments[j]))
  }

  predicate PurchaseMatches(i: Intent, p: Purchase) {
    i.status == Succeeded && i.kind == Single && i.contentId == Some(p.contentId) && i.buyer == p.buyer &&
    i.orderId == p.orderId && i.amount == p.amount
  }

  predicate UnlockMatches(i: Intent, p: SeriesPurchase) {
    i.status == Succeeded && i.kind == Series && i.seriesId == Some(p.seriesId) && i.buyer == p.buyer &&
    i.orderId == p.orderId && i.amount == p.amount
  }

  predicate PaymentMatches(i: Intent, p: SubPayment) {
    i.status == Succeeded && i.kind == Sub && i.buyer == User(p.userId) && i.orderId == p.orderId &&
      i.amount == p.amount
  }

  /** Every succeeded intent whose target is still there has its receipt. */
  ghost predicate ReceiptsComplete(t: Tables) {
    forall j :: j in t.intents && t.intents[j].status == Succeeded ==> HasReceipt(t, j)
  }

  predicate HasReceipt(t: Tables, j: IntentId)
    requires j in t.intents
  {
    match t.intents[j].kind
    case Single => t.intents[j].contentId.Some? ==> j in t.purchases
    case Series => t.intents[j].seriesId.Some? ==> j in t.seriesPurchases
    case Sub => j in t.subPayments
  }

  /** A superseded intent's buyer holds a receipt for that title, from another intent. */
  ghost predicate SupersededOwned(t: Tables) {
    forall j :: j in t.intents && t.intents[j].status == Superseded ==> OwnedElsewhere(t, j)
  }

  ghost predicate OwnedElsewhere(t: Tables, j: IntentId)
    requires j in t.intents
  {
    var i := t.intents[j];
    match i.kind
    case Single => i.contentId.Some? ==>
      exists o :: o in t.purchases && o != j && t.purchases[o].buyer == i.buyer &&
        t.purchases[o].contentId == i.contentId.value
    case Series => i.seriesId.Some? ==>
      exists o :: o in t.seriesPurchases && o != j && t.seriesPurchases[o].buyer == i.buyer &&
        t.seriesPurchases[o].seriesId == i.seriesId.value
    case Sub => false
  }

  predicate Shaped(i: Intent) {
    && (i.kind != Single ==> i.contentId.None?)
    && (i.kind != Series ==> i.seriesId.None?)
    && (i.kind == Sub ==> i.buyer.User? && i.planCode.Some? && i.intervalDays.Some? && i.intervalDays.value > 0)
    && (i.status == Pending <==> i.resolvedAt.None?)
  }

  ghost predicate AllShaped(t: Tables) {
    && (forall j :: j in t.intents ==> Shaped(t.intents[j]))
    && (forall p <- t.plans :: p.days >= 1)
  }

  // ---- The subscription ledger ----

  ghost predicate Covered(gs: seq<Grant>, at: Time) {
    exists k :: 0 <= k < |gs| && gs[k].start <= at < gs[k].end
  }

  ghost predicate Disjoint(gs: seq<Grant>) {
    && (forall k :: 0 <= k < |gs| ==> gs[k].start < gs[k].end)
    && (forall j, k :: 0 <= j < k < |gs| ==> gs[j].end <= gs[k].start)
  }

  /** The row's current period is one unbroken stretch of granted time ending at the last grant. */
  ghost predicate RowSummarises(row: Subscription, gs: seq<Grant>, clock: Time) {
    && gs != []
    && row.active
    && row.end == gs[|gs| - 1].end
    && row.start <= clock
    && forall at :: row.start <= at < row.end ==> Covered(gs, at)
  }

  /** Grants of u are exactly u's payments: one each, ending where the receipt says,
      as long as the interval the buyer was shown. */
  ghost predicate GrantsMatch(t: Tables, u: UserId) {
    var gs := GrantsOf(t, u);
    && (forall k :: 0 <= k < |gs| ==> gs[k].intentId in t.subPayments && GrantMatches(t, u, gs[k]))
    && (forall j, k :: 0 <= j < k < |gs| ==> gs[j].intentId != gs[k].intentId)
    && (forall j :: j in t.subPayments && t.subPayments[j].userId == u ==>
          exists k :: 0 <= k < |gs| && gs[k].intentId == j)
  }

  predicate GrantMatches(t: Tables, u: UserId, g: Grant)
    requires g.intentId in t.subPayments
  {
    && t.subPayments[g.intentId].userId == u
    && t.subPayments[g.intentId].extendedTo == g.end
    && g.intentId in t.intents
    && t.intents[g.intentId].intervalDays == Some((g.end - g.start) / SECONDS_PER_DAY)
    && (g.end - g.start) % SECONDS_PER_DAY == 0
  }

  ghost predicate LedgerOf(t: Tables, u: UserId, clock: Time) {
    && (u in t.subscriptions <==> GrantsOf(t, u) != [])
    && Disjoint(GrantsOf(t, u))
    && (u in t.subscriptions ==> RowSummarises(t.subscriptions[u], GrantsOf(t, u), clock))
    && GrantsMatch(t, u)
  }

  ghost predicate Ledger(t: Tables, clock: Time) {
    forall u: UserId :: LedgerOf(t, u, clock)
  }

  /** What every step keeps, without exception. */
  ghost predicate Core(t: Tables, clock: Time) {
    && ReceiptsSound(t)
    && SupersededOwned(t)
    && UniquePending(t.intents)
    && AllShaped(t)
    && Ledger(t, clock)
  }

  ghost predicate Inv(t: Tables, clock: Time) {
    Core(t, clock) && ReceiptsComplete(t)
  }

  /** The core stands in t', and no succeeded intent lost its receipt on the way from t. */
  ghost predicate Keeps(t: Tables, t': Tables, now: Time) {
    Core(t', now) && (ReceiptsComplete(t) ==> ReceiptsComplete(t'))
  }

  // ---- Fulfilment keeps the invariant ----

  lemma LedgerFrame(t: Tables, t': Tables, clock: Time, clock': Time)
    requires Ledger(t, clock) && clock <= clock'
    requires t'.subscriptions == t.subscriptions && t'.subPayments == t.subPayments && t'.grants == t.grants
    requires forall j :: j in t.subPayments && j in t.intents ==>
               j in t'.intents && t'.intents[j].intervalDays == t.intents[j].intervalDays
    ensures Ledger(t', clock')
  {
    forall u: UserId
      ensures LedgerOf(t', u, clock')
    {
      assert LedgerOf(t, u, clock);
      var gs := GrantsOf(t, u);
      forall k | 0 <= k < |gs|
        ensures gs[k].intentId in t'.subPayments && GrantMatches(t', u, gs[k])
      {
        assert GrantMatches(t, u, gs[k]);
      }
    }
  }

  /** Resolving one pending intent keeps pending entries unique. */
  lemma ResolveKeepsUnique(t: Tables, id: IntentId, status: Status, at: Option<Time>)
    requires id in t.intents && status != Pending
    requires UniquePending(t.intents)
    ensures UniquePending(Resolve(t, id, status, at).intents)
  {
    var t' := Resolve(t, id, status, at);
    forall j, k
      ensures !Clash(t'.intents, j, k)
    {
      assert !Clash(t.intents, j, k);
    }
  }

  /** Receipts are never lost and no intent is newly superseded. */
  lemma SupersededFrame(t: Tables, t': Tables)
    requires SupersededOwned(t)
    requires forall o :: o in t.purchases ==> o in t'.purchases && t'.purchases[o] == t.purchases[o]
    requires forall o :: o in t.seriesPurchases ==>
               o in t'.seriesPurchases && t'.seriesPurchases[o] == t.seriesPurchases[o]
    requires forall j :: j in t'.intents && t'.intents[j].status == Superseded ==>
               j in t.intents && t.intents[j] == t'.intents[j]
    ensures SupersededOwned(t')
  {
    forall j | j in t'.intents && t'.intents[j].status == Superseded
      ensures OwnedElsewhere(t', j)
    {
      assert OwnedElsewhere(t, j);
    }
  }

  lemma SupersedeOwned(t: Tables, id: IntentId, at: Time)
    requires SupersededOwned(t) && ReceiptsSound(t) && AllShaped(t)
    requires id in t.intents && t.intents[id].status == Pending && AlreadyOwned(t, t.intents[id])
    ensures SupersededOwned(Resolve(t, id, Superseded, Some(at)))
  {
    var t' := Resolve(t, id, Superseded, Some(at));
    assert Shaped(t.intents[id]);
    forall j | j in t'.intents && t'.intents[j].status == Superseded
      ensures OwnedElsewhere(t', j)
    {
      if j != id {
        assert OwnedElsewhere(t, j);
      }
    }
  }

  lemma SupersedeReceipts(t: Tables, id: IntentId, at: Time)
    requires ReceiptsSound(t)
    requires id in t.intents && t.intents[id].status == Pending
    ensures var t' := Resolve(t, id, Superseded, Some(at));
            ReceiptsSound(t') && (ReceiptsComplete(t) ==> ReceiptsComplete(t'))
  {
    var t' := Resolve(t, id, Superseded, Some(at));
    if ReceiptsComplete(t) {
      forall j | j in t'.intents && t'.intents[j].status == Succeeded
        ensures HasReceipt(t', j)
      {
        assert HasReceipt(t, j);
      }
    }
  }

  lemma SupersedeKeepsInv(t: Tables, id: IntentId, clock: Time, now: Time)
    requires Core(t, clock) && clock <= now
    requires id in t.intents && t.intents[id].status == Pending && AlreadyOwned(t, t.intents[id])
    ensures Keeps(t, Resolve(t, id, Superseded, Some(now)), now)
  {
    hide ReceiptsSound, ReceiptsComplete, SupersededOwned, UniquePending, Ledger, AllShaped;
    ResolveKeepsUnique(t, id, Superseded, Some(now));
    LedgerFrame(t, Resolve(t, id, Superseded, Some(now)), clock, now);
    SupersedeOwned(t, id, now);
    SupersedeReceipts(t, id, now);
    ResolveKeepsShapes(t, id, Superseded, now);
  }

  lemma ResolveKeepsShapes(t: Tables, id: IntentId, status: Status, at: Time)
    requires AllShaped(t) && id in t.intents && status != Pending
    ensures AllShaped(Resolve(t, id, status, Some(at)))
  {
    var t' := Resolve(t, id, status, Some(at));
    forall j | j in t'.intents
      ensures Shaped(t'.intents[j])
    {
      assert Shaped(t.intents[j]);
    }
  }

  lemma FulfilShapes(t: Tables, id: IntentId, now: Time, bank: string)
    requires AllShaped(t) && Fulfil(t, id, now, bank).Done?
    ensures AllShaped(Fulfil(t, id, now, bank).tables)
  {
    if id in t.intents && t.intents[id].status != Succeeded {
      ResolveKeepsShapes(t, id, Succeeded, now);
      RecordKeepsPlans(Resolve(t, id, Succeeded, Some(now)), id, now, bank);
    }
  }

  lemma RecordKeepsPlans(t: Tables, id: IntentId, now: Time, bank: string)
    requires id in t.intents && Record(t, id, now, bank).Done?
    ensures var t' := Record(t, id, now, bank).tables;
            t'.plans == t.plans && t'.contents == t.contents && t'.series == t.series && t'.freeToday == t.freeToday
  {
    hide ResolvePlan;
  }

  /** The status change and the receipt of a fulfilment, one receipt table at a time. */
  lemma PurchaseReceiptsSound(t: Tables, id: IntentId, at: Time, bank: string)
    requires ReceiptsSound(t)
    requires id in t.intents && t.intents[id].status != Succeeded && Shaped(t.intents[id])
    requires Target(t.intents[id]).ForMovie?
    ensures ReceiptsSound(RecordPurchase(Resolve(t, id, Succeeded, Some(at)), id, Target(t.intents[id]).contentId,
                                         bank))
  {
    NoReceiptYet(t, id);
  }

  lemma PurchaseReceipts(t: Tables, id: IntentId, at: Time, bank: string)
    requires ReceiptsSound(t)
    requires id in t.intents && t.intents[id].status != Succeeded && Shaped(t.intents[id])
    requires Target(t.intents[id]).ForMovie?
    ensures var t' := RecordPurchase(Resolve(t, id, Succeeded, Some(at)), id, Target(t.intents[id]).contentId, bank);
            ReceiptsSound(t') && (ReceiptsComplete(t) ==> ReceiptsComplete(t'))
  {
    PurchaseReceiptsSound(t, id, at, bank);
    var t' := RecordPurchase(Resolve(t, id, Succeeded, Some(at)), id, Target(t.intents[id]).contentId, bank);
    hide ReceiptsSound;
    if ReceiptsComplete(t) {
      forall j | j in t'.intents && t'.intents[j].status == Succeeded
        ensures HasReceipt(t', j)
      {
        assert j != id ==> HasReceipt(t, j);
      }
    }
  }

  lemma UnlockReceiptsSound(t: Tables, id: IntentId, at: Time, bank: string)
    requires ReceiptsSound(t)
    requires id in t.intents && t.intents[id].status != Succeeded && Shaped(t.intents[id])
    requires Target(t.intents[id]).ForSeries?
    ensures ReceiptsSound(RecordUnlock(Resolve(t, id, Succeeded, Some(at)), id, Target(t.intents[id]).seriesId, bank))
  {
    NoReceiptYet(t, id);
  }

  lemma UnlockReceipts(t: Tables, id: IntentId, at: Time, bank: string)
    requires ReceiptsSound(t)
    requires id in t.intents && t.intents[id].status != Succeeded && Shaped(t.intents[id])
    requires Target(t.intents[id]).ForSeries?
    ensures var t' := RecordUnlock(Resolve(t, id, Succeeded, Some(at)), id, Target(t.intents[id]).seriesId, bank);
            ReceiptsSound(t') && (ReceiptsComplete(t) ==> ReceiptsComplete(t'))
  {
    UnlockReceiptsSound(t, id, at, bank);
    var t' := RecordUnlock(Resolve(t, id, Succeeded, Some(at)), id, Target(t.intents[id]).seriesId, bank);
    hide ReceiptsSound;
    if ReceiptsComplete(t) {
      forall j | j in t'.intents && t'.intents[j].status == Succeeded
        ensures HasReceipt(t', j)
      {
        assert j != id ==> HasReceipt(t, j);
      }
    }
  }

  lemma NoReceipts(t: Tables, id: IntentId, at: Time)
    requires ReceiptsSound(t)
    requires id in t.intents && t.intents[id].status != Succeeded && Shaped(t.intents[id])
    requires Target(t.intents[id]).NoTarget?
    ensures var t' := Resolve(t, id, Succeeded, Some(at));
            ReceiptsSound(t') && (ReceiptsComplete(t) ==> ReceiptsComplete(t'))
  {
    var t' := Resolve(t, id, Succeeded, Some(at));
    if ReceiptsComplete(t) {
      forall j | j in t'.intents && t'.intents[j].status == Succeeded
        ensures HasReceipt(t', j)
      {
        assert j != id ==> HasReceipt(t, j);
      }
    }
  }

  lemma PaymentReceipts(t: Tables, id: IntentId, plan: Plan, at: Time, bank: string)
    requires ReceiptsSound(t)
    requires id in t.intents && t.intents[id].status != Succeeded && Shaped(t.intents[id]) && t.intents[id].kind == Sub
    requires t.intents[id].buyer.User?
    ensures var t' := Extend(Resolve(t, id, Succeeded, Some(at)), id, t.intents[id].buyer.userId, plan, at, bank);
            ReceiptsSound(t') && (ReceiptsComplete(t) ==> ReceiptsComplete(t'))
  {
    var t' := Extend(Resolve(t, id, Succeeded, Some(at)), id, t.intents[id].buyer.userId, plan, at, bank);
    if ReceiptsComplete(t) {
      forall j | j in t'.intents && t'.intents[j].status == Succeeded
        ensures HasReceipt(t', j)
      {
        assert j != id ==> HasReceipt(t, j);
      }
    }
  }

  lemma NoReceiptYet(t: Tables, id: IntentId)
    requires ReceiptsSound(t)
    ensures id in t.intents && t.intents[id].status != Succeeded ==>
              id !in t.purchases && id !in t.seriesPurchases && id !in t.subPayments
  {
  }

  /** A fulfilment that completes writes the missing receipt and touches no other. */
  lemma FulfilReceipts(t: Tables, id: IntentId, now: Time, bank: string)
    requires ReceiptsSound(t) && AllShaped(t)
    requires Fulfil(t, id, now, bank).Done?
    ensures var t' := Fulfil(t, id, now, bank).tables;
            ReceiptsSound(t') && (ReceiptsComplete(t) ==> ReceiptsComplete(t'))
  {
    hide ReceiptsSound, ReceiptsComplete, ResolvePlan, Extend;
    NoReceiptYet(t, id);
    if id in t.intents && t.intents[id].status != Succeeded {
      assert Shaped(t.intents[id]);
      match Target(t.intents[id])
      case ForMovie(_) => PurchaseReceipts(t, id, now, bank);
      case ForSeries(_) => UnlockReceipts(t, id, now, bank);
      case NoTarget => NoReceipts(t, id, now);
      case ForSubscription =>
        var t1 := Resolve(t, id, Succeeded, Some(now));
        PaymentReceipts(t, id, ResolvePlan(t1.plans, t1.intents[id]).value, now, bank);
    }
  }

  /** Recording a receipt keeps every earlier receipt. */
  lemma RecordKeepsReceipts(t: Tables, id: IntentId, now: Time, bank: string)
    requires id in t.intents && Record(t, id, now, bank).Done?
    ensures var t' := Record(t, id, now, bank).tables;
            && (forall o :: o in t.purchases ==> o in t'.purchases && t'.purchases[o] == t.purchases[o])
            && (forall o :: o in t.seriesPurchases ==>
                  o in t'.seriesPurchases && t'.seriesPurchases[o] == t.seriesPurchases[o])
  {
    hide ResolvePlan;
    match Target(t.intents[id])
    case ForMovie(_) =>
    case ForSeries(_) =>
    case NoTarget =>
    case ForSubscription => PaymentKeepsTitles(t, id, now, bank);
  }

  lemma PaymentKeepsTitles(t: Tables, id: IntentId, now: Time, bank: string)
    requires id in t.intents && RecordPayment(t, id, now, bank).Done?
    ensures var t' := RecordPayment(t, id, now, bank).tables;
            t'.purchases == t.purchases && t'.seriesPurchases == t.seriesPurchases
  {
    hide ResolvePlan;
  }

  lemma FulfilSuperseded(t: Tables, id: IntentId, now: Time, bank: string)
    requires SupersededOwned(t) && Fulfil(t, id, now, bank).Done?
    ensures SupersededOwned(Fulfil(t, id, now, bank).tables)
  {
    hide ResolvePlan, OwnedElsewhere;
    if id in t.intents && t.intents[id].status != Succeeded {
      var t1 := Resolve(t, id, Succeeded, Some(now));
      RecordKeepsReceipts(t1, id, now, bank);
      SupersededFrame(t, Record(t1, id, now, bank).tables);
    }
  }

  lemma FulfilKeepsUnique(t: Tables, id: IntentId, now: Time, bank: string)
    requires UniquePending(t.intents) && Fulfil(t, id, now, bank).Done?
    ensures UniquePending(Fulfil(t, id, now, bank).tables.intents)
  {
    if id in t.intents && t.intents[id].status != Succeeded {
      ResolveKeepsUnique(t, id, Succeeded, Some(now));
    }
  }

  /** Appending the new period keeps the periods disjoint and the row their summary. */
  lemma ExtendKeepsRow(prior: Option<Subscription>, gs: seq<Grant>, clock: Time, now: Time, id: IntentId, len: Time,
                         plan: string)
    requires clock <= now && len > 0
    requires Disjoint(gs)
    requires prior.Some? <==> gs != []
    requires prior.Some? ==> RowSummarises(prior.value, gs, clock)
    ensures var live := prior.Some? && prior.value.end > now;
            var start := if live then prior.value.end else now;
            var gs' := gs + [Grant(id, start, start + len)];
            && Disjoint(gs')
            && RowSummarises(Subscription(plan, true, if live then prior.value.start else now, start + len), gs', now)
  {
    var live := prior.Some? && prior.value.end > now;
    var start := if live then prior.value.end else now;
    var blockStart := if live then prior.value.start else now;
    var gs' := gs + [Grant(id, start, start + len)];
    forall at | blockStart <= at < start + len
      ensures Covered(gs', at)
    {
      if at < start {
        assert Covered(gs, at);
        var k :| 0 <= k < |gs| && gs[k].start <= at < gs[k].end;
        assert gs'[k] == gs[k];
      } else {
        assert gs'[|gs|].start <= at < gs'[|gs|].end;
      }
    }
    forall j, k | 0 <= j < k < |gs'|
      ensures gs'[j].end <= gs'[k].start
    {
      if k == |gs| && j < |gs| - 1 {
        assert gs[j].end <= gs[|gs| - 1].start;
      }
    }
  }

  /** A plan is found as long as any plan is active. */
  lemma ResolvedPlanExists(plans: seq<Plan>, i: Intent)
    ensures ResolvePlan(plans, i).Some? ==> ResolvePlan(plans, i).value in plans && ResolvePlan(plans, i).value.active
    ensures ResolvePlan(plans, i).None? <==> forall p <- plans :: !p.active
  {
    ActivePlansAre(plans);
    PricedAtAre(ActivePlans(plans), i.amount);
    if CodedPlan(i).Some? {
      PlanByCodeFinds(plans, CodedPlan(i).value);
    }
  }

  lemma {:induction false} ActivePlansAre(plans: seq<Plan>)
    ensures forall p :: p in ActivePlans(plans) <==> p in plans && p.active
  {
    if plans != [] {
      ActivePlansAre(plans[1..]);
      assert plans == [plans[0]] + plans[1..];
    }
  }

  lemma {:induction false} PricedAtAre(plans: seq<Plan>, amount: Cents)
    ensures forall p :: p in PricedAt(plans, amount) <==> p in plans && p.price == amount
  {
    if plans != [] {
      PricedAtAre(plans[1..], amount);
      assert plans == [plans[0]] + plans[1..];
    }
  }

  lemma {:induction false} PlanByCodeFinds(plans: seq<Plan>, code: string)
    ensures PlanByCode(plans, code).Some? ==> PlanByCode(plans, code).value in plans
    ensures PlanByCode(plans, code).None? <==> forall p <- plans :: p.code != code
  {
    if plans != [] {
      PlanByCodeFinds(plans[1..], code);
      assert plans == [plans[0]] + plans[1..];
    }
  }

  lemma ExtendGrantsMatch(t: Tables, id: IntentId, u: UserId, plan: Plan, now: Time, bank: string)
    requires GrantsMatch(t, u)
    requires id in t.intents && id !in t.subPayments
    requires t.intents[id].intervalDays.Some? && t.intents[id].intervalDays.value > 0
    ensures GrantsMatch(Extend(Resolve(t, id, Succeeded, Some(now)), id, u, plan, now, bank), u)
  {
    var t' := Extend(Resolve(t, id, Succeeded, Some(now)), id, u, plan, now, bank);
    var gs := GrantsOf(t, u);
    var gs' := GrantsOf(t', u);
    var g := gs'[|gs|];
    assert gs' == gs + [g];
    assert g.end - g.start == t.intents[id].intervalDays.value * SECONDS_PER_DAY;
    forall k | 0 <= k < |gs'|
      ensures gs'[k].intentId in t'.subPayments && GrantMatches(t', u, gs'[k])
    {
      if k < |gs| {
        assert GrantMatches(t, u, gs[k]);
      }
    }
    forall j | j in t'.subPayments && t'.subPayments[j].userId == u
      ensures exists k :: 0 <= k < |gs'| && gs'[k].intentId == j
    {
      if j == id {
        assert gs'[|gs|].intentId == id;
      } else {
        var k :| 0 <= k < |gs| && gs[k].intentId == j;
        assert gs'[k].intentId == j;
      }
    }
  }

  lemma ExtendLedgerOfBuyer(t: Tables, id: IntentId, u: UserId, plan: Plan, clock: Time, now: Time, bank: string)
    requires LedgerOf(t, u, clock) && clock <= now
    requires id in t.intents && id !in t.subPayments && Shaped(t.intents[id]) && t.intents[id].kind == Sub
    ensures LedgerOf(Extend(Resolve(t, id, Succeeded, Some(now)), id, u, plan, now, bank), u, now)
  {
    hide Disjoint, RowSummarises, GrantsMatch;
    var prior := if u in t.subscriptions then Some(t.subscriptions[u]) else None;
    ExtendKeepsRow(prior, GrantsOf(t, u), clock, now, id, t.intents[id].intervalDays.value * SECONDS_PER_DAY,
                   plan.code);
    ExtendGrantsMatch(t, id, u, plan, now, bank);
  }

  lemma ExtendLedgerOfOther(t: Tables, id: IntentId, u: UserId, plan: Plan, clock: Time, now: Time, bank: string,
                            w: UserId)
    requires LedgerOf(t, w, clock) && clock <= now && w != u
    requires id in t.intents && id !in t.subPayments
    ensures LedgerOf(Extend(Resolve(t, id, Succeeded, Some(now)), id, u, plan, now, bank), w, now)
  {
    var t' := Extend(Resolve(t, id, Succeeded, Some(now)), id, u, plan, now, bank);
    var gs := GrantsOf(t, w);
    assert GrantsOf(t', w) == gs;
    forall k | 0 <= k < |gs|
      ensures gs[k].intentId in t'.subPayments && GrantMatches(t', w, gs[k])
    {
      assert GrantMatches(t, w, gs[k]);
    }
  }

  lemma ExtendLedger(t: Tables, id: IntentId, u: UserId, plan: Plan, clock: Time, now: Time, bank: string)
    requires Ledger(t, clock) && clock <= now
    requires id in t.intents && id !in t.subPayments && Shaped(t.intents[id]) && t.intents[id].kind == Sub
    ensures Ledger(Extend(Resolve(t, id, Succeeded, Some(now)), id, u, plan, now, bank), now)
  {
    var t' := Extend(Resolve(t, id, Succeeded, Some(now)), id, u, plan, now, bank);
    forall w: UserId
      ensures LedgerOf(t', w, now)
    {
      assert LedgerOf(t, w, clock);
      if w == u {
        ExtendLedgerOfBuyer(t, id, u, plan, clock, now, bank);
      } else {
        ExtendLedgerOfOther(t, id, u, plan, clock, now, bank, w);
      }
    }
  }

  lemma TitleKeepsLedgerTables(t: Tables, id: IntentId, now: Time, bank: string)
    requires id in t.intents && !Target(t.intents[id]).ForSubscription?
    ensures var o := Record(t, id, now, bank);
            && o.Done? && o.tables.subscriptions == t.subscriptions
            && o.tables.subPayments == t.subPayments && o.tables.grants == t.grants
  {
    hide ResolvePlan;
  }

  lemma FulfilLedger(t: Tables, id: IntentId, clock: Time, now: Time, bank: string)
    requires Ledger(t, clock) && clock <= now && AllShaped(t)
    requires Fulfil(t, id, now, bank).Done?
    ensures Ledger(Fulfil(t, id, now, bank).tables, now)
  {
    if id !in t.intents || t.intents[id].status == Succeeded {
      LedgerFrame(t, t, clock, now);
    } else {
      RecordLedger(t, id, clock, now, bank);
    }
  }

  lemma RecordLedger(t: Tables, id: IntentId, clock: Time, now: Time, bank: string)
    requires Ledger(t, clock) && clock <= now && AllShaped(t) && id in t.intents
    requires Record(Resolve(t, id, Succeeded, Some(now)), id, now, bank).Done?
    ensures Ledger(Record(Resolve(t, id, Succeeded, Some(now)), id, now, bank).tables, now)
  {
    hide ResolvePlan;
    var t1 := Resolve(t, id, Succeeded, Some(now));
    if !Target(t.intents[id]).ForSubscription? {
      TitleKeepsLedgerTables(t1, id, now, bank);
      LedgerFrame(t, Record(t1, id, now, bank).tables, clock, now);
    } else if id in t.subPayments {
      LedgerFrame(t, t1, clock, now);
    } else {
      assert Shaped(t.intents[id]);
      ExtendLedger(t, id, t.intents[id].buyer.userId, ResolvePlan(t1.plans, t1.intents[id]).value, clock, now, bank);
    }
  }

  /** Fulfilling any intent, in any state and however often, keeps the invariant. */
  lemma FulfilKeepsInv(t: Tables, id: IntentId, clock: Time, now: Time, bank: string)
    requires Core(t, clock) && clock <= now
    ensures Keeps(t, Committed(t, Fulfil(t, id, now, bank)), now)
  {
    hide ReceiptsSound, ReceiptsComplete, SupersededOwned, UniquePending, Ledger, AllShaped, Fulfil;
    if Fulfil(t, id, now, bank).Done? {
      FulfilReceipts(t, id, now, bank);
      FulfilShapes(t, id, now, bank);
      FulfilSuperseded(t, id, now, bank);
      FulfilKeepsUnique(t, id, now, bank);
      FulfilLedger(t, id, clock, now, bank);
    } else {
      LedgerFrame(t, t, clock, now);
    }
  }
}
