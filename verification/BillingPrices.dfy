/** What a checkout costs, what its first transaction decides, and that every receipt is for the price asked then. */
module BillingPrices {
  import opened Options
  import opened BillingTables
  import opened BillingInvariant
  import opened BillingSteps
  import opened BillingTerms
  import opened BillingRuns
  import opened BillingFulfilment
  import opened BillingCheckout

  /** The product is for sale to this buyer at this price. */
  ghost predicate Costs(t: Tables, r: Request, cents: Cents) {
    && cents >= 3
    && match r.product
       case MovieUnlock(c) =>
         c in t.contents && t.contents[c].typ == Movie && t.contents[c].published && t.contents[c].price == Some(cents)
       case SeriesUnlock(x) => x in t.series && cents == 250
       case PlanCheckout(code) =>
         r.buyer.User? && exists k: nat :: OnSale(t.plans, k) && t.plans[k].code == code && t.plans[k].price == cents
  }

  /** The intent is the one a checkout of r at this moment builds. */
  ghost predicate DraftFor(t: Tables, r: Request, now: Time, d: Intent) {
    && d.buyer == r.buyer && d.md5 == r.md5 && d.md5.Some? && d.prevMd5.None? && d.status == Pending
    && d.createdAt == now && d.qrCreatedAt == Some(now) && d.resolvedAt.None? && d.orderId == OrderId(r)
    && match r.product
       case MovieUnlock(c) => d.kind == Single && d.contentId == Some(c)
       case SeriesUnlock(x) => d.kind == Series && d.seriesId == Some(x)
       case PlanCheckout(code) =>
         d.kind == Sub && d.planCode == Some(code) &&
         exists k: nat :: OnSale(t.plans, k) && t.plans[k].code == code && d.intervalDays == Some(t.plans[k].days)
  }

  lemma PlanOnSale(plans: seq<Plan>, code: string)
    ensures var p := PlanByCode(plans, code);
            p.Some? && p.value.active <==> exists k: nat :: OnSale(plans, k) && plans[k].code == code
    ensures forall k: nat :: OnSale(plans, k) && plans[k].code == code ==> PlanByCode(plans, code) == Some(plans[k])
  {
    forall k: nat | OnSale(plans, k) && plans[k].code == code
      ensures PlanByCode(plans, code) == Some(plans[k])
    {
      PlanByCodeAt(plans, code, k);
    }
    PlanByCodePosition(plans, code);
    if PlanByCode(plans, code).Some? && PlanByCode(plans, code).value.active {
      var k: nat :| k < |plans| && plans[k] == PlanByCode(plans, code).value && plans[k].code == code &&
                    forall j :: 0 <= j < k ==> plans[j].code != code;
      assert OnSale(plans, k);
    }
  }

  /** A checkout builds an intent exactly when the product has a price and a QR was made, and asks that price. */
  lemma DraftAsksPrice(t: Tables, r: Request, now: Time)
    ensures Draft(t, r, now).Some? <==> r.md5.Some? && exists cents :: Costs(t, r, cents)
    ensures Draft(t, r, now).Some? ==>
              Costs(t, r, Draft(t, r, now).value.amount) && DraftFor(t, r, now, Draft(t, r, now).value)
    ensures forall a, b :: Costs(t, r, a) && Costs(t, r, b) ==> a == b
  {
    if r.product.PlanCheckout? {
      PlanOnSale(t.plans, r.product.planCode);
    }
    SellableMeans(t, r);
    hide Sellable, PlanByCode;
    assert Sellable(t, r) ==> PriceOf(t, r).Some? && Costs(t, r, PriceOf(t, r).value);
  }

  lemma SellableMeans(t: Tables, r: Request)
    ensures Sellable(t, r) ==> PriceOf(t, r).Some? && Costs(t, r, PriceOf(t, r).value)
    ensures forall cents :: Costs(t, r, cents) ==> Sellable(t, r) && PriceOf(t, r) == Some(cents)
  {
    if r.product.PlanCheckout? {
      PlanOnSale(t.plans, r.product.planCode);
    }
    hide PlanByCode;
  }

  // ---- The first transaction of a checkout ----

  /** Nothing left to buy, or for a plan nothing on sale. */
  ghost predicate NothingToBuy(t: Tables, r: Request, now: Time) {
    match r.product
    case MovieUnlock(c) =>
      exists j :: j in t.purchases && t.purchases[j].buyer == r.buyer && t.purchases[j].contentId == c
    case SeriesUnlock(x) =>
      || (exists j :: j in t.seriesPurchases && t.seriesPurchases[j].buyer == r.buyer &&
                      t.seriesPurchases[j].seriesId == x)
      || (r.buyer.User? && r.buyer.userId in t.subscriptions && t.subscriptions[r.buyer.userId].active &&
          t.subscriptions[r.buyer.userId].end > now)
    case PlanCheckout(_) => !exists cents :: Costs(t, r, cents)
  }

  lemma NothingMeans(t: Tables, r: Request, now: Time)
    ensures AlreadyUnlocked(t, r, now) || (r.product.PlanCheckout? && !Sellable(t, r)) <==> NothingToBuy(t, r, now)
  {
    SellableMeans(t, r);
    hide Sellable, Costs;
    assert Sellable(t, r) ==> exists cents :: Costs(t, r, cents);
  }

  lemma PickIsHolder(t: Tables, r: Request, price: Cents, pick: Option<IntentId>, x: IntentId)
    requires AllShaped(t) && UniquePending(t.intents) && (r.product.PlanCheckout? ==> r.buyer.User?)
    requires Picks(t, r, price, pick) && x in t.intents
    ensures PendingKey(t.intents[x]) == Some((r.buyer, r.product)) <==> pick == Some(x)
  {
    hide UniquePending, AllShaped, Matches;
    LookupMatchesIndex(t, r, price, x);
    if pick.Some? {
      LookupMatchesIndex(t, r, price, pick.value);
      hide PendingKey;
      if pick != Some(x) && PendingKey(t.intents[x]) == Some((r.buyer, r.product)) {
        NoClash(t, x, pick.value);
      }
    }
  }

  lemma NoClash(t: Tables, x: IntentId, y: IntentId)
    requires UniquePending(t.intents) && x in t.intents && y in t.intents && x != y
    ensures PendingKey(t.intents[x]).Some? ==> PendingKey(t.intents[x]) != PendingKey(t.intents[y])
  {
    assert !Clash(t.intents, x, y);
  }

  /** The pending intent x of that buyer and product. */
  predicate Holds(t: Tables, r: Request, x: IntentId) {
    x in t.intents && PendingKey(t.intents[x]) == Some((r.buyer, r.product))
  }

  /** A creator that found nothing pending asks the price, or is refused. */
  ghost predicate Asked(t: Tables, r: Request, now: Time, phase: Phase) {
    if r.md5.Some? && exists cents :: Costs(t, r, cents) then
      phase.Ready? && phase.id == r.id && Costs(t, r, phase.draft.amount) && DraftFor(t, r, now, phase.draft)
    else phase == Refused
  }

  /** A checkout is refused when there is nothing to buy; returns the pending intent of that buyer and product,
      reused or refreshed; else asks the price, if there is one and a QR could be made; else is refused. */
  lemma LookAnswers(w: World, m: Move, s: Settings, clock: Time, now: Time)
    requires WorldInv(w, clock) && CanMove(w, m) && m.Look?
    ensures var t, r, w' := w.tables, m.request, Moved(w, m, s, now);
            && m.creator in w'.creators && w'.creators == w.creators[m.creator := w'.creators[m.creator]]
            && (NothingToBuy(t, r, now) ==> w'.tables == t && w'.creators[m.creator] == Refused)
            && (forall x :: !NothingToBuy(t, r, now) && Holds(t, r, x) ==>
                  && w'.creators[m.creator] == Returned(x)
                  && w'.tables == ReuseOrRefresh(t, x, t.intents[x].kind != Sub, s, now, m.refresh))
            && (!NothingToBuy(t, r, now) && (forall x :: !Holds(t, r, x)) ==>
                  w'.tables == t && Asked(t, r, now, w'.creators[m.creator]))
  {
    var t, r := w.tables, m.request;
    ShapesFrom(t, clock);
    NothingMeans(t, r, now);
    DraftAsksPrice(t, r, now);
    var price := if PriceOf(t, r).Some? then PriceOf(t, r).value else 0;
    hide WorldInv, AllShaped, UniquePending, Costs, DraftFor, NothingToBuy, AlreadyUnlocked, Sellable, Draft, PriceOf,
         Picks, ReuseOrRefresh, PendingKey;
    forall x: IntentId
      ensures Holds(t, r, x) <==> m.pick == Some(x)
    {
      if x in t.intents {
        PickIsHolder(t, r, price, m.pick, x);
      } else if m.pick == Some(x) {
        PickIsPending(t, r, price, m.pick);
      }
    }
    hide Holds;
  }

  // ---- Every receipt is for the price asked at the checkout ----

  lemma StepAddsNone(t: Tables, e: Event, s: Settings, now: Time)
    requires Enabled(t, e) && !e.Insert?
    ensures Step(t, e, s, now).intents.Keys == t.intents.Keys
  {
    hide Fulfil, ReuseOrRefresh, Poll, Authorize, SweepFrom, UniquePending, Deletion, DeleteContent, DeleteSeries,
         NewestSibling;
    match e
    case FulfilCall(id, bank) => FulfilTouchesOnly(t, id, now, bank);
    case Reuse(id, check, a) => ReuseAddsNone(t, id, check, s, now, a);
    case PollCall(id, a) => PollAddsNone(t, id, s, now, a);
    case AuthorizeCall(b, c, rows, ps) =>
      assert forall id <- rows :: IsBuyersPending(t, b, c, id);
      AuthorizeTouchesOnly(t, rows, s, now, ps);
    case SweepCall(batch, ins) => SweepTouchesOnly(Sweeping(t, 0), batch, s, now, ins);
    case ContentDeleted(c) =>
      ContentGone(t, c);
      DeletionKeys(t, DeleteContent(t, c), {c}, {});
    case SeriesDeleted(x) =>
      SeriesGone(t, x);
      DeletionKeys(t, DeleteSeries(t, x), EpisodesOf(t, x), {x});
    case _ =>
  }

  lemma DeletionKeys(t: Tables, t': Tables, movies: set<ContentId>, gone: set<SeriesId>)
    requires Deletion(t, t', movies, gone)
    ensures t'.intents.Keys == t.intents.Keys
  {
  }

  lemma ReuseAddsNone(t: Tables, id: IntentId, check: bool, s: Settings, now: Time, a: RefreshInput)
    requires id in t.intents
    ensures ReuseOrRefresh(t, id, check, s, now, a).intents.Keys == t.intents.Keys
  {
    SettleTouchesOnly(t, id, s, now, a.settle);
    hide SettleIfPaid, AlreadyOwned, ConfirmedUnpaid, QrIsStale;
  }

  lemma ResolveKeys(t: Tables, id: IntentId, status: Status, at: Option<Time>)
    requires id in t.intents
    ensures Resolve(t, id, status, at).intents.Keys == t.intents.Keys
  {
  }

  lemma PollAddsNone(t: Tables, id: IntentId, s: Settings, now: Time, a: PollInput)
    requires id in t.intents && NewestSibling(t, id, a.sibling)
    ensures Poll(t, id, s, now, a).intents.Keys == t.intents.Keys
  {
    hide SettleIfPaid, SettleSibling, AlreadyOwned, Resolve, IsSibling;
    if a.sibling.Some? {
      SiblingIn(t, id, a.sibling.value);
      SiblingAddsNone(t, id, a.sibling.value, s, now, a.siblingProbes);
    }
    hide NewestSibling;
    SettleTouchesOnly(t, id, s, now, a.own);
    ResolveKeys(t, id, Superseded, Some(now));
  }

  lemma SiblingAddsNone(t: Tables, id: IntentId, other: IntentId, s: Settings, now: Time, p: Probes)
    requires id in t.intents && other in t.intents
    ensures SettleSibling(t, id, other, s, now, p).intents.Keys == t.intents.Keys
  {
    SettleTouchesOnly(t, other, s, now, p);
    hide SettleIfPaid;
  }

  /** The checkout that built this intent, some step before k, found the product for sale at what the intent asks. */
  ghost predicate Sold(worlds: seq<World>, moves: seq<(Move, Time)>, k: nat, product: Product, i: Intent) {
    exists j {:trigger worlds[j]} ::
      && 0 <= j < k && j < |moves| && j < |worlds| && moves[j].0.Look? && moves[j].0.request.product == product
      && moves[j].1 == i.createdAt && OrderId(moves[j].0.request) == i.orderId
      && Costs(worlds[j].tables, moves[j].0.request, i.amount)
  }

  ghost predicate AtItsPrice(worlds: seq<World>, moves: seq<(Move, Time)>, k: nat, i: Intent) {
    match i.kind
    case Single => exists c: ContentId :: i.contentId in {Some(c), None} && Sold(worlds, moves, k, MovieUnlock(c), i)
    case Series => exists x: SeriesId :: i.seriesId in {Some(x), None} && Sold(worlds, moves, k, SeriesUnlock(x), i)
    case Sub => i.planCode.Some? && Sold(worlds, moves, k, PlanCheckout(i.planCode.value), i)
  }

  lemma StillAtItsPrice(worlds: seq<World>, moves: seq<(Move, Time)>, k: nat, i: Intent, j: Intent)
    requires AtItsPrice(worlds, moves, k, i) && SameTerms(i, j)
    ensures AtItsPrice(worlds, moves, k + 1, j)
  {
  }

  lemma NewAtItsPrice(worlds: seq<World>, moves: seq<(Move, Time)>, k: nat, d: Intent)
    requires k < |moves| && k < |worlds| && moves[k].0.Look?
    requires Costs(worlds[k].tables, moves[k].0.request, d.amount)
    requires DraftFor(worlds[k].tables, moves[k].0.request, moves[k].1, d)
    ensures AtItsPrice(worlds, moves, k + 1, d)
  {
    hide Costs, OrderId;
    assert Sold(worlds, moves, k + 1, moves[k].0.request.product, d);
    hide Sold;
  }

  ghost predicate DraftAtItsPrice(worlds: seq<World>, moves: seq<(Move, Time)>, k: nat, phase: Phase) {
    match phase
    case Ready(_, d) => AtItsPrice(worlds, moves, k, d)
    case LostRace(d) => AtItsPrice(worlds, moves, k, d)
    case _ => true
  }

  ghost predicate AllAtTheirPrice(worlds: seq<World>, moves: seq<(Move, Time)>, k: nat)
    requires k < |worlds|
  {
    && (forall x :: x in worlds[k].tables.intents ==> AtItsPrice(worlds, moves, k, worlds[k].tables.intents[x]))
    && (forall c :: c in worlds[k].creators ==> DraftAtItsPrice(worlds, moves, k, worlds[k].creators[c]))
  }

  /** What a move does to the terms of intents and drafts: they stand, move on to the tables or to the retry,
      or are new and ask the price. */
  ghost predicate KeepsTerms(w: World, m: Move, w': World, now: Time) {
    && (forall x :: x in w'.tables.intents ==>
          || (x in w.tables.intents && SameTerms(w.tables.intents[x], w'.tables.intents[x]))
          || (exists c :: c in w.creators && w.creators[c].Ready? && w.creators[c].draft == w'.tables.intents[x]))
    && (forall c :: c in w'.creators ==> PhaseFollows(w, m, c, w'.creators[c], now))
  }

  ghost predicate PhaseFollows(w: World, m: Move, c: CreatorId, phase: Phase, now: Time) {
    || !(phase.Ready? || phase.LostRace?)
    || (c in w.creators && phase == w.creators[c])
    || (c in w.creators && w.creators[c].Ready? && phase == LostRace(w.creators[c].draft))
    || (m.Look? && phase.Ready? && Costs(w.tables, m.request, phase.draft.amount) &&
        DraftFor(w.tables, m.request, now, phase.draft))
  }

  lemma MoveKeepsTerms(w: World, m: Move, s: Settings, clock: Time, now: Time)
    requires WorldInv(w, clock) && CanMove(w, m)
    ensures KeepsTerms(w, m, Moved(w, m, s, now), now)
  {
    hide Core, ReceiptsSound, DraftsOk, ReuseOrRefresh, Step, Enabled, SameTerms, Picks, Costs, DraftFor, Draft,
         AlreadyUnlocked, Sellable, PriceOf, InsertAccepted;
    CoreIsSound(w.tables, clock);
    match m
    case Look(_, r, pick, a) =>
      DraftAsksPrice(w.tables, r, now);
      var price := if PriceOf(w.tables, r).Some? then PriceOf(w.tables, r).value else 0;
      ReusedKeepsTerms(w.tables, pick, r, price, s, now, a);
    case Commit(_) => AllSameTerms(w.tables);
    case Retry(c, r, pick, a) => ReusedKeepsTerms(w.tables, pick, r, w.creators[c].draft.amount, s, now, a);
    case Other(e) =>
      StepAddsNone(w.tables, e, s, now);
      forall x | x in w.tables.intents
        ensures SameTerms(w.tables.intents[x], Step(w.tables, e, s, now).intents[x])
      {
        StepCarries(w.tables, e, s, now, x);
      }
  }

  lemma AllSameTerms(t: Tables)
    ensures forall x :: x in t.intents ==> SameTerms(t.intents[x], t.intents[x])
  {
  }

  lemma ReusedKeepsTerms(t: Tables, pick: Option<IntentId>, r: Request, price: Cents, s: Settings, now: Time,
                         a: RefreshInput)
    requires Picks(t, r, price, pick)
    ensures forall x :: x in t.intents ==> SameTerms(t.intents[x], t.intents[x])
    ensures pick.Some? ==> pick.value in t.intents
    ensures pick.Some? ==>
              var t' := Reused(t, pick.value, s, now, a);
              && t'.intents.Keys == t.intents.Keys
              && forall x :: x in t.intents ==> SameTerms(t.intents[x], t'.intents[x])
  {
    AllSameTerms(t);
    if pick.Some? {
      PickIsPending(t, r, price, pick);
      var check := t.intents[pick.value].kind != Sub;
      ReuseAddsNone(t, pick.value, check, s, now, a);
      hide ReuseOrRefresh, SameTerms, Picks, HasReceipt;
      forall x | x in t.intents
        ensures SameTerms(t.intents[x], Reused(t, pick.value, s, now, a).intents[x])
      {
        ReuseCarries(t, pick.value, check, s, now, a, x);
      }
    }
  }

  lemma TermsKeepPrices(worlds: seq<World>, moves: seq<(Move, Time)>, k: nat)
    requires k < |moves| && k + 1 < |worlds| && AllAtTheirPrice(worlds, moves, k)
    requires KeepsTerms(worlds[k], moves[k].0, worlds[k + 1], moves[k].1)
    ensures AllAtTheirPrice(worlds, moves, k + 1)
  {
    var w, m, w' := worlds[k], moves[k].0, worlds[k + 1];
    hide AtItsPrice, SameTerms, Costs, DraftFor;
    SelfSameTerms();
    forall x | x in w'.tables.intents
      ensures AtItsPrice(worlds, moves, k + 1, w'.tables.intents[x])
    {
      if x in w.tables.intents && SameTerms(w.tables.intents[x], w'.tables.intents[x]) {
        StillAtItsPrice(worlds, moves, k, w.tables.intents[x], w'.tables.intents[x]);
      } else {
        var c :| c in w.creators && w.creators[c].Ready? && w.creators[c].draft == w'.tables.intents[x];
        assert DraftAtItsPrice(worlds, moves, k, w.creators[c]);
        StillAtItsPrice(worlds, moves, k, w.creators[c].draft, w.creators[c].draft);
      }
    }
    forall c | c in w'.creators
      ensures DraftAtItsPrice(worlds, moves, k + 1, w'.creators[c])
    {
      var phase := w'.creators[c];
      assert PhaseFollows(w, m, c, phase, moves[k].1);
      if phase.Ready? || phase.LostRace? {
        if c in w.creators && (w.creators[c].Ready? || w.creators[c].LostRace?) && w.creators[c].draft == phase.draft {
          assert DraftAtItsPrice(worlds, moves, k, w.creators[c]);
          StillAtItsPrice(worlds, moves, k, phase.draft, phase.draft);
        } else {
          NewAtItsPrice(worlds, moves, k, phase.draft);
        }
      }
    }
  }

  lemma SelfSameTerms()
    ensures forall i :: SameTerms(i, i)
  {
  }

  lemma EmptyWorld(worlds: seq<World>, moves: seq<(Move, Time)>, start: Time)
    requires worlds != [] && worlds[0] == World(Empty, map[])
    ensures WorldInv(worlds[0], start) && AllAtTheirPrice(worlds, moves, 0)
  {
    EmptyInv(start);
    hide Core;
  }

  lemma {:induction false} PricesStand(worlds: seq<World>, moves: seq<(Move, Time)>, s: Settings, start: Time, k: nat)
    requires WorldRun(worlds, moves, s, start) && WorldInv(worlds[0], start) && k < |worlds|
    requires AllAtTheirPrice(worlds, moves, 0)
    ensures AllAtTheirPrice(worlds, moves, k)
  {
    hide WorldInv, CanMove, Moved, KeepsTerms, AllAtTheirPrice;
    if k > 0 {
      PricesStand(worlds, moves, s, start, k - 1);
      WorldRunKeepsInv(worlds, moves, s, start, k - 1);
      var clock := if k - 1 == 0 then start else moves[k - 2].1;
      assert WorldTransition(worlds[k - 1], moves[k - 1].0, worlds[k], s, clock, moves[k - 1].1);
      MoveKeepsTerms(worlds[k - 1], moves[k - 1].0, s, clock, moves[k - 1].1);
      TermsKeepPrices(worlds, moves, k - 1);
    }
  }

  /** In every interleaving from the empty database, a receipt is for what its product cost at the checkout that built
      its intent. */
  lemma ReceiptIsAtPrice(worlds: seq<World>, moves: seq<(Move, Time)>, s: Settings, start: Time, k: nat, id: IntentId)
    requires WorldRun(worlds, moves, s, start) && worlds[0] == World(Empty, map[]) && k < |worlds|
    ensures var t := worlds[k].tables;
            && (id in t.purchases || id in t.seriesPurchases || id in t.subPayments ==> id in t.intents)
            && (id in t.purchases ==>
                  && t.purchases[id].amount == t.intents[id].amount
                  && Sold(worlds, moves, k, MovieUnlock(t.purchases[id].contentId), t.intents[id]))
            && (id in t.seriesPurchases ==>
                  && t.seriesPurchases[id].amount == t.intents[id].amount
                  && Sold(worlds, moves, k, SeriesUnlock(t.seriesPurchases[id].seriesId), t.intents[id]))
            && (id in t.subPayments ==>
                  && t.subPayments[id].amount == t.intents[id].amount
                  && exists code :: Sold(worlds, moves, k, PlanCheckout(code), t.intents[id]))
  {
    EmptyWorld(worlds, moves, start);
    var t := worlds[k].tables;
    PricesAt(worlds, moves, s, start, k, id);
    hide WorldRun, Sold, Empty;
  }

  lemma PricesAt(worlds: seq<World>, moves: seq<(Move, Time)>, s: Settings, start: Time, k: nat, id: IntentId)
    requires WorldRun(worlds, moves, s, start) && WorldInv(worlds[0], start) && k < |worlds|
    requires AllAtTheirPrice(worlds, moves, 0)
    ensures var t := worlds[k].tables;
            && (id in t.intents ==> AtItsPrice(worlds, moves, k, t.intents[id]))
            && (id in t.purchases ==> id in t.intents && PurchaseMatches(t.intents[id], t.purchases[id]))
            && (id in t.seriesPurchases ==> id in t.intents && UnlockMatches(t.intents[id], t.seriesPurchases[id]))
            && (id in t.subPayments ==> id in t.intents && PaymentMatches(t.intents[id], t.subPayments[id]))
  {
    WorldRunKeepsInv(worlds, moves, s, start, k);
    PricesStand(worlds, moves, s, start, k);
    CoreIsSound(worlds[k].tables, if k == 0 then start else moves[k - 1].1);
    hide Core, AtItsPrice, PurchaseMatches, UnlockMatches, PaymentMatches;
  }
}
