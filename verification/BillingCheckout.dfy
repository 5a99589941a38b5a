/**
 Create-or-reuse, with the lookup and the insert of each creator as separate transactions,
 so that any number of creators for the same buyer and product interleave.
 */
module BillingCheckout {
  import opened Options
  import opened Text
  import opened BillingTables
  import opened BillingInvariant
  import opened BillingSteps
  import opened BillingRuns
  import opened BillingFulfilment

  type CreatorId = nat

  /** What the request asks for and the fresh values it would use. */
  datatype Request = Request(buyer: Buyer, product: Product, id: IntentId, hex: string, md5: Option<Md5>)

  datatype Phase =
    | Refused                                // conflict, not found, price too low, or no QR service
    | Ready(id: IntentId, draft: Intent)     // looked up nothing, about to insert
    | LostRace(draft: Intent)                // the insert was refused by the database
    | Returned(id: IntentId)
    | Crashed                                // the insert was refused and there is no winner to reuse

  datatype World = World(tables: Tables, creators: map<CreatorId, Phase>)

  // ---- Building the draft ----

  /** The product is already unlocked for this buyer. */
  ghost predicate AlreadyUnlocked(t: Tables, r: Request, now: Time) {
    match r.product
    case MovieUnlock(c) => OwnsMovie(t, r.buyer, c)
    case SeriesUnlock(x) =>
      (r.buyer.User? && HasActiveSubscription(t, r.buyer.userId, now)) || OwnsSeries(t, r.buyer, x)
    case PlanCheckout(_) => false
  }

  /** Price of the product, None when it is not for sale. */
  function PriceOf(t: Tables, r: Request): Option<Cents> {
    match r.product
    case MovieUnlock(c) =>
      if c in t.contents && t.contents[c].typ == Movie && t.contents[c].published then t.contents[c].price else None
    case SeriesUnlock(x) => if x in t.series then Some(SERIES_UNLOCK_CENTS) else None
    case PlanCheckout(code) =>
      var p := PlanByCode(t.plans, code);
      if p.Some? && p.value.active && r.buyer.User? then Some(p.value.price) else None
  }

  predicate Sellable(t: Tables, r: Request) {
    PriceOf(t, r).Some? && PriceOf(t, r).value >= MIN_PAID_CENTS
  }

  function OrderId(r: Request): string {
    match r.product
    case MovieUnlock(_) => "movie-" + r.hex
    case SeriesUnlock(_) => "series-" + r.hex
    case PlanCheckout(code) => "sub-" + code + "-" + r.hex
  }

  function Draft(t: Tables, r: Request, now: Time): Option<Intent> {
    var price := PriceOf(t, r);
    if !Sellable(t, r) || r.md5.None? then None
    else
      var blank := Intent(r.buyer, Single, None, None, None, None, OrderId(r), price.value, r.md5, None, Some(now), now,
                          Pending, None);
      match r.product
      case MovieUnlock(c) => Some(blank.(contentId := Some(c)))
      case SeriesUnlock(x) => Some(blank.(kind := Series, seriesId := Some(x)))
      case PlanCheckout(code) =>
        Some(blank.(kind := Sub, planCode := Some(code), intervalDays := Some(PlanByCode(t.plans, code).value.days)))
  }

  lemma DraftIsWellFormed(t: Tables, r: Request, now: Time)
    requires AllShaped(t) && Draft(t, r, now).Some?
    ensures WellFormedDraft(Draft(t, r, now).value)
    ensures PendingKey(Draft(t, r, now).value) == Some((r.buyer, r.product))
  {
    if r.product.PlanCheckout? {
      PlanByCodeFinds(t.plans, r.product.planCode);
    }
  }

  // ---- The pending lookup ----

  /** The WHERE clause of the three pending lookups, for the product of r at the given price. */
  predicate Matches(i: Intent, r: Request, price: Cents) {
    && i.status == Pending && i.buyer == r.buyer
    && match r.product
       case MovieUnlock(c) => i.kind == Single && i.contentId == Some(c)
       case SeriesUnlock(x) => i.kind == Series && i.seriesId == Some(x)
       case PlanCheckout(code) =>
         i.kind == Sub && (i.planCode == Some(code) || (i.planCode.None? && i.amount == price))
  }

  /** The oldest match; ties are broken freely. */
  ghost predicate Picks(t: Tables, r: Request, price: Cents, pick: Option<IntentId>) {
    match pick
    case None => forall x :: x in t.intents ==> !Matches(t.intents[x], r, price)
    case Some(p) =>
      && p in t.intents && Matches(t.intents[p], r, price)
      && forall x :: x in t.intents && Matches(t.intents[x], r, price) ==>
        t.intents[p].createdAt <= t.intents[x].createdAt
  }

  /** The lookup and the unique index agree on what "the same checkout" is. */
  lemma LookupMatchesIndex(t: Tables, r: Request, price: Cents, x: IntentId)
    requires AllShaped(t) && x in t.intents && (r.product.PlanCheckout? ==> r.buyer.User?)
    ensures Matches(t.intents[x], r, price) <==> PendingKey(t.intents[x]) == Some((r.buyer, r.product))
  {
    assert Shaped(t.intents[x]);
  }

  // ---- Steps of the interleaved system ----

  datatype Move =
    | Look(creator: CreatorId, request: Request, pick: Option<IntentId>, refresh: RefreshInput)
    | Commit(creator: CreatorId)
    | Retry(creator: CreatorId, request: Request, pick: Option<IntentId>, refresh: RefreshInput)
    | Other(event: Event)

  predicate RequestOf(d: Intent, r: Request) {
    PendingKey(d) == Some((r.buyer, r.product))
  }

  ghost predicate CanMove(w: World, m: Move) {
    match m
    case Look(c, r, pick, _) =>
      c !in w.creators && (r.product.PlanCheckout? ==> r.buyer.User?)
      && Picks(w.tables, r, if PriceOf(w.tables, r).Some? then PriceOf(w.tables, r).value else 0, pick)
    case Commit(c) => c in w.creators && w.creators[c].Ready?
    case Retry(c, r, pick, _) =>
      c in w.creators && w.creators[c].LostRace? && RequestOf(w.creators[c].draft, r)
      && Picks(w.tables, r, w.creators[c].draft.amount, pick)
    case Other(e) => !e.Insert? && Enabled(w.tables, e)
  }

  ghost function Reused(t: Tables, id: IntentId, s: Settings, now: Time, a: RefreshInput): Tables
    requires id in t.intents
  {
    ReuseOrRefresh(t, id, t.intents[id].kind != Sub, s, now, a)
  }

  ghost function Moved(w: World, m: Move, s: Settings, now: Time): World
    requires CanMove(w, m)
  {
    match m
    case Look(c, r, pick, a) =>
      // A subscription checkout resolves and prices the plan before it looks for a pending intent.
      if AlreadyUnlocked(w.tables, r, now) || (r.product.PlanCheckout? && !Sellable(w.tables, r)) then
        w.(creators := w.creators[c := Refused])
      else if pick.Some? then
        World(Reused(w.tables, pick.value, s, now, a), w.creators[c := Returned(pick.value)])
      else
        var d := Draft(w.tables, r, now);
        w.(creators := w.creators[c := if d.Some? then Ready(r.id, d.value) else Refused])
    case Commit(c) =>
      var id, d := w.creators[c].id, w.creators[c].draft;
      if InsertAccepted(w.tables, id, d) then
        World(w.tables.(intents := w.tables.intents[id := d]), w.creators[c := Returned(id)])
      else w.(creators := w.creators[c := LostRace(d)])
    case Retry(c, r, pick, a) =>
      if pick.None? then w.(creators := w.creators[c := Crashed])
      else World(Reused(w.tables, pick.value, s, now, a), w.creators[c := Returned(pick.value)])
    case Other(e) => w.(tables := Step(w.tables, e, s, now))
  }

  /** Drafts waiting to be inserted are what the create paths build. */
  ghost predicate DraftsOk(w: World) {
    forall c :: c in w.creators ==>
      && (w.creators[c].Ready? ==> WellFormedDraft(w.creators[c].draft))
      && (w.creators[c].LostRace? ==> WellFormedDraft(w.creators[c].draft))
  }

  ghost predicate WorldInv(w: World, clock: Time) {
    Core(w.tables, clock) && DraftsOk(w)
  }

  lemma PickIsPending(t: Tables, r: Request, price: Cents, pick: Option<IntentId>)
    requires Picks(t, r, price, pick) && pick.Some?
    ensures pick.value in t.intents && t.intents[pick.value].status == Pending
  {
  }

  lemma LookKeepsInv(w: World, m: Move, s: Settings, clock: Time, now: Time)
    requires WorldInv(w, clock) && clock <= now && CanMove(w, m) && m.Look?
    ensures WorldInv(Moved(w, m, s, now), now)
  {
    var t := w.tables;
    var price := if PriceOf(t, m.request).Some? then PriceOf(t, m.request).value else 0;
    ShapesFrom(t, clock);
    hide Core, ReceiptsComplete, ReuseOrRefresh, WellFormedDraft, Draft, PriceOf, AlreadyUnlocked, Picks, AllShaped,
         Sellable, PendingKey;
    Later(t, clock, now);
    if m.pick.Some? {
      PickIsPending(t, m.request, price, m.pick);
      ReuseKeepsInv(t, m.pick.value, t.intents[m.pick.value].kind != Sub, s, clock, now, m.refresh);
    } else if Draft(t, m.request, now).Some? {
      DraftIsWellFormed(t, m.request, now);
    }
  }

  lemma CommitKeepsInv(w: World, m: Move, s: Settings, clock: Time, now: Time)
    requires WorldInv(w, clock) && clock <= now && CanMove(w, m) && m.Commit?
    ensures WorldInv(Moved(w, m, s, now), now)
  {
    hide Core, ReceiptsComplete, WellFormedDraft, UniquePending;
    Later(w.tables, clock, now);
    if InsertAccepted(w.tables, w.creators[m.creator].id, w.creators[m.creator].draft) {
      InsertKeepsInv(w.tables, w.creators[m.creator].id, w.creators[m.creator].draft, clock, now);
    }
  }

  lemma RetryKeepsInv(w: World, m: Move, s: Settings, clock: Time, now: Time)
    requires WorldInv(w, clock) && clock <= now && CanMove(w, m) && m.Retry?
    ensures WorldInv(Moved(w, m, s, now), now)
  {
    var t := w.tables;
    hide Core, ReceiptsComplete, ReuseOrRefresh, WellFormedDraft, Picks;
    Later(t, clock, now);
    if m.pick.Some? {
      PickIsPending(t, m.request, w.creators[m.creator].draft.amount, m.pick);
      ReuseKeepsInv(t, m.pick.value, t.intents[m.pick.value].kind != Sub, s, clock, now, m.refresh);
    }
  }

  /** Every interleaving of creators with the other transactions keeps the core of the billing invariant,
      and with it one pending intent per buyer and product. */
  lemma MoveKeepsInv(w: World, m: Move, s: Settings, clock: Time, now: Time)
    requires WorldInv(w, clock) && clock <= now && CanMove(w, m)
    ensures WorldInv(Moved(w, m, s, now), now)
  {
    match m
    case Look(_, _, _, _) => LookKeepsInv(w, m, s, clock, now);
    case Commit(_) => CommitKeepsInv(w, m, s, clock, now);
    case Retry(_, _, _, _) => RetryKeepsInv(w, m, s, clock, now);
    case Other(e) =>
      hide Core, ReceiptsComplete, StrandsSub, Step, Enabled, WellFormedDraft;
      StepKeepsInv(w.tables, e, s, clock, now);
  }

  lemma ShapesFrom(t: Tables, clock: Time)
    requires Core(t, clock)
    ensures AllShaped(t) && UniquePending(t.intents)
  {
  }

  /** Whoever holds the index entry of a lost insert is the intent the loser gets back. */
  lemma LoserReturnsWinner(w: World, m: Move, s: Settings, clock: Time, now: Time, winner: IntentId)
    requires WorldInv(w, clock) && CanMove(w, m) && m.Retry?
    requires winner in w.tables.intents
    requires PendingKey(w.tables.intents[winner]) == PendingKey(w.creators[m.creator].draft)
    ensures Moved(w, m, s, now).creators[m.creator] == Returned(winner)
    ensures Moved(w, m, s, now).tables ==
            ReuseOrRefresh(w.tables, winner, w.tables.intents[winner].kind != Sub, s, now, m.refresh)
  {
    var t, r := w.tables, m.request;
    ShapesFrom(t, clock);
    var price := w.creators[m.creator].draft.amount;
    assert WellFormedDraft(w.creators[m.creator].draft);
    hide Core, AllShaped, WellFormedDraft, ReuseOrRefresh;
    LookupMatchesIndex(t, r, price, winner);
    if m.pick.Some? {
      LookupMatchesIndex(t, r, price, m.pick.value);
      assert !Clash(t.intents, winner, m.pick.value);
    }
  }

  /** The database refuses an insert exactly when the id or the index entry is taken or the title is gone; else the
      intent is stored and returned. */
  lemma CommitLosesIff(w: World, m: Move, s: Settings, clock: Time, now: Time)
    requires WorldInv(w, clock) && CanMove(w, m) && m.Commit?
    ensures var id, d := w.creators[m.creator].id, w.creators[m.creator].draft;
            Moved(w, m, s, now).creators[m.creator].LostRace? <==>
              || id in w.tables.intents
              || (exists x :: x in w.tables.intents && PendingKey(w.tables.intents[x]) == PendingKey(d))
              || (d.contentId.Some? && d.contentId.value !in w.tables.contents)
              || (d.seriesId.Some? && d.seriesId.value !in w.tables.series)
    ensures var id, d, w' := w.creators[m.creator].id, w.creators[m.creator].draft, Moved(w, m, s, now);
            if w'.creators[m.creator].LostRace? then w'.tables == w.tables && w'.creators[m.creator].draft == d
            else w'.tables == w.tables.(intents := w.tables.intents[id := d]) && w'.creators[m.creator] == Returned(id)
  {
    var t := w.tables;
    var id, d := w.creators[m.creator].id, w.creators[m.creator].draft;
    ShapesFrom(t, clock);
    assert PendingKey(d).Some?;
    hide Core, AllShaped, WellFormedDraft;
    if id !in t.intents {
      var after := t.intents[id := d];
      if x :| x in t.intents && PendingKey(t.intents[x]) == PendingKey(d) {
        assert Clash(after, x, id);
      } else {
        forall j, k
          ensures !Clash(after, j, k)
        {
          assert !Clash(t.intents, j, k);
        }
      }
    }
  }

  // ---- Runs ----

  ghost predicate WorldRun(worlds: seq<World>, moves: seq<(Move, Time)>, s: Settings, start: Time) {
    && |worlds| == |moves| + 1
    && forall k :: 0 <= k < |moves| ==>
         WorldTransition(worlds[k], moves[k].0, worlds[k + 1], s, if k == 0 then start else moves[k - 1].1, moves[k].1)
  }

  ghost predicate WorldTransition(w: World, m: Move, w': World, s: Settings, clock: Time, now: Time) {
    && clock <= now && CanMove(w, m) && w' == Moved(w, m, s, now)
  }

  lemma {:induction false} WorldRunKeepsInv(worlds: seq<World>, moves: seq<(Move, Time)>, s: Settings, start: Time,
                                            k: nat)
    requires WorldRun(worlds, moves, s, start) && WorldInv(worlds[0], start) && k < |worlds|
    ensures WorldInv(worlds[k], if k == 0 then start else moves[k - 1].1)
  {
    hide WorldInv, CanMove, Moved;
    if k > 0 {
      WorldRunKeepsInv(worlds, moves, s, start, k - 1);
      var clock := if k - 1 == 0 then start else moves[k - 2].1;
      assert WorldTransition(worlds[k - 1], moves[k - 1].0, worlds[k], s, clock, moves[k - 1].1);
      MoveKeepsInv(worlds[k - 1], moves[k - 1].0, s, clock, moves[k - 1].1);
    }
  }

  /** In no interleaving do two different pending intents exist for the same buyer and product. */
  lemma OnePendingPerCheckout(worlds: seq<World>, moves: seq<(Move, Time)>, s: Settings, start: Time, k: nat,
                              x: IntentId, y: IntentId)
    requires WorldRun(worlds, moves, s, start) && WorldInv(worlds[0], start) && k < |worlds|
    requires x in worlds[k].tables.intents && y in worlds[k].tables.intents
    requires PendingKey(worlds[k].tables.intents[x]).Some?
    requires PendingKey(worlds[k].tables.intents[x]) == PendingKey(worlds[k].tables.intents[y])
    ensures x == y
  {
    WorldRunKeepsInv(worlds, moves, s, start, k);
    ShapesFrom(worlds[k].tables, if k == 0 then start else moves[k - 1].1);
    assert !Clash(worlds[k].tables.intents, x, y);
  }

  /** A creator whose insert lost at step j, and that retries at step n while an intent still holds
      that index entry, returns that very intent; it crashes only when nobody holds it any more. */
  lemma RetryFindsWinner(worlds: seq<World>, moves: seq<(Move, Time)>, s: Settings, start: Time, n: nat)
    requires WorldRun(worlds, moves, s, start) && WorldInv(worlds[0], start) && n < |moves| && moves[n].0.Retry?
    ensures moves[n].0.creator in worlds[n].creators && worlds[n].creators[moves[n].0.creator].LostRace?
    ensures var c := moves[n].0.creator;
            var key := PendingKey(worlds[n].creators[c].draft);
            && c in worlds[n + 1].creators
            && (forall x :: x in worlds[n].tables.intents && PendingKey(worlds[n].tables.intents[x]) == key ==>
                  worlds[n + 1].creators[c] == Returned(x))
            && (worlds[n + 1].creators[c] == Crashed ==>
                  forall x :: x in worlds[n].tables.intents ==> PendingKey(worlds[n].tables.intents[x]) != key)
  {
    WorldRunKeepsInv(worlds, moves, s, start, n);
    var clock := if n == 0 then start else moves[n - 1].1;
    var w, m := worlds[n], moves[n].0;
    assert WorldTransition(w, m, worlds[n + 1], s, clock, moves[n].1);
    var key := PendingKey(w.creators[m.creator].draft);
    hide WorldInv, WorldRun, ReuseOrRefresh;
    forall x | x in w.tables.intents && PendingKey(w.tables.intents[x]) == key
      ensures worlds[n + 1].creators[m.creator] == Returned(x)
    {
      LoserReturnsWinner(w, m, s, clock, moves[n].1, x);
    }
  }

  // ---- The plan the buyer chose ----

  /** A checkout is fulfilled under the plan it was started for, as long as that plan is active,
      whether it is found by its code column or, on an older row, through its order id. */
  lemma FulfilledUnderChosenPlan(t: Tables, r: Request, now: Time, plans: seq<Plan>, legacy: bool)
    requires Draft(t, r, now).Some? && r.product.PlanCheckout?
    requires r.product.planCode != "" && Strip(r.product.planCode) == r.product.planCode && '-' !in r.hex
    requires PlanByCode(plans, r.product.planCode).Some? && PlanByCode(plans, r.product.planCode).value.active
    ensures var d := Draft(t, r, now).value;
            var i := if legacy then d.(planCode := None) else d;
            && ResolvePlan(plans, i) == PlanByCode(plans, r.product.planCode)
            && (d.intervalDays.value > 0 ==>
                  BillingIntervalDays(i, ResolvePlan(plans, i).value) ==
                    PlanByCode(t.plans, r.product.planCode).value.days)
  {
    OrderIdRoundTrip(r.product.planCode, r.hex);
    hide PlanCodeFromOrderId, PricedAt, ActivePlans, Strip, PlanByCode, OrderId;
    assert Draft(t, r, now).value.orderId == "sub-" + r.product.planCode + "-" + r.hex by { SubOrderId(r); }
  }

  lemma SubOrderId(r: Request)
    ensures r.product.PlanCheckout? ==> OrderId(r) == "sub-" + r.product.planCode + "-" + r.hex
  {
  }
}
