/** Entitlement checks, and what the billing steps do to them. */
module BillingAccess {
  import opened Options
  import opened BillingTables
  import opened BillingInvariant
  import opened BillingSteps
  import opened BillingRuns

  datatype Viewer = SignedIn(user: UserId, admin: bool) | Anonymous(guest: Option<GuestId>)

  function BuyerOf(v: Viewer): Option<Buyer> {
    match v
    case SignedIn(u, _) => Some(User(u))
    case Anonymous(g) => if g.Some? then Some(Guest(g.value)) else None
  }

  predicate MovieIsFree(x: Content) {
    x.free || x.price.None? || x.price.value <= 0
  }

  ghost predicate HasSeriesPurchase(t: Tables, v: Viewer, x: SeriesId) {
    match v
    case SignedIn(u, _) => OwnsSeries(t, User(u), x)
    case Anonymous(g) => g.Some? && OwnsSeries(t, Guest(g.value), x)
  }

  /** The entitlement decision for a loaded title, in the order the service takes it. */
  ghost predicate CanAccess(t: Tables, v: Viewer, c: ContentId, at: Time)
    requires c in t.contents
  {
    var x := t.contents[c];
    if v.SignedIn? && v.admin then true
    else if !x.published then false
    else if x.free then true
    else
      match x.typ
      case Movie =>
        if MovieIsFree(x) || c in t.freeToday then true
        else (
          match v
          case SignedIn(u, _) => HasActiveSubscription(t, u, at) || OwnsMovie(t, User(u), c)
          case Anonymous(g) => g.Some? && OwnsMovie(t, Guest(g.value), c))
      case Episode =>
        x.seriesId.Some? && ((v.SignedIn? && HasActiveSubscription(t, v.user, at)) ||
                             HasSeriesPurchase(t, v, x.seriesId.value))
      case Podcast => v.SignedIn? && HasActiveSubscription(t, v.user, at)
  }

  /** What a buyer has paid for: a subscription that still runs, or a receipt for the title. */
  ghost predicate Entitled(t: Tables, b: Buyer, c: ContentId, at: Time)
    requires c in t.contents
  {
    var x := t.contents[c];
    match x.typ
    case Movie => Subscribed(t, b, at) || OwnsMovie(t, b, c)
    case Episode => x.seriesId.Some? && (Subscribed(t, b, at) || OwnsSeries(t, b, x.seriesId.value))
    case Podcast => Subscribed(t, b, at)
  }

  predicate Subscribed(t: Tables, b: Buyer, at: Time) {
    b.User? && HasActiveSubscription(t, b.userId, at)
  }

  predicate FreeForAll(t: Tables, c: ContentId)
    requires c in t.contents
  {
    t.contents[c].free || (t.contents[c].typ == Movie && (MovieIsFree(t.contents[c]) || c in t.freeToday))
  }

  /** Access is administration, or publication together with a free title or something paid for. */
  lemma AccessMeans(t: Tables, v: Viewer, c: ContentId, at: Time)
    requires c in t.contents
    ensures CanAccess(t, v, c, at) <==>
              || (v.SignedIn? && v.admin)
              || (t.contents[c].published
                  && (FreeForAll(t, c) || (BuyerOf(v).Some? && Entitled(t, BuyerOf(v).value, c, at))))
  {
  }

  /** The viewer's own row is active and has not ended. */
  predicate RunningSubscription(t: Tables, v: Viewer, at: Time) {
    v.SignedIn? && v.user in t.subscriptions && t.subscriptions[v.user].active && at < t.subscriptions[v.user].end
  }

  predicate Is(v: Viewer, b: Buyer) {
    match b
    case User(u) => v.SignedIn? && v.user == u
    case Guest(g) => v.Anonymous? && v.guest == Some(g)
  }

  ghost predicate HasMovieReceipt(t: Tables, v: Viewer, c: ContentId) {
    exists j :: j in t.purchases && Is(v, t.purchases[j].buyer) && t.purchases[j].contentId == c
  }

  ghost predicate HasSeriesReceipt(t: Tables, v: Viewer, x: SeriesId) {
    exists j :: j in t.seriesPurchases && Is(v, t.seriesPurchases[j].buyer) && t.seriesPurchases[j].seriesId == x
  }

  /** A movie opens to administrators; a published one to everyone if it is marked free, has no price above zero or
      is free today; else to a subscriber and to whoever holds a receipt for it. */
  lemma MovieAccess(t: Tables, v: Viewer, c: ContentId, at: Time)
    requires c in t.contents && t.contents[c].typ == Movie
    ensures var x := t.contents[c];
            CanAccess(t, v, c, at) <==>
              || (v.SignedIn? && v.admin)
              || (x.published && (x.free || c in t.freeToday || !(x.price.Some? && x.price.value > 0)))
              || (x.published && (RunningSubscription(t, v, at) || HasMovieReceipt(t, v, c)))
  {
  }

  /** An episode that is not free opens by a subscription or a receipt for its series, a podcast by a subscription
      only; unpublished ones open to administrators alone. */
  lemma EpisodeAndPodcastAccess(t: Tables, v: Viewer, c: ContentId, at: Time)
    requires c in t.contents && t.contents[c].typ != Movie
    ensures var x := t.contents[c];
            CanAccess(t, v, c, at) <==>
              || (v.SignedIn? && v.admin)
              || (x.published && x.free)
              || (x.published && x.typ == Podcast && RunningSubscription(t, v, at))
              || (x.published && x.typ == Episode && x.seriesId.Some? &&
                  (RunningSubscription(t, v, at) || HasSeriesReceipt(t, v, x.seriesId.value)))
  {
  }

  /** Paying for a published movie, or for the series of a published episode, opens it to the buyer. */
  lemma FulfilGrantsAccess(t: Tables, id: IntentId, v: Viewer, c: ContentId, clock: Time, now: Time, bank: string,
                           at: Time)
    requires Core(t, clock) && id in t.intents && t.intents[id].status != Succeeded
    requires BuyerOf(v) == Some(t.intents[id].buyer)
    requires c in t.contents && t.contents[c].published
    requires || (t.contents[c].typ == Movie && t.intents[id].kind == Single && t.intents[id].contentId == Some(c))
             || (t.contents[c].typ == Episode && t.intents[id].kind == Series && t.intents[id].seriesId.Some?
                 && t.contents[c].seriesId == t.intents[id].seriesId)
    ensures var o := Fulfil(t, id, now, bank);
            o.Done? && c in o.tables.contents && CanAccess(o.tables, v, c, at)
  {
    NoReceiptYet(t, id);
    hide Core, ReceiptsComplete;
    var t1 := Resolve(t, id, Succeeded, Some(now));
    var t' := Fulfil(t, id, now, bank).tables;
    if t.contents[c].typ == Movie {
      assert id in t'.purchases && t'.purchases[id].contentId == c && t'.purchases[id].buyer == t.intents[id].buyer;
      assert OwnsMovie(t', t.intents[id].buyer, c);
    } else {
      assert id in t'.seriesPurchases && t'.seriesPurchases[id].buyer == t.intents[id].buyer;
      assert OwnsSeries(t', t.intents[id].buyer, t.contents[c].seriesId.value);
    }
    AccessMeans(t', v, c, at);
    hide CanAccess;
  }

  /** And a subscription payment opens every published title for the whole of the bought interval. */
  lemma SubscriptionGrantsAccess(t: Tables, id: IntentId, u: UserId, c: ContentId, clock: Time, now: Time, bank: string,
                                 at: Time)
    requires Core(t, clock) && id in t.intents && t.intents[id].status != Succeeded
    requires t.intents[id].kind == Sub && t.intents[id].buyer == User(u) && !NoActivePlan(t)
    requires c in t.contents && t.contents[c].published
    requires t.contents[c].typ == Episode ==> t.contents[c].seriesId.Some?
    requires at < now + IntervalSeconds(t, id)
    ensures var o := Fulfil(t, id, now, bank);
            o.Done? && c in o.tables.contents && CanAccess(o.tables, SignedIn(u, false), c, at)
  {
    NoReceiptYet(t, id);
    assert Shaped(t.intents[id]);
    hide Core, ReceiptsComplete;
    var t1 := Resolve(t, id, Succeeded, Some(now));
    ResolvedPlanExists(t1.plans, t1.intents[id]);
    hide ResolvePlan;
    var t' := Fulfil(t, id, now, bank).tables;
    assert HasActiveSubscription(t', u, at);
    AccessMeans(t', SignedIn(u, false), c, at);
    hide CanAccess;
  }

  // ---- Access persists ----

  /** Nothing bought is taken away: receipts keep their buyer and title, subscriptions keep their end. */
  ghost predicate Keeps(t: Tables, t': Tables) {
    && (forall j :: j in t.purchases ==> j in t'.purchases && t'.purchases[j] == t.purchases[j])
    && (forall j :: j in t.seriesPurchases ==> j in t'.seriesPurchases && t'.seriesPurchases[j] == t.seriesPurchases[j])
    && SubscriptionsGrow(t, t')
  }

  ghost predicate SubscriptionsGrow(t: Tables, t': Tables) {
    forall u :: u in t.subscriptions && t.subscriptions[u].active ==>
      u in t'.subscriptions && t'.subscriptions[u].active && t'.subscriptions[u].end >= t.subscriptions[u].end
  }

  lemma FulfilKeeps(t: Tables, id: IntentId, now: Time, bank: string)
    requires AllShaped(t)
    ensures var o := Fulfil(t, id, now, bank); Keeps(t, if o.Done? then o.tables else o.dirty)
  {
    if id in t.intents && t.intents[id].status != Succeeded {
      var t1 := Resolve(t, id, Succeeded, Some(now));
      assert Shaped(t.intents[id]);
      RecordKeepsSubscriptions(t1, id, now, bank);
      if Record(t1, id, now, bank).Done? {
        RecordKeepsReceipts(t1, id, now, bank);
      }
      hide Record;
    }
  }

  lemma RecordKeepsSubscriptions(t: Tables, id: IntentId, now: Time, bank: string)
    requires id in t.intents
    requires t.intents[id].kind == Sub ==> t.intents[id].intervalDays.Some? && t.intents[id].intervalDays.value > 0
    ensures var o := Record(t, id, now, bank); SubscriptionsGrow(t, if o.Done? then o.tables else o.dirty)
  {
    hide ResolvePlan;
  }

  lemma SettleKeeps(t: Tables, id: IntentId, s: Settings, now: Time, p: Probes)
    requires AllShaped(t) && id in t.intents
    ensures var r := SettleIfPaid(t, id, s, now, p);
            var t' := match r case Yes(x) => x case Failed(x) => x case No => t;
            Keeps(t, t') && t'.contents == t.contents
  {
    FulfilKeeps(t, id, now, "bakong");
    FulfilKeepsCatalog(t, id, now, "bakong");
    hide Fulfil, Md5sPaid;
  }

  lemma FulfilKeepsCatalog(t: Tables, id: IntentId, now: Time, bank: string)
    ensures var o := Fulfil(t, id, now, bank);
            var t' := if o.Done? then o.tables else o.dirty;
            t'.contents == t.contents && t'.plans == t.plans
  {
    if id in t.intents && t.intents[id].status != Succeeded {
      var t1 := Resolve(t, id, Succeeded, Some(now));
      if Record(t1, id, now, bank).Done? {
        RecordKeepsPlans(t1, id, now, bank);
      }
      hide Record;
    }
  }

  lemma KeepsTransitive(a: Tables, b: Tables, c: Tables)
    requires Keeps(a, b) && Keeps(b, c)
    ensures Keeps(a, c)
  {
  }

  lemma {:induction false} AuthorizeKeeps(t: Tables, rows: seq<IntentId>, s: Settings, now: Time, ps: seq<Probes>)
    requires AllShaped(t) && |ps| == |rows| && forall id <- rows :: id in t.intents
    ensures var t' := Authorize(t, rows, s, now, ps); Keeps(t, t') && t'.contents == t.contents
    decreases |rows|
  {
    hide SettleIfPaid, AllShaped;
    if rows != [] {
      SettleKeeps(t, rows[0], s, now, ps[0]);
      AuthorizeKeeps(t, rows[1..], s, now, ps[1..]);
    }
  }

  /** The rows of a sweep keep the shape of every intent, even one left half fulfilled. */
  lemma SettleShapes(t: Tables, id: IntentId, s: Settings, now: Time, p: Probes)
    requires AllShaped(t) && id in t.intents
    ensures var r := SettleIfPaid(t, id, s, now, p);
            var t' := match r case Yes(x) => x case Failed(x) => x case No => t;
            AllShaped(t') && t'.intents.Keys == t.intents.Keys
  {
    FulfilTouchesOnly(t, id, now, "bakong");
    if t.intents[id].status != Succeeded {
      ResolveKeepsShapes(t, id, Succeeded, now);
    }
    if Fulfil(t, id, now, "bakong").Done? {
      FulfilShapes(t, id, now, "bakong");
    }
    hide Record, Md5sPaid;
  }

  lemma {:induction false} SweepKeeps(w: Sweeping, batch: seq<IntentId>, s: Settings, now: Time, ins: seq<SweepInput>)
    requires AllShaped(w.tables) && |ins| == |batch| && forall id <- batch :: id in w.tables.intents
    ensures var t' := SweepFrom(w, batch, s, now, ins).tables;
            Keeps(w.tables, t') && t'.contents == w.tables.contents
    decreases |batch|
  {
    hide SettleIfPaid, AllShaped, Keeps;
    KeepsItself(w.tables);
    if batch != [] && !SweepStops(w.tables.intents[batch[0]], ins[0]) {
      SettleKeeps(w.tables, batch[0], s, now, ins[0].settle);
      SettleShapes(w.tables, batch[0], s, now, ins[0].settle);
      var w' := SweepOne(w, batch[0], s, now, ins[0]);
      SweepKeeps(w', batch[1..], s, now, ins[1..]);
      KeepsTransitive(w.tables, w'.tables, SweepFrom(w', batch[1..], s, now, ins[1..]).tables);
    }
  }

  lemma KeepsItself(t: Tables)
    ensures Keeps(t, t)
  {
  }

  /** Every step but a deletion, a catalogue edit or a claim keeps what was bought. */
  lemma StepKeeps(t: Tables, e: Event, s: Settings, now: Time)
    requires AllShaped(t) && Enabled(t, e)
    requires !e.ClaimCall? && !e.ContentDeleted? && !e.SeriesDeleted? && !e.CatalogEdited?
    ensures Keeps(t, Step(t, e, s, now)) && Step(t, e, s, now).contents == t.contents
  {
    hide AllShaped, SettleIfPaid, Fulfil, AlreadyOwned, UniquePending, Keeps, Authorize, SweepFrom, Md5sPaid,
         SettleSibling, NewestSibling;
    KeepsItself(t);
    match e
    case Insert(id, d) => SameReceipts(t, Step(t, e, s, now));
    case FulfilCall(id, bank) =>
      FulfilKeeps(t, id, now, bank);
      FulfilKeepsCatalog(t, id, now, bank);
    case Reuse(id, check, a) => ReuseKeeps(t, id, check, s, now, a);
    case PollCall(id, a) => PollKeeps(t, id, s, now, a);
    case AuthorizeCall(_, _, rows, ps) => AuthorizeKeeps(t, rows, s, now, ps);
    case SweepCall(batch, ins) => SweepKeeps(Sweeping(t, 0), batch, s, now, ins);
    case PlansEdited(ps) => SameReceipts(t, Step(t, e, s, now));
  }

  lemma SameReceipts(t: Tables, t': Tables)
    requires t'.purchases == t.purchases && t'.seriesPurchases == t.seriesPurchases
    requires t'.subscriptions == t.subscriptions
    ensures Keeps(t, t')
  {
  }

  lemma ReuseKeeps(t: Tables, id: IntentId, check: bool, s: Settings, now: Time, a: RefreshInput)
    requires AllShaped(t) && id in t.intents
    ensures var t' := ReuseOrRefresh(t, id, check, s, now, a); Keeps(t, t') && t'.contents == t.contents
  {
    hide AllShaped, SettleIfPaid, AlreadyOwned, Keeps, ConfirmedUnpaid, QrIsStale;
    KeepsItself(t);
    SettleKeeps(t, id, s, now, a.settle);
    SameReceipts(t, Resolve(t, id, Superseded, Some(now)));
    if a.khqr.Some? {
      SameReceipts(t, Regenerate(t, id, a.khqr.value, now));
    }
  }

  lemma PollKeeps(t: Tables, id: IntentId, s: Settings, now: Time, a: PollInput)
    requires AllShaped(t) && id in t.intents && NewestSibling(t, id, a.sibling)
    ensures var t' := Poll(t, id, s, now, a); Keeps(t, t') && t'.contents == t.contents
  {
    hide AllShaped, SettleIfPaid, AlreadyOwned, Keeps, IsSibling, SettleSibling;
    KeepsItself(t);
    SettleKeeps(t, id, s, now, a.own);
    SameReceipts(t, Resolve(t, id, Superseded, Some(now)));
    if a.sibling.Some? {
      assert IsSibling(t, id, a.sibling.value);
      SiblingIn(t, id, a.sibling.value);
      SiblingKeeps(t, id, a.sibling.value, s, now, a.siblingProbes);
    }
    hide NewestSibling;
  }

  lemma SiblingKeeps(t: Tables, id: IntentId, o: IntentId, s: Settings, now: Time, p: Probes)
    requires AllShaped(t) && id in t.intents && o in t.intents
    ensures var t' := SettleSibling(t, id, o, s, now, p); Keeps(t, t') && t'.contents == t.contents
  {
    hide AllShaped, SettleIfPaid, Keeps;
    KeepsItself(t);
    SettleKeeps(t, o, s, now, p);
    SettleTouchesOnly(t, o, s, now, p);
    match SettleIfPaid(t, o, s, now, p)
    case Yes(t') =>
      var t'' := Resolve(t', id, Superseded, t'.intents[o].resolvedAt);
      SameReceipts(t', t'');
      KeepsTransitive(t, t', t'');
    case Failed(_) =>
    case No =>
  }

  lemma KeepsEntitlement(t: Tables, t': Tables, b: Buyer, c: ContentId, at: Time)
    requires Keeps(t, t') && c in t.contents && c in t'.contents && Entitled(t, b, c, at)
    requires SameTitle(t, t', c)
    ensures Entitled(t', b, c, at)
  {
  }

  /** The title is still there, of the same type and in the same series. */
  predicate SameTitle(t: Tables, t': Tables, c: ContentId) {
    c in t.contents && c in t'.contents && t'.contents[c].typ == t.contents[c].typ
    && t'.contents[c].seriesId == t.contents[c].seriesId
  }

  /** Deleting other titles, or editing the catalogue, leaves a title's receipts alone. */
  lemma DeletionKeepsEntitlement(t: Tables, e: Event, s: Settings, now: Time, b: Buyer, c: ContentId, at: Time)
    requires Enabled(t, e) && (e.ContentDeleted? || e.SeriesDeleted? || e.CatalogEdited?)
    requires SameTitle(t, Step(t, e, s, now), c) && Entitled(t, b, c, at)
    ensures Entitled(Step(t, e, s, now), b, c, at)
  {
    var t' := Step(t, e, s, now);
    if OwnsMovie(t, b, c) {
      var j :| j in t.purchases && t.purchases[j].buyer == b && t.purchases[j].contentId == c;
      assert j in t'.purchases;
    }
    if t.contents[c].seriesId.Some? && OwnsSeries(t, b, t.contents[c].seriesId.value) {
      var x := t.contents[c].seriesId.value;
      var j :| j in t.seriesPurchases && t.seriesPurchases[j].buyer == b && t.seriesPurchases[j].seriesId == x;
      assert j in t'.seriesPurchases;
    }
  }

  /** A claim gives the account everything the guest owned, and takes nothing from it. */
  lemma ClaimUnitesAccess(t: Tables, g: GuestId, u: UserId, c: ContentId, at: Time)
    requires c in t.contents
    ensures var t' := Claimed(t, g, u);
            && t'.contents == t.contents
            && (Entitled(t', User(u), c, at) <==> Entitled(t, User(u), c, at) || Entitled(t, Guest(g), c, at))
            && !OwnsMovie(t', Guest(g), c)
            && (forall b :: b != User(u) && b != Guest(g) ==> (Entitled(t', b, c, at) <==> Entitled(t, b, c, at)))
  {
    var t' := Claimed(t, g, u);
    ClaimedOwners(t, g, u, c);
    forall b | b != User(u) && b != Guest(g)
      ensures Entitled(t', b, c, at) <==> Entitled(t, b, c, at)
    {
      ClaimedOthers(t, g, u, b, c);
    }
  }

  lemma ClaimedOwners(t: Tables, g: GuestId, u: UserId, c: ContentId)
    ensures var t' := Claimed(t, g, u);
            && (OwnsMovie(t', User(u), c) <==> OwnsMovie(t, User(u), c) || OwnsMovie(t, Guest(g), c))
            && (forall x :: OwnsSeries(t', User(u), x) <==> OwnsSeries(t, User(u), x) || OwnsSeries(t, Guest(g), x))
            && !OwnsMovie(t', Guest(g), c)
  {
    var t' := Claimed(t, g, u);
    if OwnsMovie(t, User(u), c) || OwnsMovie(t, Guest(g), c) {
      var j :| j in t.purchases && (t.purchases[j].buyer == User(u) || t.purchases[j].buyer == Guest(g)) &&
               t.purchases[j].contentId == c;
      assert j in t'.purchases && t'.purchases[j].buyer == User(u);
    }
    forall x
      ensures OwnsSeries(t', User(u), x) <==> OwnsSeries(t, User(u), x) || OwnsSeries(t, Guest(g), x)
    {
      if OwnsSeries(t, User(u), x) || OwnsSeries(t, Guest(g), x) {
        var j :| j in t.seriesPurchases &&
          (t.seriesPurchases[j].buyer == User(u) || t.seriesPurchases[j].buyer == Guest(g)) &&
                 t.seriesPurchases[j].seriesId == x;
        assert j in t'.seriesPurchases && t'.seriesPurchases[j].buyer == User(u);
      }
    }
  }

  lemma ClaimedOthers(t: Tables, g: GuestId, u: UserId, b: Buyer, c: ContentId)
    requires b != User(u) && b != Guest(g)
    ensures var t' := Claimed(t, g, u);
            && (OwnsMovie(t', b, c) <==> OwnsMovie(t, b, c))
            && (forall x :: OwnsSeries(t', b, x) <==> OwnsSeries(t, b, x))
  {
    var t' := Claimed(t, g, u);
    if OwnsMovie(t, b, c) {
      var j :| j in t.purchases && t.purchases[j].buyer == b && t.purchases[j].contentId == c;
      assert j in t'.purchases;
    }
    forall x
      ensures OwnsSeries(t', b, x) <==> OwnsSeries(t, b, x)
    {
      if OwnsSeries(t, b, x) {
        var j :| j in t.seriesPurchases && t.seriesPurchases[j].buyer == b && t.seriesPurchases[j].seriesId == x;
        assert j in t'.seriesPurchases;
      }
    }
  }

  /** A claim changes no receipt but for its buyer. */
  lemma ClaimConservesReceipts(t: Tables, g: GuestId, u: UserId)
    ensures var t' := Claim(t, g, u);
            && t'.purchases.Keys == t.purchases.Keys && t'.seriesPurchases.Keys == t.seriesPurchases.Keys
            && t'.subPayments == t.subPayments && t'.subscriptions == t.subscriptions
            && (forall j :: j in t.purchases ==>
                  t'.purchases[j] == t.purchases[j].(buyer := t'.purchases[j].buyer))
            && (forall j :: j in t.seriesPurchases ==>
                  t'.seriesPurchases[j] == t.seriesPurchases[j].(buyer := t'.seriesPurchases[j].buyer))
            && t'.intents.Keys == t.intents.Keys
            && (forall j :: j in t.intents ==> t'.intents[j] == t.intents[j].(buyer := t'.intents[j].buyer))
  {
    hide UniquePending;
  }

  /** The claim of the step is accepted: it breaks no unique pending entry. */
  predicate Moves(t: Tables, e: Event, b: Buyer) {
    e.ClaimCall? && b == Guest(e.guest) && UniquePending(Claimed(t, e.guest, e.user).intents)
  }

  /** Who holds b's purchases after a step. */
  function HeirOf(t: Tables, e: Event, b: Buyer): Buyer {
    if Moves(t, e, b) then User(e.user) else b
  }

  lemma ClaimKeepsEntitlement(t: Tables, e: Event, b: Buyer, c: ContentId, at: Time)
    requires e.ClaimCall? && c in t.contents && Entitled(t, b, c, at)
    ensures c in Claim(t, e.guest, e.user).contents
    ensures Entitled(Claim(t, e.guest, e.user), HeirOf(t, e, b), c, at)
  {
    hide Entitled, UniquePending;
    ClaimUnitesAccess(t, e.guest, e.user, c, at);
    hide Claimed;
  }

  /** One step keeps a title paid for, in the hands of the buyer or of the account whose claim it accepts. */
  lemma StepKeepsEntitlement(t: Tables, e: Event, s: Settings, now: Time, b: Buyer, c: ContentId, at: Time)
    requires AllShaped(t) && Enabled(t, e)
    requires SameTitle(t, Step(t, e, s, now), c) && Entitled(t, b, c, at)
    ensures Entitled(Step(t, e, s, now), HeirOf(t, e, b), c, at)
  {
    hide AllShaped, Enabled, Entitled;
    if e.ClaimCall? {
      ClaimKeepsEntitlement(t, e, b, c, at);
      hide Claim, HeirOf;
    } else if e.ContentDeleted? || e.SeriesDeleted? || e.CatalogEdited? {
      DeletionKeepsEntitlement(t, e, s, now, b, c, at);
      hide Step;
    } else {
      StepKeeps(t, e, s, now);
      hide Step;
      KeepsEntitlement(t, Step(t, e, s, now), b, c, at);
    }
  }

  /** Who holds at state n what b had bought at state k. */
  function HolderOf(states: seq<Tables>, ticks: seq<Tick>, k: nat, n: nat, b: Buyer): Buyer
    requires |states| == |ticks| + 1 && k <= n < |states|
  {
    if n == k then b else HeirOf(states[n - 1], ticks[n - 1].event, HolderOf(states, ticks, k, n - 1, b))
  }

  /** Step j is the first accepted claim of b's purchases from step k on. */
  predicate FirstMove(states: seq<Tables>, ticks: seq<Tick>, k: nat, j: nat, b: Buyer)
    requires |states| == |ticks| + 1 && k <= j < |ticks|
  {
    Moves(states[j], ticks[j].event, b) && forall i :: k <= i < j ==> !Moves(states[i], ticks[i].event, b)
  }

  /** A user keeps what he bought; a guest's purchases are the guest's until the first accepted claim of that
      guest, and the claiming account's ever after. */
  lemma {:induction false} HolderIsFirstClaimer(states: seq<Tables>, ticks: seq<Tick>, k: nat, n: nat, b: Buyer)
    requires |states| == |ticks| + 1 && k <= n < |states|
    ensures b.User? ==> HolderOf(states, ticks, k, n, b) == b
    ensures (forall i :: k <= i < n ==> !Moves(states[i], ticks[i].event, b)) ==> HolderOf(states, ticks, k, n, b) == b
    ensures forall j :: k <= j < n && FirstMove(states, ticks, k, j, b) ==>
              HolderOf(states, ticks, k, n, b) == User(ticks[j].event.user)
  {
    hide UniquePending, Claimed;
    if k < n {
      HolderIsFirstClaimer(states, ticks, k, n - 1, b);
    }
  }

  /** Over any run, what a buyer has paid for at time `at` stays paid for while the title exists, in the hands of
      the buyer or of the account of the first accepted claim. */
  lemma {:induction false} PaidAccessPersists(states: seq<Tables>, ticks: seq<Tick>, s: Settings, start: Time,
                                              k: nat, n: nat, b: Buyer, c: ContentId, at: Time)
    requires Run(states, ticks, s, start) && Core(states[0], start)
    requires k <= n < |states| && c in states[k].contents && Entitled(states[k], b, c, at)
    requires forall j :: k <= j < n ==> SameTitle(states[j], states[j + 1], c)
    ensures c in states[n].contents
    ensures Entitled(states[n], HolderOf(states, ticks, k, n, b), c, at)
  {
    hide Core, Step, Enabled, Entitled, HeirOf;
    if k < n {
      PaidAccessPersists(states, ticks, s, start, k, n - 1, b, c, at);
      var t, e := states[n - 1], ticks[n - 1].event;
      assert SameTitle(states[n - 1], states[n - 1 + 1], c);
      assert Transition(t, ticks[n - 1], states[n], s, ClockAt(ticks, start, n - 1));
      RunKeepsCore(states, ticks, s, start, n - 1);
      ShapesOf(t, ClockAt(ticks, start, n - 1));
      StepKeepsEntitlement(t, e, s, ticks[n - 1].now, HolderOf(states, ticks, k, n - 1, b), c, at);
    }
  }

  lemma ShapesOf(t: Tables, clock: Time)
    requires Core(t, clock)
    ensures AllShaped(t)
  {
  }
}
