/**
 The billing tables and the steps that change them, on values.

 A step is one committed transaction.  Answers of the Bakong network are inputs of
 the step, and an exception that ends a request leaves the tables as they were.
 */
module BillingTables {
  import opened Options
  import opened Text

  type UserId = nat
  type GuestId = nat
  type IntentId = nat
  type ContentId = nat
  type SeriesId = nat
  type Md5 = nat
  type Time = int   // seconds
  type Cents = int

  const SECONDS_PER_DAY: int := 86_400
  const MIN_PAID_CENTS: Cents := 3
  const SERIES_UNLOCK_CENTS: Cents := 250

  datatype Buyer = User(userId: UserId) | Guest(guestId: GuestId)
  datatype Kind = Single | Series | Sub
  datatype Status = Pending | Succeeded | Superseded

  datatype Intent = Intent(
    buyer: Buyer,
    kind: Kind,
    contentId: Option<ContentId>,
    seriesId: Option<SeriesId>,
    planCode: Option<string>,
    intervalDays: Option<int>,
    orderId: string,
    amount: Cents,
    md5: Option<Md5>,
    prevMd5: Option<Md5>,
    qrCreatedAt: Option<Time>,
    createdAt: Time,
    status: Status,
    resolvedAt: Option<Time>)

  datatype Purchase = Purchase(buyer: Buyer, contentId: ContentId, orderId: string, bank: string, amount: Cents)
  datatype SeriesPurchase =
    SeriesPurchase(buyer: Buyer, seriesId: SeriesId, orderId: string, bank: string, amount: Cents)
  datatype Subscription = Subscription(plan: string, active: bool, start: Time, end: Time)
  datatype SubPayment =
    SubPayment(userId: UserId, orderId: string, bank: string, amount: Cents, extendedTo: Time)
  datatype Plan = Plan(code: string, price: Cents, days: int, active: bool)
  datatype ContentType = Movie | Episode | Podcast
  datatype Content = Content(
    typ: ContentType, published: bool, free: bool, price: Option<Cents>, seriesId: Option<SeriesId>)

  /** The period one fulfilled subscription intent paid for.  Kept as history: no step reads it. */
  datatype Grant = Grant(intentId: IntentId, start: Time, end: Time)

  /** `plans` is in catalogue order; receipts are keyed by their unique intent_id,
      subscriptions by their unique user_id. */
  datatype Tables = Tables(
    intents: map<IntentId, Intent>,
    purchases: map<IntentId, Purchase>,
    seriesPurchases: map<IntentId, SeriesPurchase>,
    subscriptions: map<UserId, Subscription>,
    subPayments: map<IntentId, SubPayment>,
    plans: seq<Plan>,
    contents: map<ContentId, Content>,
    series: set<SeriesId>,
    freeToday: set<ContentId>,
    grants: map<UserId, seq<Grant>>)

  datatype Settings = Settings(nbc: bool, qrTtl: Time)

  // ---- Plan resolution ----

  /** `sub-<plan code>-<hex>`: the code is everything before the last dash. */
  function PlanCodeFromOrderId(orderId: string): Option<string> {
    if !("sub-" <= orderId) then None
    else
      var rest := orderId[4..];
      match LastIndexOf(rest, '-')
      case None => None
      case Some(k) => if k == 0 then None else Some(rest[..k])
  }

  function PlanByCode(plans: seq<Plan>, code: string): Option<Plan> {
    if plans == [] then None
    else if plans[0].code == code then Some(plans[0])
    else PlanByCode(plans[1..], code)
  }

  function ActivePlans(plans: seq<Plan>): seq<Plan> {
    if plans == [] then []
    else (if plans[0].active then [plans[0]] else []) + ActivePlans(plans[1..])
  }

  function PricedAt(plans: seq<Plan>, amount: Cents): seq<Plan> {
    if plans == [] then []
    else (if plans[0].price == amount then [plans[0]] else []) + PricedAt(plans[1..], amount)
  }

  /** The first plan of the longest duration, as Python's max picks it. */
  function LongestPlan(plans: seq<Plan>): (p: Plan)
    requires plans != []
    ensures p in plans && forall q <- plans :: q.days <= p.days
  {
    if |plans| == 1 then plans[0]
    else
      var p := LongestPlan(plans[..|plans| - 1]);
      var last := plans[|plans| - 1];
      assert plans == plans[..|plans| - 1] + [last];
      if last.days > p.days then last else p
  }

  function CodedPlan(i: Intent): Option<string> {
    var code := if i.planCode.Some? then Strip(i.planCode.value) else "";
    if code != "" then Some(code) else PlanCodeFromOrderId(i.orderId)
  }

  function ResolvePlan(plans: seq<Plan>, i: Intent): Option<Plan> {
    var coded := CodedPlan(i);
    var byCode := if coded.Some? then PlanByCode(plans, coded.value) else None;
    if byCode.Some? && byCode.value.active then byCode
    else
      var matches := PricedAt(ActivePlans(plans), i.amount);
      if matches != [] then Some(LongestPlan(matches))
      else if ActivePlans(plans) == [] then None
      else Some(ActivePlans(plans)[0])
  }

  function BillingIntervalDays(i: Intent, plan: Plan): int {
    if i.intervalDays.Some? && i.intervalDays.value > 0 then i.intervalDays.value else plan.days
  }

  // ---- Fulfilment ----

  /** A raised exception leaves the session's uncommitted changes in `dirty`. */
  datatype Outcome = Done(tables: Tables) | Raised(dirty: Tables)

  function Resolve(t: Tables, id: IntentId, status: Status, at: Option<Time>): Tables
    requires id in t.intents
  {
    t.(intents := t.intents[id := t.intents[id].(status := status, resolvedAt := at)])
  }

  function GrantsOf(t: Tables, u: UserId): seq<Grant> {
    if u in t.grants then t.grants[u] else []
  }

  function Extend(t: Tables, id: IntentId, u: UserId, plan: Plan, now: Time, bank: string): Tables
    requires id in t.intents
  {
    var i := t.intents[id];
    var prior := if u in t.subscriptions then Some(t.subscriptions[u]) else None;
    var start := if prior.Some? && prior.value.end > now then prior.value.end else now;
    var end := start + BillingIntervalDays(i, plan) * SECONDS_PER_DAY;
    var blockStart := if prior.Some? && prior.value.end > now then prior.value.start else now;
    t.(subscriptions := t.subscriptions[u := Subscription(plan.code, true, blockStart, end)],
       subPayments := t.subPayments[id := SubPayment(u, i.orderId, bank, i.amount, end)],
       grants := t.grants[u := GrantsOf(t, u) + [Grant(id, start, end)]])
  }

  function Fulfil(t: Tables, id: IntentId, now: Time, bank: string): (o: Outcome)
    ensures o.Done? ==> o.tables.intents.Keys == t.intents.Keys
    ensures o.Raised? ==> o.dirty.intents.Keys == t.intents.Keys
  {
    if id !in t.intents || t.intents[id].status == Succeeded then Done(t)
    else Record(Resolve(t, id, Succeeded, Some(now)), id, now, bank)
  }

  /** The side effect of a fulfilment, once the intent is marked succeeded. */
  function Record(t: Tables, id: IntentId, now: Time, bank: string): (o: Outcome)
    requires id in t.intents
    ensures o.Done? ==> o.tables.intents == t.intents
    ensures o.Raised? ==> o.dirty == t
  {
    match Target(t.intents[id])
    case ForMovie(c) => Done(RecordPurchase(t, id, c, bank))
    case ForSeries(x) => Done(RecordUnlock(t, id, x, bank))
    case NoTarget => Done(t)
    case ForSubscription => RecordPayment(t, id, now, bank)
  }

  datatype ReceiptKind = ForMovie(contentId: ContentId) | ForSeries(seriesId: SeriesId) | NoTarget | ForSubscription

  /** Which receipt a fulfilment writes; a title deleted before the payment leaves none. */
  function Target(i: Intent): ReceiptKind {
    if i.kind == Single && i.contentId.Some? then ForMovie(i.contentId.value)
    else if i.kind == Series && i.seriesId.Some? then ForSeries(i.seriesId.value)
    else if i.kind != Sub then NoTarget
    else ForSubscription
  }

  function RecordPurchase(t: Tables, id: IntentId, c: ContentId, bank: string): Tables
    requires id in t.intents
  {
    var i := t.intents[id];
    if id in t.purchases then t
    else t.(purchases := t.purchases[id := Purchase(i.buyer, c, i.orderId, bank, i.amount)])
  }

  function RecordUnlock(t: Tables, id: IntentId, x: SeriesId, bank: string): Tables
    requires id in t.intents
  {
    var i := t.intents[id];
    if id in t.seriesPurchases then t
    else t.(seriesPurchases := t.seriesPurchases[id := SeriesPurchase(i.buyer, x, i.orderId, bank, i.amount)])
  }

  function RecordPayment(t: Tables, id: IntentId, now: Time, bank: string): (o: Outcome)
    requires id in t.intents
    ensures o.Done? ==> o.tables.intents == t.intents
    ensures o.Raised? ==> o.dirty == t
  {
    var i := t.intents[id];
    var plan := ResolvePlan(t.plans, i);
    if id in t.subPayments then Done(t)
    else if plan.None? || i.buyer.Guest? then Raised(t)
    else Done(Extend(t, id, i.buyer.userId, plan.value, now, bank))
  }

  /** What a request that lets the exception through leaves behind. */
  function Committed(t: Tables, o: Outcome): Tables {
    if o.Done? then o.tables else t
  }

  // ---- Ownership ----

  predicate OwnsMovie(t: Tables, b: Buyer, c: ContentId) {
    exists j :: j in t.purchases && t.purchases[j].buyer == b && t.purchases[j].contentId == c
  }

  predicate OwnsSeries(t: Tables, b: Buyer, s: SeriesId) {
    exists j :: j in t.seriesPurchases && t.seriesPurchases[j].buyer == b && t.seriesPurchases[j].seriesId == s
  }

  predicate AlreadyOwned(t: Tables, i: Intent) {
    if i.kind == Series && i.seriesId.Some? then OwnsSeries(t, i.buyer, i.seriesId.value)
    else i.contentId.Some? && OwnsMovie(t, i.buyer, i.contentId.value)
  }

  // ---- Bakong answers ----

  datatype Answer = Paid | Unpaid | Unknown

  /** What the network says of the current and of the previous md5 when asked in that order. */
  datatype Probes = Probes(current: Answer, previous: Answer)

  predicate HasPrevious(i: Intent) {
    i.prevMd5.Some? && i.prevMd5 != i.md5
  }

  predicate Md5sPaid(i: Intent, s: Settings, p: Probes) {
    && s.nbc
    && i.md5.Some?
    && (p.current == Paid || (p.current == Unpaid && HasPrevious(i) && p.previous == Paid))
  }

  predicate ConfirmedUnpaid(i: Intent, s: Settings, p: Probes) {
    !s.nbc || ((i.md5.Some? ==> p.current == Unpaid) && (HasPrevious(i) ==> p.previous == Unpaid))
  }

  predicate QrIsStale(i: Intent, s: Settings, now: Time) {
    var issued := if i.qrCreatedAt.Some? then i.qrCreatedAt.value else i.createdAt;
    now - issued >= s.qrTtl
  }

  datatype Settled = Yes(tables: Tables) | No | Failed(dirty: Tables)

  function SettleIfPaid(t: Tables, id: IntentId, s: Settings, now: Time, p: Probes): Settled
    requires id in t.intents
  {
    var i := t.intents[id];
    if i.status == Succeeded then Yes(t)
    else if i.status != Pending || !s.nbc || !Md5sPaid(i, s, p) then No
    else
      match Fulfil(t, id, now, "bakong")
      case Done(t') => Yes(t')
      case Raised(dirty) => Failed(dirty)
  }

  function Regenerate(t: Tables, id: IntentId, md5: Md5, now: Time): Tables
    requires id in t.intents
  {
    var i := t.intents[id];
    t.(intents := t.intents[id := i.(prevMd5 := i.md5, md5 := Some(md5), qrCreatedAt := Some(now))])
  }

  /** `khqr` is the freshly generated md5, None when the QR service fails. */
  datatype RefreshInput = RefreshInput(settle: Probes, confirm: Probes, khqr: Option<Md5>)

  function ReuseOrRefresh(t: Tables, id: IntentId, checkOwnership: bool, s: Settings, now: Time,
                                a: RefreshInput): Tables
    requires id in t.intents
  {
    var i := t.intents[id];
    if !QrIsStale(i, s, now) then
      if checkOwnership && AlreadyOwned(t, i) then Resolve(t, id, Superseded, Some(now)) else t
    else
      match SettleIfPaid(t, id, s, now, a.settle)
      case Yes(t') => t'
      case Failed(_) => t
      case No =>
        if checkOwnership && AlreadyOwned(t, i) then Resolve(t, id, Superseded, Some(now))
        else if ConfirmedUnpaid(i, s, a.confirm) && a.khqr.Some? then Regenerate(t, id, a.khqr.value, now)
        else t
  }

  // ---- Polling ----

  predicate IsSibling(t: Tables, id: IntentId, other: IntentId) {
    && id in t.intents && other in t.intents && other != id
    && t.intents[other].kind == Single
    && t.intents[other].buyer == t.intents[id].buyer
    && t.intents[id].contentId.Some?
    && t.intents[other].contentId == t.intents[id].contentId
    && t.intents[other].status == Pending
    && t.intents[other].md5.Some?
  }

  /** The row a newest-first lookup of siblings returns; ties are broken freely. */
  ghost predicate NewestSibling(t: Tables, id: IntentId, pick: Option<IntentId>) {
    match pick
    case None => forall o :: !IsSibling(t, id, o)
    case Some(o) =>
      IsSibling(t, id, o) && forall x :: IsSibling(t, id, x) ==> t.intents[x].createdAt <= t.intents[o].createdAt
  }

  datatype PollInput =
    PollInput(blocked: bool, own: Probes, sibling: Option<IntentId>, siblingProbes: Probes)

  ghost function Poll(t: Tables, id: IntentId, s: Settings, now: Time, a: PollInput): Tables
    requires id in t.intents
    requires NewestSibling(t, id, a.sibling)
  {
    var i := t.intents[id];
    if i.status != Pending then t
    else if AlreadyOwned(t, i) then Resolve(t, id, Superseded, Some(now))
    else if !s.nbc || i.md5.None? || a.blocked then t
    else
      match SettleIfPaid(t, id, s, now, a.own)
      case Yes(t') => t'
      case Failed(_) => t
      case No =>
        if i.contentId.None? || a.sibling.None? then t
        else SettleSibling(t, id, a.sibling.value, s, now, a.siblingProbes)
  }

  /** The sibling was the paid receipt, so this intent did not collect money. */
  function SettleSibling(t: Tables, id: IntentId, sibling: IntentId, s: Settings, now: Time, p: Probes): Tables
    requires id in t.intents && sibling in t.intents
  {
    match SettleIfPaid(t, sibling, s, now, p)
    case Yes(t') => Resolve(t', id, Superseded, t'.intents[sibling].resolvedAt)
    case Failed(_) => t
    case No => t
  }

  // ---- Playback authorize ----

  /** Settle the first paid one of the buyer's (at most two) pending intents for a movie. */
  function Authorize(t: Tables, rows: seq<IntentId>, s: Settings, now: Time, ps: seq<Probes>): Tables
    requires |ps| == |rows|
    requires forall id <- rows :: id in t.intents
    decreases |rows|
  {
    if rows == [] then t
    else
      match SettleIfPaid(t, rows[0], s, now, ps[0])
      case Yes(t') => t'
      case Failed(_) => t
      case No => Authorize(t, rows[1..], s, now, ps[1..])
  }

  predicate IsBuyersPending(t: Tables, b: Buyer, c: ContentId, id: IntentId) {
    && id in t.intents && t.intents[id].buyer == b && t.intents[id].kind == Single
    && t.intents[id].contentId == Some(c) && t.intents[id].status == Pending && t.intents[id].md5.Some?
  }

  predicate BuyersPendingRows(t: Tables, b: Buyer, c: ContentId, rows: seq<IntentId>) {
    |rows| <= 2 && forall id <- rows :: IsBuyersPending(t, b, c, id)
  }

  /** What the query returns: the buyer's at most two newest pending intents for the movie, newest first. */
  ghost predicate NewestPending(t: Tables, b: Buyer, c: ContentId, rows: seq<IntentId>) {
    && BuyersPendingRows(t, b, c, rows)
    && (|rows| == 2 ==>
          IsBuyersPending(t, b, c, rows[0]) && IsBuyersPending(t, b, c, rows[1]) &&
          rows[0] != rows[1] && t.intents[rows[0]].createdAt >= t.intents[rows[1]].createdAt)
    && forall id :: IsBuyersPending(t, b, c, id) && id !in rows ==>
         |rows| == 2 && t.intents[id].createdAt <= t.intents[rows[1]].createdAt
  }

  // ---- Sweeper ----

  /** One row of a sweep: the breaker state before it, whether the first probe raised,
      the two probes of the loop and the two probes of the settle call. */
  datatype SweepInput = SweepInput(blocked: bool, raised: bool, loop: Probes, settle: Probes)

  datatype Sweeping = Sweeping(tables: Tables, settled: nat)

  predicate SweepStops(i: Intent, a: SweepInput) {
    a.blocked ||
    (!a.raised && (a.loop.current == Unknown ||
                   (a.loop.current == Unpaid && HasPrevious(i) && a.loop.previous == Unknown)))
  }

  predicate SweepSeesPaid(i: Intent, a: SweepInput) {
    !a.raised && (a.loop.current == Paid || (a.loop.current == Unpaid && HasPrevious(i) && a.loop.previous == Paid))
  }

  /** The loop over the batch.  A settle that raises is logged and its changes stay in the session. */
  function SweepFrom(w: Sweeping, batch: seq<IntentId>, s: Settings, now: Time, ins: seq<SweepInput>): (r: Sweeping)
    requires |ins| == |batch|
    requires forall id <- batch :: id in w.tables.intents
    decreases |batch|
  {
    if batch == [] then w
    else
      var i := w.tables.intents[batch[0]];
      if SweepStops(i, ins[0]) then w
      else
        var w' := SweepOne(w, batch[0], s, now, ins[0]);
        SweepKeepsKeys(w, batch[0], s, now, ins[0]);
        SweepFrom(w', batch[1..], s, now, ins[1..])
  }

  function SweepOne(w: Sweeping, id: IntentId, s: Settings, now: Time, a: SweepInput): Sweeping
    requires id in w.tables.intents
  {
    if !SweepSeesPaid(w.tables.intents[id], a) then w
    else
      match SettleIfPaid(w.tables, id, s, now, a.settle)
      case Yes(t') => Sweeping(t', w.settled + 1)
      case Failed(dirty) => Sweeping(dirty, w.settled)
      case No => w
  }

  lemma SweepKeepsKeys(w: Sweeping, id: IntentId, s: Settings, now: Time, a: SweepInput)
    requires id in w.tables.intents
    ensures SweepOne(w, id, s, now, a).tables.intents.Keys == w.tables.intents.Keys
  {
  }

  /** Commit when something settled, else roll back. */
  function Sweep(t: Tables, batch: seq<IntentId>, s: Settings, now: Time, ins: seq<SweepInput>): Tables
    requires |ins| == |batch|
    requires forall id <- batch :: id in t.intents
  {
    var w := SweepFrom(Sweeping(t, 0), batch, s, now, ins);
    if w.settled > 0 then w.tables else t
  }

  predicate SweepBatch(t: Tables, batch: seq<IntentId>) {
    && |batch| <= 3
    && (forall j, k :: 0 <= j < k < |batch| ==> batch[j] != batch[k])
    && forall id <- batch :: id in t.intents && t.intents[id].status == Pending && t.intents[id].md5.Some?
  }

  // ---- Unique pending index ----

  datatype Product =
    MovieUnlock(contentId: ContentId) | SeriesUnlock(seriesId: SeriesId) | PlanCheckout(planCode: string)

  /** The index entry a pending intent occupies. */
  function PendingKey(i: Intent): Option<(Buyer, Product)> {
    if i.status != Pending then None
    else
      match i.kind
      case Single => if i.contentId.Some? then Some((i.buyer, MovieUnlock(i.contentId.value))) else None
      case Series => if i.seriesId.Some? then Some((i.buyer, SeriesUnlock(i.seriesId.value))) else None
      case Sub =>
        if i.planCode.Some? && i.buyer.User? then Some((i.buyer, PlanCheckout(i.planCode.value))) else None
  }

  predicate Clash(intents: map<IntentId, Intent>, j: IntentId, k: IntentId) {
    j in intents && k in intents && j != k && PendingKey(intents[j]).Some? &&
    PendingKey(intents[j]) == PendingKey(intents[k])
  }

  predicate UniquePending(intents: map<IntentId, Intent>) {
    forall j, k {:trigger Clash(intents, j, k)} | j in intents && k in intents :: !Clash(intents, j, k)
  }

  // ---- Guest claim ----

  function Renamed(b: Buyer, g: GuestId, u: UserId): Buyer {
    if b == Guest(g) then User(u) else b
  }

  function Claimed(t: Tables, g: GuestId, u: UserId): Tables {
    t.(purchases := map j | j in t.purchases :: t.purchases[j].(buyer := Renamed(t.purchases[j].buyer, g, u)),
       seriesPurchases :=
         map j | j in t.seriesPurchases :: t.seriesPurchases[j].(buyer := Renamed(t.seriesPurchases[j].buyer, g, u)),
       intents := map j | j in t.intents :: t.intents[j].(buyer := Renamed(t.intents[j].buyer, g, u)))
  }

  /** A claim that would break the unique pending index is refused by the database. */
  function Claim(t: Tables, g: GuestId, u: UserId): Tables {
    var t' := Claimed(t, g, u);
    if UniquePending(t'.intents) then t' else t
  }

  // ---- Deletion ----

  function DeleteContent(t: Tables, c: ContentId): Tables {
    t.(contents := t.contents - {c},
       freeToday := t.freeToday - {c},
       purchases := map j | j in t.purchases && t.purchases[j].contentId != c :: t.purchases[j],
       intents := map j | j in t.intents ::
         if t.intents[j].contentId == Some(c) then t.intents[j].(contentId := None) else t.intents[j])
  }

  function EpisodesOf(t: Tables, x: SeriesId): set<ContentId> {
    set c | c in t.contents && t.contents[c].seriesId == Some(x)
  }

  function DeleteSeries(t: Tables, x: SeriesId): Tables {
    var gone := EpisodesOf(t, x);
    t.(contents := t.contents - gone,
       freeToday := t.freeToday - gone,
       series := t.series - {x},
       purchases := map j | j in t.purchases && t.purchases[j].contentId !in gone :: t.purchases[j],
       seriesPurchases := map j | j in t.seriesPurchases && t.seriesPurchases[j].seriesId != x :: t.seriesPurchases[j],
       intents := map j | j in t.intents ::
         var i := t.intents[j];
         i.(contentId := if i.contentId.Some? && i.contentId.value in gone then None else i.contentId,
            seriesId := if i.seriesId == Some(x) then None else i.seriesId))
  }

  // ---- Steps ----

  datatype Event =
    | Insert(id: IntentId, draft: Intent)
    | FulfilCall(id: IntentId, bank: string)
    | Reuse(id: IntentId, checkOwnership: bool, refresh: RefreshInput)
    | PollCall(id: IntentId, poll: PollInput)
    | AuthorizeCall(buyer: Buyer, content: ContentId, rows: seq<IntentId>, probes: seq<Probes>)
    | SweepCall(batch: seq<IntentId>, sweeps: seq<SweepInput>)
    | ClaimCall(guest: GuestId, user: UserId)
    | ContentDeleted(content: ContentId)
    | SeriesDeleted(serie: SeriesId)
    | CatalogEdited(contents: map<ContentId, Content>, series: set<SeriesId>, freeToday: set<ContentId>)
    | PlansEdited(plans: seq<Plan>)

  /** A pending intent as the three create paths build it. */
  predicate WellFormedDraft(d: Intent) {
    && d.status == Pending && d.resolvedAt.None? && d.md5.Some? && d.prevMd5.None?
    && match d.kind
       case Single => d.contentId.Some? && d.seriesId.None? && d.planCode.None?
       case Series => d.contentId.None? && d.seriesId.Some? && d.planCode.None?
       case Sub => d.contentId.None? && d.seriesId.None? && d.planCode.Some? && d.buyer.User?
                   && d.intervalDays.Some? && d.intervalDays.value > 0
  }

  /** Whether the database takes the row: its references exist and no index entry is taken. */
  predicate InsertAccepted(t: Tables, id: IntentId, d: Intent) {
    && id !in t.intents
    && (d.contentId.Some? ==> d.contentId.value in t.contents)
    && (d.seriesId.Some? ==> d.seriesId.value in t.series)
    && UniquePending(t.intents[id := d])
  }

  ghost predicate Enabled(t: Tables, e: Event) {
    match e
    case Insert(id, d) => WellFormedDraft(d) && InsertAccepted(t, id, d)
    case FulfilCall(_, _) => true
    case Reuse(id, check, _) =>
      id in t.intents && t.intents[id].status == Pending && (check <==> t.intents[id].kind != Sub)
    case PollCall(id, a) => id in t.intents && NewestSibling(t, id, a.sibling)
    case AuthorizeCall(b, c, rows, ps) => |ps| == |rows| && BuyersPendingRows(t, b, c, rows)
    case SweepCall(batch, ins) => |ins| == |batch| && SweepBatch(t, batch)
    case ClaimCall(_, _) => true
    case ContentDeleted(_) => true
    case SeriesDeleted(_) => true
    case CatalogEdited(cs, ss, _) =>
      t.contents.Keys <= cs.Keys && t.series <= ss
    case PlansEdited(ps) => forall p <- ps :: p.days >= 1
  }

  ghost function Step(t: Tables, e: Event, s: Settings, now: Time): Tables
    requires Enabled(t, e)
  {
    match e
    case Insert(id, d) => t.(intents := t.intents[id := d])
    case FulfilCall(id, bank) => Committed(t, Fulfil(t, id, now, bank))
    case Reuse(id, check, a) => ReuseOrRefresh(t, id, check, s, now, a)
    case PollCall(id, a) => Poll(t, id, s, now, a)
    case AuthorizeCall(_, _, rows, ps) => Authorize(t, rows, s, now, ps)
    case SweepCall(batch, ins) => Sweep(t, batch, s, now, ins)
    case ClaimCall(g, u) => Claim(t, g, u)
    case ContentDeleted(c) => DeleteContent(t, c)
    case SeriesDeleted(x) => DeleteSeries(t, x)
    case CatalogEdited(cs, ss, ft) => t.(contents := cs, series := ss, freeToday := ft)
    case PlansEdited(ps) => t.(plans := ps)
  }
}
