/** What a payment buys: the plan it is counted towards, and the rows it leaves in the tables. */
module BillingFulfilment {
  import opened Options
  import opened Text
  import opened BillingTables
  import opened BillingInvariant

  // ---- The plan code an intent names ----

  /** The code column without the space around it; on a row without one, the code inside the order id. */
  ghost predicate NamesCode(i: Intent, code: string) {
    if i.planCode.Some? && !Blank(i.planCode.value) then Padded(i.planCode.value, code)
    else InOrderId(i.orderId, code)
  }

  ghost predicate InOrderId(orderId: string, code: string) {
    code != "" && exists hex: string :: '-' !in hex && orderId == "sub-" + code + "-" + hex
  }

  lemma {:induction false} LastIndexOfTail(s: string, hex: string, c: char)
    requires c !in hex
    ensures LastIndexOf(s + [c] + hex, c) == Some(|s|)
    decreases |hex|
  {
    var whole := s + [c] + hex;
    if hex != "" {
      assert whole[..|whole| - 1] == s + [c] + hex[..|hex| - 1];
      LastIndexOfTail(s, hex[..|hex| - 1], c);
    }
  }

  /** The plan code survives in the order id, whatever dashes it contains. */
  lemma OrderIdRoundTrip(code: string, hex: string)
    requires code != "" && '-' !in hex
    ensures PlanCodeFromOrderId("sub-" + code + "-" + hex) == Some(code)
  {
    var order := "sub-" + code + "-" + hex;
    assert order[4..] == code + "-" + hex;
    LastIndexOfTail(code, hex, '-');
    assert order[4..][..|code|] == code;
  }

  /** And nothing else is read as a code. */
  lemma OrderIdCode(orderId: string, code: string)
    ensures PlanCodeFromOrderId(orderId) == Some(code) <==> InOrderId(orderId, code)
  {
    if PlanCodeFromOrderId(orderId) == Some(code) {
      var rest := orderId[4..];
      var k := LastIndexOf(rest, '-').value;
      assert orderId == "sub-" + code + "-" + rest[k + 1..];
      assert '-' !in rest[k + 1..] && code != "";
    } else if InOrderId(orderId, code) {
      var hex: string :| '-' !in hex && orderId == "sub-" + code + "-" + hex;
      OrderIdRoundTrip(code, hex);
    }
  }

  lemma CodedPlanNames(i: Intent, code: string)
    ensures CodedPlan(i) == Some(code) <==> NamesCode(i, code)
  {
    OrderIdCode(i.orderId, code);
    if i.planCode.Some? {
      StripMeans(i.planCode.value, code);
      StripBlank(i.planCode.value);
    }
    hide InOrderId, PlanCodeFromOrderId, Strip, Padded, Blank;
  }

  // ---- The plan it pays for ----

  /** Position k holds the plan with its code, and the plan is on sale. */
  predicate OnSale(plans: seq<Plan>, k: nat) {
    k < |plans| && plans[k].active && forall j :: 0 <= j < k ==> plans[j].code != plans[k].code
  }

  ghost predicate ByCode(plans: seq<Plan>, i: Intent, k: nat) {
    OnSale(plans, k) && NamesCode(i, plans[k].code)
  }

  predicate ByPrice(plans: seq<Plan>, i: Intent, k: nat) {
    k < |plans| && plans[k].active && plans[k].price == i.amount
  }

  ghost predicate FirstLongest(plans: seq<Plan>, i: Intent, k: nat) {
    && ByPrice(plans, i, k)
    && forall j: nat :: ByPrice(plans, i, j) && j != k ==>
         plans[j].days < plans[k].days || (plans[j].days == plans[k].days && k < j)
  }

  /** The plan named by its code; else the longest of those that cost what was paid, the first if several are
      longest; else the first plan on sale. */
  ghost predicate PaysFor(plans: seq<Plan>, i: Intent, k: nat) {
    k < |plans| && plans[k].active &&
    if exists j: nat :: ByCode(plans, i, j) then ByCode(plans, i, k)
    else if exists j: nat :: ByPrice(plans, i, j) then
      FirstLongest(plans, i, k)
    else forall j :: 0 <= j < k ==> !plans[j].active
  }

  lemma {:induction false} PlanByCodeAt(plans: seq<Plan>, code: string, k: nat)
    requires k < |plans| && plans[k].code == code && forall j :: 0 <= j < k ==> plans[j].code != code
    ensures PlanByCode(plans, code) == Some(plans[k])
  {
    if k > 0 {
      assert plans[0].code != code;
      PlanByCodeAt(plans[1..], code, k - 1);
    }
  }

  lemma {:induction false} PlanByCodePosition(plans: seq<Plan>, code: string)
    ensures PlanByCode(plans, code).Some? ==>
              exists k :: 0 <= k < |plans| && plans[k] == PlanByCode(plans, code).value && plans[k].code == code &&
                          forall j :: 0 <= j < k ==> plans[j].code != code
  {
    if plans != [] && plans[0].code != code {
      PlanByCodePosition(plans[1..], code);
      if PlanByCode(plans, code).Some? {
        var k :| 0 <= k < |plans| - 1 && plans[1..][k] == PlanByCode(plans, code).value && plans[1..][k].code == code
                 && forall j :: 0 <= j < k ==> plans[1..][j].code != code;
        assert forall j :: 0 < j < k + 1 ==> plans[j] == plans[1..][j - 1];
        assert plans[k + 1] == PlanByCode(plans, code).value;
      }
    }
  }

  /** The plan found by its code, if it is on sale. */
  lemma CodedIs(plans: seq<Plan>, i: Intent)
    ensures var c := CodedPlan(i);
            var p := if c.Some? then PlanByCode(plans, c.value) else None;
            && (forall k: nat :: ByCode(plans, i, k) ==> p == Some(plans[k]))
            && (p.Some? && p.value.active ==> exists k: nat :: ByCode(plans, i, k))
  {
    hide NamesCode, CodedPlan;
    forall k: nat | ByCode(plans, i, k)
      ensures CodedPlan(i).Some? && PlanByCode(plans, CodedPlan(i).value) == Some(plans[k])
    {
      CodedPlanNames(i, plans[k].code);
      PlanByCodeAt(plans, plans[k].code, k);
    }
    if CodedPlan(i).Some? && PlanByCode(plans, CodedPlan(i).value).Some? {
      var code := CodedPlan(i).value;
      CodedPlanNames(i, code);
      PlanByCodePosition(plans, code);
      var k :| 0 <= k < |plans| && plans[k] == PlanByCode(plans, code).value && plans[k].code == code &&
               forall j :: 0 <= j < k ==> plans[j].code != code;
      assert plans[k].active ==> ByCode(plans, i, k);
    }
  }

  function Matching(plans: seq<Plan>, amount: Cents): seq<Plan> {
    PricedAt(ActivePlans(plans), amount)
  }

  lemma {:induction false} ActiveInit(init: seq<Plan>, last: Plan)
    ensures ActivePlans(init + [last]) == ActivePlans(init) + if last.active then [last] else []
  {
    if init != [] {
      assert (init + [last])[1..] == init[1..] + [last];
      ActiveInit(init[1..], last);
    }
  }

  lemma {:induction false} PricedInit(init: seq<Plan>, last: Plan, amount: Cents)
    ensures PricedAt(init + [last], amount) == PricedAt(init, amount) + if last.price == amount then [last] else []
  {
    if init != [] {
      assert (init + [last])[1..] == init[1..] + [last];
      PricedInit(init[1..], last, amount);
    }
  }

  lemma MatchingInit(init: seq<Plan>, last: Plan, amount: Cents)
    ensures Matching(init + [last], amount) ==
            Matching(init, amount) + if last.active && last.price == amount then [last] else []
  {
    ActiveInit(init, last);
    if last.active {
      PricedInit(ActivePlans(init), last, amount);
    } else {
      assert ActivePlans(init) + [] == ActivePlans(init);
    }
  }

  lemma MatchingAre(plans: seq<Plan>, i: Intent)
    ensures forall p :: p in Matching(plans, i.amount) <==> exists j: nat :: ByPrice(plans, i, j) && plans[j] == p
    ensures Matching(plans, i.amount) != [] <==> exists j: nat :: ByPrice(plans, i, j)
  {
    ActivePlansAre(plans);
    PricedAtAre(ActivePlans(plans), i.amount);
    forall p | p in Matching(plans, i.amount)
      ensures exists j: nat :: ByPrice(plans, i, j) && plans[j] == p
    {
      var j: nat :| j < |plans| && plans[j] == p;
      assert ByPrice(plans, i, j);
    }
    if Matching(plans, i.amount) != [] {
      assert Matching(plans, i.amount)[0] in Matching(plans, i.amount);
    }
  }

  lemma LongestOfTwo(ms: seq<Plan>, last: Plan)
    ensures LongestPlan(ms + [last]) ==
            if ms == [] || last.days > LongestPlan(ms).days then last else LongestPlan(ms)
  {
    assert (ms + [last])[..|ms|] == ms;
  }

  lemma InitMatches(plans: seq<Plan>, i: Intent, k: nat)
    requires FirstLongest(plans, i, k)
    ensures var init := plans[..|plans| - 1];
            && (k < |plans| - 1 ==> FirstLongest(init, i, k) && init[k] == plans[k])
            && (k == |plans| - 1 ==> forall p :: p in Matching(init, i.amount) ==> p.days < plans[k].days)
            && (k < |plans| - 1 && ByPrice(plans, i, |plans| - 1) ==> plans[|plans| - 1].days <= plans[k].days)
  {
    var init := plans[..|plans| - 1];
    MatchingAre(init, i);
    hide Matching;
    assert forall j: nat :: ByPrice(init, i, j) ==> ByPrice(plans, i, j) && init[j] == plans[j];
  }

  lemma {:induction false} LongestMatch(plans: seq<Plan>, i: Intent, k: nat)
    requires FirstLongest(plans, i, k)
    ensures Matching(plans, i.amount) != [] && LongestPlan(Matching(plans, i.amount)) == plans[k]
    decreases |plans|
  {
    var n := |plans| - 1;
    var init, last := plans[..n], plans[n];
    assert plans == init + [last];
    assert ByPrice(plans, i, n) <==> last.active && last.price == i.amount;
    hide Matching, FirstLongest, ByPrice, LongestPlan, ActivePlans, PricedAt;
    var ms := Matching(init, i.amount);
    InitMatches(plans, i, k);
    MatchingInit(init, last, i.amount);
    LongestOfTwo(ms, last);
    if k < n {
      LongestMatch(init, i, k);
      assert ms + [] == ms;
    } else {
      LongestIsKept(plans, i, k, ms);
    }
  }

  lemma LongestIsKept(plans: seq<Plan>, i: Intent, k: nat, ms: seq<Plan>)
    requires FirstLongest(plans, i, k)
    requires forall p :: p in ms ==> p.days < plans[k].days
    ensures plans[k].active && plans[k].price == i.amount && (ms != [] ==> LongestPlan(ms).days < plans[k].days)
  {
    if ms != [] {
      assert LongestPlan(ms) in ms;
    }
  }

  lemma {:induction false} SomeLongest(plans: seq<Plan>, i: Intent) returns (k: nat)
    requires exists j: nat :: ByPrice(plans, i, j)
    ensures FirstLongest(plans, i, k)
    decreases |plans|
  {
    var n := |plans| - 1;
    var init := plans[..n];
    assert forall j: nat :: j < n ==> (ByPrice(init, i, j) <==> ByPrice(plans, i, j)) && init[j] == plans[j];
    if exists j: nat :: ByPrice(init, i, j) {
      k := SomeLongest(init, i);
      if ByPrice(plans, i, n) && plans[n].days > plans[k].days {
        k := n;
      }
    } else {
      k := n;
    }
  }

  lemma {:induction false} FirstActiveAt(plans: seq<Plan>, k: nat)
    requires k < |plans| && plans[k].active && forall j :: 0 <= j < k ==> !plans[j].active
    ensures ActivePlans(plans) != [] && ActivePlans(plans)[0] == plans[k]
  {
    if k > 0 {
      assert !plans[0].active;
      FirstActiveAt(plans[1..], k - 1);
    }
  }

  lemma {:induction false} SomeFirstActive(plans: seq<Plan>) returns (k: nat)
    requires exists p :: p in plans && p.active
    ensures k < |plans| && plans[k].active && forall j :: 0 <= j < k ==> !plans[j].active
  {
    if plans[0].active {
      k := 0;
    } else {
      k := SomeFirstActive(plans[1..]);
      k := k + 1;
    }
  }

  /** The rule above is the one the service follows, and it names a plan as long as one is on sale. */
  lemma ResolvesPaidPlan(plans: seq<Plan>, i: Intent, k: nat)
    requires PaysFor(plans, i, k)
    ensures ResolvePlan(plans, i) == Some(plans[k])
  {
    hide ByCode, CodedPlan, PlanByCode;
    CodedIs(plans, i);
    if !exists j: nat :: ByCode(plans, i, j) {
      MatchingAre(plans, i);
      if exists j: nat :: ByPrice(plans, i, j) {
        LongestMatch(plans, i, k);
      } else {
        FirstActiveAt(plans, k);
      }
    }
  }

  lemma SomePlanPaid(plans: seq<Plan>, i: Intent) returns (k: nat)
    requires exists p :: p in plans && p.active
    ensures PaysFor(plans, i, k)
  {
    hide NamesCode;
    if j: nat :| ByCode(plans, i, j) {
      k := j;
    } else if exists j: nat :: ByPrice(plans, i, j) {
      k := SomeLongest(plans, i);
    } else {
      k := SomeFirstActive(plans);
    }
  }

  // ---- What is left in the tables ----

  /** The intent is marked paid at `now` and nothing else about any intent changes. */
  predicate MarkedPaid(t: Tables, t': Tables, id: IntentId, now: Time)
    requires id in t.intents
  {
    t'.intents == t.intents[id := t.intents[id].(status := Succeeded, resolvedAt := Some(now))]
  }

  predicate SameCatalog(t: Tables, t': Tables) {
    t'.plans == t.plans && t'.contents == t.contents && t'.series == t.series && t'.freeToday == t.freeToday
  }

  /** User u's row runs `days` on from its end, or from now if it has lapsed, under the given plan;
      the payment says up to when. */
  predicate PeriodBought(t: Tables, t': Tables, id: IntentId, u: UserId, plan: string, days: int, now: Time,
                         bank: string)
    requires id in t.intents
  {
    && u in t'.subscriptions && t'.subscriptions[u].plan == plan && t'.subscriptions[u].active
    && (if u in t.subscriptions && t.subscriptions[u].end > now then
          && t'.subscriptions[u].start == t.subscriptions[u].start
          && t'.subscriptions[u].end == t.subscriptions[u].end + days * 86_400
        else
          t'.subscriptions[u].start == now && t'.subscriptions[u].end == now + days * 86_400)
    && t'.subscriptions == t.subscriptions[u := t'.subscriptions[u]]
    && t'.subPayments == t.subPayments[id :=
         SubPayment(u, t.intents[id].orderId, bank, t.intents[id].amount, t'.subscriptions[u].end)]
    && t'.purchases == t.purchases && t'.seriesPurchases == t.seriesPurchases
  }

  /** The interval shown at checkout, or that of the plan for an older row without one. */
  predicate PaidDays(i: Intent, plan: Plan, days: int) {
    if i.intervalDays.Some? && i.intervalDays.value > 0 then i.intervalDays == Some(days) else plan.days == days
  }

  /** A paid title: its receipt repeats the buyer, order and amount of the intent, and nothing else is added. */
  predicate TitleReceipt(t: Tables, t': Tables, id: IntentId, bank: string)
    requires id in t.intents
  {
    var i := t.intents[id];
    && t'.purchases == (if i.kind == Single && i.contentId.Some? then
         t.purchases[id := Purchase(i.buyer, i.contentId.value, i.orderId, bank, i.amount)] else t.purchases)
    && t'.seriesPurchases == (if i.kind == Series && i.seriesId.Some? then
         t.seriesPurchases[id := SeriesPurchase(i.buyer, i.seriesId.value, i.orderId, bank, i.amount)]
       else t.seriesPurchases)
    && t'.subPayments == t.subPayments && t'.subscriptions == t.subscriptions && t'.grants == t.grants
  }

  /** Everything the payment of intent id leaves in the tables. */
  ghost predicate PaidFor(t: Tables, t': Tables, id: IntentId, now: Time, bank: string)
    requires id in t.intents
  {
    var i := t.intents[id];
    && MarkedPaid(t, t', id, now) && SameCatalog(t, t')
    && if i.kind != Sub then TitleReceipt(t, t', id, bank)
       else
         && i.buyer.User?
         && exists k: nat, days ::
              && PaysFor(t.plans, i, k) && PaidDays(i, t.plans[k], days)
              && PeriodBought(t, t', id, i.buyer.userId, t.plans[k].code, days, now, bank)
  }

  /** What a payment needs: a title always, a subscription an account and a plan on sale. */
  predicate Payable(t: Tables, i: Intent) {
    i.kind != Sub || (i.buyer.User? && exists p :: p in t.plans && p.active)
  }

  /** Fulfilling an unpaid intent completes exactly when it can be paid for, and then leaves this. */
  lemma FulfilPays(t: Tables, id: IntentId, now: Time, bank: string)
    requires ReceiptsSound(t) && id in t.intents && t.intents[id].status != Succeeded
    ensures Fulfil(t, id, now, bank).Done? <==> Payable(t, t.intents[id])
    ensures Payable(t, t.intents[id]) ==> PaidFor(t, Fulfil(t, id, now, bank).tables, id, now, bank)
  {
    NoReceiptYet(t, id);
    hide ReceiptsSound;
    if t.intents[id].kind == Sub {
      SubscriptionPays(t, id, now, bank);
    } else {
      TitlePays(t, id, now, bank);
    }
    hide Fulfil, PaidFor;
  }

  lemma TitlePays(t: Tables, id: IntentId, now: Time, bank: string)
    requires id in t.intents && t.intents[id].status != Succeeded && t.intents[id].kind != Sub
    requires id !in t.purchases && id !in t.seriesPurchases
    ensures Fulfil(t, id, now, bank).Done? && PaidFor(t, Fulfil(t, id, now, bank).tables, id, now, bank)
  {
    hide RecordPayment, PeriodBought, PaysFor, TitleReceipt, MarkedPaid, SameCatalog, RecordPurchase, RecordUnlock;
    var t1 := Resolve(t, id, Succeeded, Some(now));
    TitleRows(t, t1, id, now, bank);
  }

  lemma TitleRows(t: Tables, t1: Tables, id: IntentId, now: Time, bank: string)
    requires id in t.intents && id !in t.purchases && id !in t.seriesPurchases
    requires t1 == Resolve(t, id, Succeeded, Some(now))
    ensures match Target(t.intents[id])
            case ForMovie(c) =>
              var t' := RecordPurchase(t1, id, c, bank);
              MarkedPaid(t, t', id, now) && SameCatalog(t, t') && TitleReceipt(t, t', id, bank)
            case ForSeries(x) =>
              var t' := RecordUnlock(t1, id, x, bank);
              MarkedPaid(t, t', id, now) && SameCatalog(t, t') && TitleReceipt(t, t', id, bank)
            case NoTarget => MarkedPaid(t, t1, id, now) && SameCatalog(t, t1) && TitleReceipt(t, t1, id, bank)
            case ForSubscription => true
  {
  }

  lemma ExtendPays(t: Tables, id: IntentId, u: UserId, plan: Plan, now: Time, bank: string)
    requires id in t.intents
    ensures var t' := Extend(Resolve(t, id, Succeeded, Some(now)), id, u, plan, now, bank);
            && MarkedPaid(t, t', id, now) && SameCatalog(t, t')
            && PeriodBought(t, t', id, u, plan.code, BillingIntervalDays(t.intents[id], plan), now, bank)
  {
  }

  lemma SubscriptionPays(t: Tables, id: IntentId, now: Time, bank: string)
    requires id in t.intents && t.intents[id].status != Succeeded && t.intents[id].kind == Sub && id !in t.subPayments
    ensures Fulfil(t, id, now, bank).Done? <==> Payable(t, t.intents[id])
    ensures Payable(t, t.intents[id]) ==> PaidFor(t, Fulfil(t, id, now, bank).tables, id, now, bank)
  {
    var i := t.intents[id];
    var t1 := Resolve(t, id, Succeeded, Some(now));
    ResolvedPlanExists(t.plans, t1.intents[id]);
    hide ResolvePlan, PaysFor, Extend, PeriodBought, MarkedPaid, SameCatalog;
    if Payable(t, i) {
      var k := SomePlanPaid(t.plans, i);
      PaidPlanOnly(t.plans, i, k, now);
      ExtendPays(t, id, i.buyer.userId, t.plans[k], now, bank);
      assert PaidDays(i, t.plans[k], BillingIntervalDays(i, t.plans[k]));
      hide BillingIntervalDays, PaidDays;
    }
  }

  lemma PaidPlanOnly(plans: seq<Plan>, i: Intent, k: nat, now: Time)
    requires PaysFor(plans, i, k)
    ensures k < |plans| && ResolvePlan(plans, i.(status := Succeeded, resolvedAt := Some(now))) == Some(plans[k])
  {
    var j := i.(status := Succeeded, resolvedAt := Some(now));
    assert CodedPlan(j) == CodedPlan(i);
    ResolvesPaidPlan(plans, i, k);
  }

  /** Whatever row the user had before, it names the plan that was paid for. */
  lemma RowGetsPaidPlan(t: Tables, id: IntentId, u: UserId, k: nat, now: Time, bank: string)
    requires ReceiptsSound(t) && id in t.intents && t.intents[id].status != Succeeded
    requires t.intents[id].kind == Sub && t.intents[id].buyer == User(u) && PaysFor(t.plans, t.intents[id], k)
    ensures Fulfil(t, id, now, bank).Done?
    ensures var t' := Fulfil(t, id, now, bank).tables;
            u in t'.subscriptions && t'.subscriptions[u].plan == t.plans[k].code
  {
    assert t.plans[k] in t.plans;
    hide ReceiptsSound, PaysFor;
    FulfilPays(t, id, now, bank);
    hide Fulfil;
    var t' := Fulfil(t, id, now, bank).tables;
    var j: nat, days :| PaysFor(t.plans, t.intents[id], j) && PaidDays(t.intents[id], t.plans[j], days) &&
                        PeriodBought(t, t', id, u, t.plans[j].code, days, now, bank);
    ResolvesPaidPlan(t.plans, t.intents[id], j);
    ResolvesPaidPlan(t.plans, t.intents[id], k);
  }
}
