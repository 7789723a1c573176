/** What the payment provider's webhooks do to subscriptions and credits
    (app/services/billing_service.py, app/routers/v1/billing.py). */
module Billing {
  import opened Credits
  import opened Text

  type PlanId = string

  /** The plans on offer: the plan a price stands for, and the credits each plan includes. A plan a
      subscription names is always there, by its foreign key. */
  datatype Catalogue = Catalogue(prices: map<string, PlanId>, credits: map<PlanId, nat>)

  function Included(cat: Catalogue, plan: PlanId): nat {
    if plan in cat.credits then cat.credits[plan] else 0
  }

  datatype Subscription = Subscription(plan: PlanId, stripeId: string, customer: string, status: string)

  /** The provider's own subscription object. */
  datatype StripeObject = StripeObject(id: string, price: string, customer: string, status: string)

  const STATUSES := {"trialing", "active", "past_due", "canceled", "incomplete"}

  datatype State = State(books: Books, subs: map<Org, Subscription>)

  datatype Outcome = Done | NoSuchPlan | UnknownStatus | SeveralOwners

  datatype Event =
    | Upserted(org: Org, stripe: StripeObject)
    | InvoicePaid(stripeId: string)
    | Purchased(org: Org, credits: nat)
    | Spent(entry: Entry)

  /** A first subscription or another plan: what refills the credits. */
  predicate PlanChanges(cat: Catalogue, s: State, org: Org, o: StripeObject)
    requires o.price in cat.prices
  {
    org !in s.subs || s.subs[org].plan != cat.prices[o.price]
  }

  predicate Acceptable(cat: Catalogue, o: StripeObject) {
    o.price in cat.prices && o.status in STATUSES
  }

  /** The first commit of an upsert: the subscription row. */
  function Mirror(cat: Catalogue, s: State, org: Org, o: StripeObject): State
    requires Acceptable(cat, o)
  {
    s.(subs := s.subs[org := Subscription(cat.prices[o.price], o.id, o.customer, o.status)])
  }

  function Upsert(cat: Catalogue, s: State, org: Org, o: StripeObject): (State, Outcome) {
    if o.price !in cat.prices then (s, NoSuchPlan)
    else if o.status !in STATUSES then (s, UnknownStatus)
    else
      var mirrored := Mirror(cat, s, org, o);
      (if PlanChanges(cat, s, org, o)
       then mirrored.(books := SetAllotment(s.books, org, Included(cat, cat.prices[o.price])))
       else mirrored,
       Done)
  }

  /** The organizations whose row carries a given subscription id. */
  function Owners(subs: map<Org, Subscription>, stripeId: string): set<Org> {
    set org | org in subs && subs[org].stripeId == stripeId
  }

  ghost function TheOnly(orgs: set<Org>): Option<Org> {
    if |orgs| == 1 then
      var org :| org in orgs;
      Some(org)
    else None
  }

  ghost function Refill(cat: Catalogue, s: State, stripeId: string): (State, Outcome) {
    var owners := Owners(s.subs, stripeId);
    if stripeId == "" || |owners| == 0 then (s, Done)
    else if TheOnly(owners).None? then (s, SeveralOwners)
    else
      var org := TheOnly(owners).value;
      (if org in s.subs then s.(books := SetAllotment(s.books, org, Included(cat, s.subs[org].plan))) else s, Done)
  }

  ghost function Handle(cat: Catalogue, s: State, e: Event): (State, Outcome) {
    match e
    case Upserted(org, o) => Upsert(cat, s, org, o)
    case InvoicePaid(id) => Refill(cat, s, id)
    case Purchased(org, credits) => (s.(books := TopUp(s.books, org, credits)), Done)
    case Spent(entry) => (s.(books := Charge(s.books, entry).0), Done)
  }

  ghost function Run(cat: Catalogue, s: State, events: seq<Event>): State {
    if events == [] then s
    else Handle(cat, Run(cat, s, events[..|events| - 1]), events[|events| - 1]).0
  }

  // ---- what each event does -----------------------------------------------------------------

  /** An accepted object is mirrored field by field; its plan's credits are set exactly if the
      organization was not on that plan; nobody else is touched. */
  lemma UpsertAnswers(cat: Catalogue, s: State, org: Org, o: StripeObject)
    ensures var (s', outcome) := Upsert(cat, s, org, o);
            if o.price !in cat.prices then s' == s && outcome == NoSuchPlan
            else if o.status !in {"trialing", "active", "past_due", "canceled", "incomplete"} then
              s' == s && outcome == UnknownStatus
            else
              var plan := cat.prices[o.price];
              && outcome == Done && org in s'.subs && s'.subs - {org} == s.subs - {org}
              && s'.subs[org].plan == plan && s'.subs[org].stripeId == o.id
              && s'.subs[org].customer == o.customer && s'.subs[org].status == o.status
              && (org in s.subs && s.subs[org].plan == plan ==> s'.books == s.books)
              && (!(org in s.subs && s.subs[org].plan == plan) ==> Granted(s.books, org, Included(cat, plan), s'.books))
  {
  }

  /** The organization has exactly its allotment; other balances and the ledger are as before. */
  predicate Granted(books: Books, org: Org, credits: nat, books': Books) {
    && org in books'.balances && books'.balances[org].remaining == books'.balances[org].included == credits
    && books'.balances - {org} == books.balances - {org} && books'.ledger == books.ledger
  }

  /** A paid invoice grants the allotment to the one organization with its subscription; without an
      id, or with nobody or several to match, nothing changes. */
  lemma InvoiceAnswers(cat: Catalogue, s: State, stripeId: string, org: Org)
    ensures var (s', outcome) := Refill(cat, s, stripeId);
            && s'.subs == s.subs
            && (stripeId == "" || Owners(s.subs, stripeId) == {} ==> s' == s && outcome == Done)
            && (stripeId != "" && Owners(s.subs, stripeId) == {org} ==>
                  outcome == Done && org in s.subs && Granted(s.books, org, Included(cat, s.subs[org].plan), s'.books))
            && (stripeId != "" && |Owners(s.subs, stripeId)| > 1 ==> s' == s && outcome == SeveralOwners)
  {
    if Owners(s.subs, stripeId) == {org} {
      SingleOwner(Owners(s.subs, stripeId), org);
      assert org in Owners(s.subs, stripeId);
    }
  }

  /** A purchase stacks on top of what is there, and leaves the allotment as it is. */
  lemma PurchaseAnswers(cat: Catalogue, s: State, org: Org, credits: nat)
    ensures var s' := Handle(cat, s, Purchased(org, credits)).0;
            && s'.subs == s.subs && s'.books.ledger == s.books.ledger
            && org in s'.books.balances && s'.books.balances - {org} == s.books.balances - {org}
            && s'.books.balances[org].remaining == Remaining(s.books, org) + credits
            && s'.books.balances[org].included == if org in s.books.balances then s.books.balances[org].included else 0
  {
  }

  // ---- redelivery -------------------------------------------------------------------------

  /** Equal balances and ledger, equal plans under equal subscription ids. */
  predicate SameMoney(s: State, t: State) {
    && s.books == t.books && s.subs.Keys == t.subs.Keys
    && forall org | org in s.subs ::
         s.subs[org].plan == t.subs[org].plan && s.subs[org].stripeId == t.subs[org].stripeId
  }

  lemma HandleKeepsSameMoney(cat: Catalogue, s: State, t: State, e: Event)
    requires SameMoney(s, t)
    ensures SameMoney(Handle(cat, s, e).0, Handle(cat, t, e).0)
    ensures Handle(cat, s, e).1 == Handle(cat, t, e).1
  {
    if e.InvoicePaid? {
      assert Owners(s.subs, e.stripeId) == Owners(t.subs, e.stripeId);
    }
  }

  lemma {:induction false} RunKeepsSameMoney(cat: Catalogue, s: State, t: State, events: seq<Event>)
    requires SameMoney(s, t)
    ensures SameMoney(Run(cat, s, events), Run(cat, t, events))
  {
    if events != [] {
      var n := |events| - 1;
      RunKeepsSameMoney(cat, s, t, events[..n]);
      HandleKeepsSameMoney(cat, Run(cat, s, events[..n]), Run(cat, t, events[..n]), events[n]);
    }
  }

  lemma {:induction false} RunAppend(cat: Catalogue, s: State, a: seq<Event>, b: seq<Event>)
    ensures Run(cat, s, a + b) == Run(cat, Run(cat, s, a), b)
  {
    if b == [] {
      assert a + b == a;
    } else {
      RunAppend(cat, s, a, b[..|b| - 1]);
      assert (a + b)[..|a + b| - 1] == a + b[..|b| - 1];
    }
  }

  /** A subscription event for the subscription and the plan the organization is already on. */
  predicate Redelivered(cat: Catalogue, s: State, org: Org, o: StripeObject) {
    org in s.subs && o.price in cat.prices && s.subs[org].plan == cat.prices[o.price] && s.subs[org].stripeId == o.id
  }

  /** Deleting a redelivered subscription event from any trace changes no balance, no ledger line,
      no plan and no subscription id at its end. */
  lemma RedeliveryIsInvisible(cat: Catalogue, s: State, before: seq<Event>, org: Org, o: StripeObject,
                              after: seq<Event>)
    requires Redelivered(cat, Run(cat, s, before), org, o)
    ensures SameMoney(Run(cat, s, before + [Upserted(org, o)] + after), Run(cat, s, before + after))
  {
    var here, e := Run(cat, s, before), Upserted(org, o);
    RunAppend(cat, s, before + [e], after);
    RunAppend(cat, s, before, [e]);
    RunAppend(cat, s, before, after);
    assert [e][..0] == [] && Run(cat, here, []) == here;
    assert SameMoney(Run(cat, here, [e]), here);
    RunKeepsSameMoney(cat, Run(cat, here, [e]), here, after);
  }

  /** For an acceptable object that condition is also necessary: any other one shows at once. */
  lemma OnlyRedeliveryIsInvisible(cat: Catalogue, s: State, org: Org, o: StripeObject)
    ensures SameMoney(Upsert(cat, s, org, o).0, s) <==> !Acceptable(cat, o) || Redelivered(cat, s, org, o)
  {
    if Acceptable(cat, o) {
      var t := Upsert(cat, s, org, o).0;
      assert org in t.subs && t.subs[org].plan == cat.prices[o.price] && t.subs[org].stripeId == o.id;
    }
  }

  /** The books once the event has been delivered again. */
  function Redelivery(cat: Catalogue, s: State, org: Org, o: StripeObject): Books {
    var (after, _) := Upsert(cat, s, org, o);
    after.books
  }

  predicate OnPlan(s: State, org: Org, plan: PlanId) {
    org in s.subs && s.subs[org].plan == plan
  }

  /** The books after a process died between the two commits of an upsert, other events came in, and
      the event was delivered again: untouched by the redelivery exactly when the organization is
      still on that plan by then, or has its allotment anyway. */
  lemma RedeliveryAfterACrash(cat: Catalogue, s: State, org: Org, o: StripeObject, between: seq<Event>)
    requires Acceptable(cat, o)
    ensures var before := Run(cat, Mirror(cat, s, org, o), between);
            Redelivery(cat, before, org, o) == before.books
            <==> OnPlan(before, org, cat.prices[o.price]) || HasAllotment(cat, before, org, o)
  {
    var before, plan := Run(cat, Mirror(cat, s, org, o), between), cat.prices[o.price];
    var reset := SetAllotment(before.books, org, Included(cat, plan));
    if reset == before.books {
      assert org in reset.balances && reset.balances[org] == Balance(Included(cat, plan), Included(cat, plan));
    } else {
      assert HasAllotment(cat, before, org, o) ==> reset.balances == before.books.balances;
    }
  }

  /** No event moves the organization to another plan. */
  predicate KeepsPlan(cat: Catalogue, org: Org, plan: PlanId, events: seq<Event>) {
    events == [] ||
    (var e := events[|events| - 1];
     && KeepsPlan(cat, org, plan, events[..|events| - 1])
     && (e.Upserted? && e.org == org && Acceptable(cat, e.stripe) ==> cat.prices[e.stripe.price] == plan))
  }

  lemma {:induction false} PlanStays(cat: Catalogue, s: State, org: Org, plan: PlanId, events: seq<Event>)
    requires OnPlan(s, org, plan) && KeepsPlan(cat, org, plan, events)
    ensures OnPlan(Run(cat, s, events), org, plan)
  {
    if events != [] {
      PlanStays(cat, s, org, plan, events[..|events| - 1]);
    }
  }

  /** So only an event for another plan can make the redelivery grant what the crash withheld: with
      none in between, any number of redeliveries, purchases, charges and invoices later, it leaves
      the books as they are. */
  lemma OnlyAnotherPlanRepairsACrash(cat: Catalogue, s: State, org: Org, o: StripeObject, between: seq<Event>)
    requires Acceptable(cat, o) && KeepsPlan(cat, org, cat.prices[o.price], between)
    ensures var before := Run(cat, Mirror(cat, s, org, o), between);
            Redelivery(cat, before, org, o) == before.books
  {
    PlanStays(cat, Mirror(cat, s, org, o), org, cat.prices[o.price], between);
  }

  /** After a move to another plan and back the redelivery does grant them. */
  lemma AnotherPlanCanRepairACrash(org: Org)
    ensures var cat := Catalogue(map["a" := "A", "b" := "B"], map["A" := 10, "B" := 20]);
            var start := State(Books(map[], []), map[]);
            var o, other := StripeObject("sub", "a", "cus", "active"), StripeObject("sub", "b", "cus", "active");
            var moved := Run(cat, Mirror(cat, start, org, o), [Upserted(org, other)]);
            Remaining(moved.books, org) == 20 && Remaining(Redelivery(cat, moved, org, o), org) == 10
  {
    var cat := Catalogue(map["a" := "A", "b" := "B"], map["A" := 10, "B" := 20]);
    var start := State(Books(map[], []), map[]);
    var o, other := StripeObject("sub", "a", "cus", "active"), StripeObject("sub", "b", "cus", "active");
    assert [Upserted(org, other)][..0] == [];
    assert Run(cat, Mirror(cat, start, org, o), []) == Mirror(cat, start, org, o);
  }

  // ---- a new subscription and its first invoice --------------------------------------------

  predicate HasAllotment(cat: Catalogue, s: State, org: Org, o: StripeObject)
    requires o.price in cat.prices
  {
    var included := Included(cat, cat.prices[o.price]);
    org in s.books.balances && s.books.balances[org] == Balance(included, included)
  }

  lemma SingleOwner(orgs: set<Org>, org: Org)
    requires orgs == {org}
    ensures TheOnly(orgs) == Some(org)
  {
    assert |orgs| == 1;
  }

  /** Created first, then invoiced: the allotment, whatever was there before. */
  lemma CreatedThenInvoiced(cat: Catalogue, s: State, org: Org, o: StripeObject)
    requires Acceptable(cat, o) && o.id != "" && Owners(s.subs, o.id) <= {org}
    ensures HasAllotment(cat, Run(cat, s, [Upserted(org, o), InvoicePaid(o.id)]), org, o)
  {
    var created := Upsert(cat, s, org, o).0;
    RunTwo(cat, s, Upserted(org, o), InvoicePaid(o.id));
    assert Owners(created.subs, o.id) == {org};
    SingleOwner(Owners(created.subs, o.id), org);
  }

  /** Invoiced first, then created: the allotment exactly when the organization was not already on
      that plan through another subscription, or had the allotment to begin with. */
  lemma InvoicedThenCreated(cat: Catalogue, s: State, org: Org, o: StripeObject)
    requires Acceptable(cat, o) && o.id != "" && Owners(s.subs, o.id) <= {org}
    ensures HasAllotment(cat, Run(cat, s, [InvoicePaid(o.id), Upserted(org, o)]), org, o)
            <==> PlanChanges(cat, s, org, o) || s.subs[org].stripeId == o.id || HasAllotment(cat, s, org, o)
  {
    RunTwo(cat, s, InvoicePaid(o.id), Upserted(org, o));
    if org in s.subs && s.subs[org].stripeId == o.id {
      assert Owners(s.subs, o.id) == {org};
      SingleOwner(Owners(s.subs, o.id), org);
    } else {
      assert Owners(s.subs, o.id) == {};
    }
  }

  lemma RunTwo(cat: Catalogue, s: State, first: Event, second: Event)
    ensures Run(cat, s, [first, second]) == Handle(cat, Handle(cat, s, first).0, second).0
  {
    assert [first, second][..1] == [first] && [first][..0] == [];
    assert Run(cat, s, []) == s;
    assert Run(cat, s, [first]) == Handle(cat, s, first).0;
  }

  /** The order matters to a customer who cancels and comes back to the same plan: cancelling keeps
      the row, so the invoice finds no owner and the new subscription no change of plan. */
  lemma AReturningCustomerCanMissTheRefill(org: Org)
    ensures var cat := Catalogue(map["price" := "feeder"], map["feeder" := 1500]);
            var used := State(Books(map[org := Balance(0, 1500)], []),
                              map[org := Subscription("feeder", "sub_1", "cus", "canceled")]);
            var o := StripeObject("sub_2", "price", "cus", "active");
            Remaining(Run(cat, used, [InvoicePaid("sub_2"), Upserted(org, o)]).books, org) == 0
  {
    var cat := Catalogue(map["price" := "feeder"], map["feeder" := 1500]);
    var used := State(Books(map[org := Balance(0, 1500)], []),
                      map[org := Subscription("feeder", "sub_1", "cus", "canceled")]);
    var o := StripeObject("sub_2", "price", "cus", "active");
    RunTwo(cat, used, InvoicePaid("sub_2"), Upserted(org, o));
    assert Owners(used.subs, "sub_2") == {};
  }

  // ---- the service ------------------------------------------------------------------------

  class BillingService {
    const cat: Catalogue
    const usage: UsageStore
    var subscriptions: map<Org, Subscription>

    ghost function View(): State
      reads this, usage
    {
      State(usage.View(), subscriptions)
    }

    constructor (cat: Catalogue, usage: UsageStore)
      ensures this.cat == cat && this.usage == usage && subscriptions == map[]
    {
      this.cat, this.usage, subscriptions := cat, usage, map[];
    }

    method UpsertSubscription(org: Org, o: StripeObject) returns (outcome: Outcome)
      modifies this`subscriptions, usage
      ensures (View(), outcome) == Upsert(cat, old(View()), org, o)
    {
      if o.price !in cat.prices {
        return NoSuchPlan;
      }
      var plan := cat.prices[o.price];
      var planChanged := org !in subscriptions || subscriptions[org].plan != plan;
      if o.status !in STATUSES {
        return UnknownStatus;
      }
      subscriptions := subscriptions[org := Subscription(plan, o.id, o.customer, o.status)];
      if planChanged {
        usage.SetPlanAllotment(org, Included(cat, plan));
      }
      outcome := Done;
    }

    method RefillCreditsForInvoice(stripeId: string) returns (outcome: Outcome)
      modifies usage
      ensures (View(), outcome) == Refill(cat, old(View()), stripeId)
    {
      if stripeId == "" {
        return Done;
      }
      var owners := Owners(subscriptions, stripeId);
      if owners == {} {
        return Done;
      }
      var org :| org in owners;
      if owners != {org} {
        assert |owners| != 1 by {
          assert |owners| == |owners - {org}| + 1;
        }
        return SeveralOwners;
      }
      SingleOwner(owners, org);
      usage.SetPlanAllotment(org, Included(cat, subscriptions[org].plan));
      outcome := Done;
    }

    method ApplyCreditPurchase(org: Org, credits: nat)
      modifies usage
      ensures View() == Handle(cat, old(View()), Purchased(org, credits)).0
    {
      usage.AddCredits(org, credits);
    }
  }
}
