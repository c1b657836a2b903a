/** The customer and billing services over their shared tables, each operation proved to be its specification step. */
module AllocationClass {
  import opened Wrappers
  import opened Selection
  import opened Allocation
  import Router

  class Service {
    const enforced: bool
    const routed: bool
    const router: Router.Service
    var fleet: Fleet
    var online: set<string>
    var customers: map<string, string>
    var plans: map<string, Plan>
    var subs: seq<Subscription>
    var legacyPlans: map<string, Plan>
    var legacySubs: seq<Subscription>
    var invoices: map<string, Invoice>
    var allocs: seq<Allocation>

    ghost function View(): Store
      reads this, router
    {
      Store(enforced, routed, fleet, online, router.View(), customers, plans, subs, legacyPlans, legacySubs, invoices,
          allocs)
    }

    constructor (enforced: bool, routed: bool, router: Router.Service, fleet: Fleet, online: set<string>)
      ensures this.router == router
      ensures View() == Store(enforced, routed, fleet, online, router.View(), map[], map[], [], map[], [], map[], [])
    {
      this.enforced, this.routed, this.router, this.fleet, this.online := enforced, routed, router, fleet, online;
      customers, plans, legacyPlans, invoices := map[], map[], map[], map[];
      subs, legacySubs, allocs := [], [], [];
    }

    // ----- reading

    method ActiveCount(w: Whose) returns (count: nat)
      ensures count == CountOf(allocs, w, |allocs|)
    {
      count := 0;
      for i := 0 to |allocs|
        invariant count == CountOf(allocs, w, i)
      {
        if Counts(w, allocs[i]) {
          count := count + 1;
        }
      }
    }

    method CurrentFleet() returns (f: Fleet)
      ensures f == FleetNow(View())
    {
      var loads := map[];
      for i := 0 to |fleet.proxies|
        invariant loads == LoadsUpto(fleet.proxies, allocs, i)
      {
        var load := ActiveCount(OfProxy(fleet.proxies[i].id));
        loads := loads[fleet.proxies[i].id := load];
      }
      f := fleet.(loads := loads);
    }

    static method LatestSubscription(table: seq<Subscription>, customer: string, now: int, started: bool)
      returns (sub: Option<Subscription>)
      ensures sub == Latest(table, customer, now, started, |table|)
    {
      sub := None;
      for i := 0 to |table|
        invariant sub == Latest(table, customer, now, started, i)
      {
        var s := table[i];
        if && s.customer == customer && s.status == "active" && (!started || s.startsAt <= now) && s.expiresAt > now
           && (sub.None? || s.expiresAt > sub.value.expiresAt) {
          sub := Some(s);
        }
      }
    }

    method ActiveCommercialSubscription(customer: string, now: int) returns (plan: Result<Plan, Refusal>)
      ensures plan == CommercialPlan(View(), customer, now)
    {
      var sub := LatestSubscription(subs, customer, now, true);
      if sub.None? {
        return Failure(NoSubscription);
      }
      if sub.value.plan !in plans || !plans[sub.value.plan].active {
        return Failure(NoPlan);
      }
      plan := Success(plans[sub.value.plan]);
    }

    static method JsonListAllows(list: AllowList, value: string) returns (ok: bool)
      ensures ok <==> Allows(list, value)
    {
      if list.Everything? {
        return true;
      }
      for i := 0 to |list.values|
        invariant forall k :: 0 <= k < i ==> !EqualFold(list.values[k], value)
      {
        if EqualFold(list.values[i], value) {
          return true;
        }
      }
      ok := false;
    }

    method EnforceAllocation(customer: string, country: string, now: int) returns (plan: Result<Plan, Refusal>)
      ensures plan == Enforced(View(), customer, country, now)
    {
      plan := ActiveCommercialSubscription(customer, now);
      if plan.Failure? {
        return;
      }
      var count := ActiveCount(OfCustomer(customer));
      if plan.value.maxProxies > 0 && count >= plan.value.maxProxies {
        return Failure(LimitReached);
      }
      var allowed := JsonListAllows(plan.value.countries, country);
      if country != "" && !allowed {
        return Failure(CountryNotAllowed);
      }
      var bytes := 0;
      for i := 0 to |allocs|
        invariant bytes == Usage(allocs, customer, i)
      {
        if allocs[i].customer == customer {
          bytes := bytes + allocs[i].bytesIn + allocs[i].bytesOut;
        }
      }
      if plan.value.bandwidthGB > 0 && bytes >= plan.value.bandwidthGB * GIGABYTE {
        return Failure(BandwidthReached);
      }
    }

    method ActiveSubscription(customer: string, now: int) returns (plan: Result<Plan, Refusal>)
      ensures plan == PlanInForce(View(), customer, now)
    {
      if enforced {
        plan := ActiveCommercialSubscription(customer, now);
        if plan.Success? {
          return Success(plan.value.(modes := Everything));
        }
      }
      var sub := LatestSubscription(legacySubs, customer, now, false);
      if sub.None? {
        return Failure(NoSubscription);
      }
      if sub.value.plan !in legacyPlans || !legacyPlans[sub.value.plan].active {
        return Failure(NoPlan);
      }
      plan := Success(legacyPlans[sub.value.plan]);
    }

    method CheckAllocationAllowed(
      customer: string, plan: Plan, country: string, mode: string) returns (refusal: Option<Refusal>)
      ensures refusal == Checked(View(), customer, plan, country, mode)
    {
      var count := ActiveCount(OfCustomer(customer));
      if plan.maxProxies > 0 && count >= plan.maxProxies {
        return Some(LimitReached);
      }
      var countryAllowed := JsonListAllows(plan.countries, country);
      if country != "" && !countryAllowed {
        return Some(CountryNotAllowed);
      }
      var modeAllowed := JsonListAllows(plan.modes, mode);
      if mode != "" && !modeAllowed {
        return Some(ModeNotAllowed);
      }
      refusal := None;
    }

    // ----- allocating

    method Fallback(r: Request) returns (row: Option<nat>)
      ensures row == FallbackRow(View(), r, |fleet.proxies|)
    {
      row := None;
      for i := 0 to |fleet.proxies|
        invariant row == FallbackRow(View(), r, i)
      {
        var p := fleet.proxies[i];
        var held := ActiveCount(OfProxy(p.id));
        if && p.status != Quality.Errored && (r.kind == "" || p.kind == r.kind)
           && (r.country == "" || p.country == r.country || p.agent in online)
           && held == 0 && (row.None? || p.updatedAt > fleet.proxies[row.value].updatedAt) {
          row := Some(i);
        }
      }
    }

    method CheckPermit(r: Request, now: int) returns (refusal: Option<Refusal>)
      ensures refusal == Permit(View(), r.customer, r.country, r.mode, now)
    {
      var plan := ActiveSubscription(r.customer, now);
      if plan.Failure? {
        return Some(plan.error);
      }
      if enforced {
        var commercial := EnforceAllocation(r.customer, r.country, now);
        if commercial.Failure? {
          return Some(commercial.error);
        }
      }
      refusal := CheckAllocationAllowed(r.customer, plan.value, r.country, r.mode);
    }

    method AllocateProxy(r: Request, id: string, now: int) returns (row: Result<nat, Refusal>)
      requires Router.DistinctIds(fleet)
      modifies this, router
      ensures row == Allocated(old(View()), r, now) && View() == AfterAllocate(old(View()), r, id, now)
    {
      var refusal := CheckPermit(r, now);
      if refusal.Some? {
        return Failure(refusal.value);
      }
      var chosen: Option<nat> := None;
      if routed {
        var f := CurrentFleet();
        var picked := router.SelectProxy(f, RoutingInput(r), now);
        if picked.Some? && picked.value.proxy.id != "" {
          chosen := Some(picked.value.row);
        }
      }
      if chosen.None? {
        chosen := Fallback(r);
        FallbackIgnoresRouting(old(View()), View(), r, |fleet.proxies|);
        if chosen.None? {
          return Failure(NoProxy);
        }
      }
      AllocatedRowExists(old(View()), r, now);
      var p := fleet.proxies[chosen.value];
      var country := p.country;
      if country == "" {
        country := r.country;
      }
      allocs := allocs + [Allocation(id, r.customer, p.id, Active, DefaultRotation(r.mode), country, 0, 0)];
      fleet := fleet.(proxies := fleet.proxies[chosen.value := p.(updatedAt := now)]);
      row := Success(chosen.value);
    }

    method ReleaseProxy(customer: string, id: string)
      modifies this`allocs
      ensures View() == old(View()).(allocs := Released(old(allocs), customer, id))
    {
      ghost var before := allocs;
      for i := 0 to |allocs|
        invariant |allocs| == |before|
        invariant forall k :: 0 <= k < |before| ==>
                  allocs[k] == if k < i then ReleasedRow(before[k], customer, id) else before[k]
      {
        if allocs[i].id == id && allocs[i].customer == customer {
          allocs := allocs[i := allocs[i].(status := Deleted)];
        }
      }
      assert allocs == Released(before, customer, id);
    }

    /** Releases first: a refused allocation leaves the customer without the proxy. */
    method RotateProxy(customer: string, id: string, newId: string, now: int) returns (row: Result<nat, Refusal>)
      requires Router.DistinctIds(fleet)
      modifies this, router
      ensures View() == Do(old(View()), Op.RotateProxy(customer, id, newId, now))
      ensures row == Allocated(old(View()).(allocs := Released(old(allocs), customer, id)), Rotating(customer), now)
    {
      ReleaseProxy(customer, id);
      row := AllocateProxy(Request(customer, "", "rotating", ""), newId, now);
    }

    method RotateAllocation(customer: string, id: string, now: int) returns (c: Result<Candidate, Refusal>)
      requires Router.DistinctIds(fleet)
      modifies this`allocs
      ensures c == Replacement(old(View()), customer, id, now)
      ensures View() == AfterRotation(old(View()), customer, id, now)
    {
      var found := FindAllocation(allocs, customer, id, 0);
      if found.None? {
        return Failure(NoAllocation);
      }
      var a := allocs[found.value];
      var f := CurrentFleet();
      var ranked := router.Candidates(f, RotationInput(a, customer), now);
      for i := 0 to |ranked|
        invariant FirstOther(ranked, a.proxy, 0) == FirstOther(ranked, a.proxy, i)
        invariant allocs == old(allocs)
      {
        if ranked[i].proxy.id == a.proxy {
          continue;
        }
        MoveAllocation(id, ranked[i].proxy.id);
        return Success(ranked[i]);
      }
      c := Failure(NoProxy);
    }

    method MoveAllocation(id: string, proxy: string)
      modifies this`allocs
      ensures allocs == Moved(old(allocs), id, proxy)
    {
      ghost var before := allocs;
      for i := 0 to |allocs|
        invariant |allocs| == |before|
        invariant forall k :: 0 <= k < |before| ==>
                  allocs[k] == if k < i then MovedRow(before[k], id, proxy) else before[k]
      {
        if allocs[i].id == id {
          allocs := allocs[i := allocs[i].(proxy := proxy)];
        }
      }
      assert allocs == Moved(before, id, proxy);
    }

    method RecordUsage(customer: string, proxy: string, bytesIn: nat, bytesOut: nat)
      modifies this`allocs
      ensures View() == Do(old(View()), Op.RecordUsage(customer, proxy, bytesIn, bytesOut))
    {
      ghost var before := allocs;
      if customer == "" || proxy == "" {
        assert allocs == Used(before, customer, proxy, bytesIn, bytesOut);
        return;
      }
      for i := 0 to |allocs|
        invariant |allocs| == |before|
        invariant forall k :: 0 <= k < |before| ==>
                    allocs[k] == if k < i then UsedRow(before[k], customer, proxy, bytesIn, bytesOut) else before[k]
      {
        var a := allocs[i];
        if a.customer == customer && a.proxy == proxy && a.status != Deleted {
          allocs := allocs[i := a.(bytesIn := a.bytesIn + bytesIn, bytesOut := a.bytesOut + bytesOut)];
        }
      }
      assert allocs == Used(before, customer, proxy, bytesIn, bytesOut);
    }

    /** SuspendProxy of the abuse service, which is given an allocation's id. */
    method SuspendProxy(id: string)
      modifies this`allocs
      ensures View() == Do(old(View()), Op.SuspendProxy(id))
    {
      ghost var before := allocs;
      for i := 0 to |allocs|
        invariant |allocs| == |before|
        invariant forall k :: 0 <= k < |before| ==> allocs[k] == if k < i then StoppedRow(before[k], id) else before[k]
      {
        if allocs[i].id == id {
          allocs := allocs[i := allocs[i].(status := Suspended)];
        }
      }
      assert allocs == SuspendedOne(before, id);
    }

    // ----- billing

    method SuspendExistingAllocations(customer: string)
      modifies this`allocs
      ensures allocs == SuspendedAll(old(allocs), customer)
    {
      ghost var before := allocs;
      for i := 0 to |allocs|
        invariant |allocs| == |before|
        invariant forall k :: 0 <= k < |before| ==>
                  allocs[k] == if k < i then SuspendedRow(before[k], customer) else before[k]
      {
        if allocs[i].customer == customer && allocs[i].status == Active {
          allocs := allocs[i := allocs[i].(status := Suspended)];
        }
      }
      assert allocs == SuspendedAll(before, customer);
    }

    method SetCustomerStatus(customer: string, status: string)
      modifies this`customers
      ensures customers == WithCustomer(old(customers), customer, status)
    {
      if customer in customers {
        customers := customers[customer := status];
      }
    }

    method SuspendCustomer(customer: string)
      modifies this
      ensures View() == Do(old(View()), Op.SuspendCustomer(customer))
    {
      SetCustomerStatus(customer, "suspended");
      ghost var before := subs;
      for i := 0 to |subs|
        modifies this`subs
        invariant |subs| == |before|
        invariant forall k :: 0 <= k < |before| ==>
                    subs[k] == if k < i && before[k].customer == customer then before[k].(status := "suspended")
                        else before[k]
      {
        if subs[i].customer == customer {
          subs := subs[i := subs[i].(status := "suspended")];
        }
      }
      assert subs == AllSuspended(before, customer);
      SuspendExistingAllocations(customer);
    }

    method ActivateCustomer(customer: string)
      modifies this`customers
      ensures View() == Do(old(View()), Op.ActivateCustomer(customer))
    {
      SetCustomerStatus(customer, "active");
    }

    method SetSubscriptionStatus(id: string, status: string)
      modifies this`subs
      ensures subs == WithStatus(old(subs), id, status)
    {
      ghost var before := subs;
      for i := 0 to |subs|
        invariant |subs| == |before|
        invariant forall k :: 0 <= k < |before| ==>
                    subs[k] == if k < i && before[k].id == id then before[k].(status := status) else before[k]
      {
        if subs[i].id == id {
          subs := subs[i := subs[i].(status := status)];
        }
      }
      assert subs == WithStatus(before, id, status);
    }

    method UpdateSubscriptionStatus(id: string, status: string) returns (refusal: Option<Refusal>)
      modifies this
      ensures refusal == if ValidStatus(status) then None else Some(InvalidStatus)
      ensures View() == Do(old(View()), Op.UpdateSubscriptionStatus(id, status))
    {
      if !ValidStatus(status) {
        return Some(InvalidStatus);
      }
      SetSubscriptionStatus(id, status);
      RelabellingKeepsRows(old(subs), id, status, 0);
      if status == "suspended" || status == "expired" || status == "cancelled" {
        var row := FindSubscription(subs, id, 0);
        if row.Some? {
          SuspendExistingAllocations(subs[row.value].customer);
        }
      }
      refusal := None;
    }

    method MarkInvoicePaid(invoice: string) returns (refusal: Option<Refusal>)
      modifies this
      ensures refusal == if invoice in old(invoices) then None else Some(NoInvoice)
      ensures View() == Do(old(View()), Op.MarkInvoicePaid(invoice))
    {
      if invoice !in invoices {
        return Some(NoInvoice);
      }
      var i := invoices[invoice];
      invoices := invoices[invoice := i.(status := "paid")];
      if i.subscription != "" {
        SetSubscriptionStatus(i.subscription, "active");
      }
      refusal := None;
    }

    method CreateSubscription(id: string, customer: string, plan: string, days: int, status: string, now: int)
      modifies this`subs
      ensures View() == Do(old(View()), Op.CreateSubscription(id, customer, plan, days, status, now))
    {
      var length, state := days, status;
      if length <= 0 {
        length := 30;
      }
      if state == "" {
        state := "pending";
      }
      subs := subs + [Subscription(id, customer, plan, state, now, now + length * DAY)];
    }

    method ActivateSubscription(id: string, customer: string, plan: string, days: int, now: int)
      modifies this`legacySubs
      ensures View() == Do(old(View()), Op.ActivateSubscription(id, customer, plan, days, now))
    {
      var length := days;
      if length == 0 {
        length := 30;
      }
      legacySubs := legacySubs + [Subscription(id, customer, plan, "active", now, now + length * DAY)];
    }
  }

  lemma {:induction false} FallbackIgnoresRouting(st: Store, other: Store, r: Request, n: nat)
    requires n <= |st.fleet.proxies| && other == st.(routing := other.routing)
    ensures FallbackRow(st, r, n) == FallbackRow(other, r, n)
  {
    if n > 0 {
      FallbackIgnoresRouting(st, other, r, n - 1);
    }
  }

  lemma {:induction false} RelabellingKeepsRows(subs: seq<Subscription>, id: string, status: string, i: nat)
    requires i <= |subs|
    ensures FindSubscription(WithStatus(subs, id, status), id, i) == FindSubscription(subs, id, i)
    ensures forall k :: 0 <= k < |subs| ==> WithStatus(subs, id, status)[k].customer == subs[k].customer
    decreases |subs| - i
  {
    if i < |subs| {
      RelabellingKeepsRows(subs, id, status, i + 1);
    }
  }
}
