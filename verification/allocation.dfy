/** Customers, their subscriptions and their proxy allocations, as the customer and billing services change them. */
module Allocation {
  import opened Wrappers
  import opened Quality
  import opened Selection
  import Router

  const DAY := 24 * Router.HOUR
  const GIGABYTE := 1024 * 1024 * 1024

  datatype AllowList = Everything | Only(values: seq<string>)

  datatype Plan = Plan(active: bool, maxProxies: int, countries: AllowList, modes: AllowList, bandwidthGB: int)

  datatype Subscription = Subscription(id: string, customer: string, plan: string, status: string, startsAt: int,
      expiresAt: int)

  datatype AllocationStatus = Active | Suspended | Deleted

  datatype Allocation = Allocation(
    id: string, customer: string, proxy: string, status: AllocationStatus, mode: string, country: string,
    bytesIn: nat, bytesOut: nat)

  datatype Invoice = Invoice(subscription: string, status: string)

  /** The tables; `fleet.loads` is not stored, it is counted from `allocs`. `enforced` and `routed` say whether a
      billing enforcer and a router are plugged in; `online` holds the agents whose row is there and not offline. */
  datatype Store = Store(
    enforced: bool, routed: bool,
    fleet: Fleet, online: set<string>, routing: Router.State,
    customers: map<string, string>,
    plans: map<string, Plan>, subs: seq<Subscription>,
    legacyPlans: map<string, Plan>, legacySubs: seq<Subscription>,
    invoices: map<string, Invoice>, allocs: seq<Allocation>)

  datatype Refusal =
    | NoSubscription | NoPlan | LimitReached | CountryNotAllowed | ModeNotAllowed | BandwidthReached | NoProxy
    | NoAllocation | NoInvoice | InvalidStatus

  // ----- counting allocations

  datatype Whose = OfCustomer(customer: string) | OfProxy(proxy: string) | Anyones

  predicate Counts(w: Whose, a: Allocation) {
    a.status == Active && match w
      case OfCustomer(c) => a.customer == c
      case OfProxy(p) => a.proxy == p
      case Anyones => true
  }

  /** Active allocations among the first n rows. */
  function CountOf(allocs: seq<Allocation>, w: Whose, n: nat): nat
    requires n <= |allocs|
  {
    if n == 0 then 0 else CountOf(allocs, w, n - 1) + (if Counts(w, allocs[n - 1]) then 1 else 0)
  }

  /** Traffic over the first n rows of a customer, whatever their status. */
  function Usage(allocs: seq<Allocation>, customer: string, n: nat): nat
    requires n <= |allocs|
  {
    if n == 0 then 0
    else Usage(allocs, customer, n - 1) +
         (if allocs[n - 1].customer == customer then allocs[n - 1].bytesIn + allocs[n - 1].bytesOut else 0)
  }

  function LoadsUpto(proxies: seq<Proxy>, allocs: seq<Allocation>, n: nat): map<string, nat>
    requires n <= |proxies|
  {
    if n == 0 then map[]
    else LoadsUpto(proxies, allocs, n - 1)[proxies[n - 1].id := CountOf(allocs, OfProxy(proxies[n - 1].id), |allocs|)]
  }

  function FleetNow(st: Store): Fleet {
    st.fleet.(loads := LoadsUpto(st.fleet.proxies, st.allocs, |st.fleet.proxies|))
  }

  // ----- subscriptions and quotas

  /** The active subscription of the customer that expires last, among the first n rows; `started` asks for begun
      ones. */
  function Latest(subs: seq<Subscription>, customer: string, now: int, started: bool, n: nat): Option<Subscription>
    requires n <= |subs|
  {
    if n == 0 then None
    else
      var best, s := Latest(subs, customer, now, started, n - 1), subs[n - 1];
      if && s.customer == customer && s.status == "active" && s.expiresAt > now && (started ==> s.startsAt <= now)
         && (best.None? || s.expiresAt > best.value.expiresAt)
      then Some(s) else best
  }

  function PlanOf(plans: map<string, Plan>, sub: Option<Subscription>): Result<Plan, Refusal> {
    if sub.None? then Failure(NoSubscription)
    else if sub.value.plan in plans && plans[sub.value.plan].active then Success(plans[sub.value.plan])
    else Failure(NoPlan)
  }

  function CommercialPlan(st: Store, customer: string, now: int): Result<Plan, Refusal> {
    PlanOf(st.plans, Latest(st.subs, customer, now, true, |st.subs|))
  }

  /** The commercial plan, which carries over no rotation modes, or else the legacy one. */
  function PlanInForce(st: Store, customer: string, now: int): Result<Plan, Refusal> {
    if st.enforced && CommercialPlan(st, customer, now).Success?
    then Success(CommercialPlan(st, customer, now).value.(modes := Everything))
    else PlanOf(st.legacyPlans, Latest(st.legacySubs, customer, now, false, |st.legacySubs|))
  }

  predicate Allows(list: AllowList, value: string) {
    list.Everything? || exists i :: 0 <= i < |list.values| && EqualFold(list.values[i], value)
  }

  predicate Full(st: Store, plan: Plan, customer: string) {
    plan.maxProxies > 0 && CountOf(st.allocs, OfCustomer(customer), |st.allocs|) >= plan.maxProxies
  }

  function Enforced(st: Store, customer: string, country: string, now: int): Result<Plan, Refusal> {
    var plan := CommercialPlan(st, customer, now);
    if plan.Failure? then plan
    else if Full(st, plan.value, customer) then Failure(LimitReached)
    else if country != "" && !Allows(plan.value.countries, country) then Failure(CountryNotAllowed)
    else if plan.value.bandwidthGB > 0 && Usage(st.allocs, customer, |st.allocs|) >= plan.value.bandwidthGB * GIGABYTE
      then Failure(BandwidthReached)
    else plan
  }

  function Checked(st: Store, customer: string, plan: Plan, country: string, mode: string): Option<Refusal> {
    if Full(st, plan, customer) then Some(LimitReached)
    else if country != "" && !Allows(plan.countries, country) then Some(CountryNotAllowed)
    else if mode != "" && !Allows(plan.modes, mode) then Some(ModeNotAllowed)
    else None
  }

  /** Every gate AllocateProxy passes before it looks for a proxy. */
  function Permit(st: Store, customer: string, country: string, mode: string, now: int): Option<Refusal> {
    var plan := PlanInForce(st, customer, now);
    if plan.Failure? then Some(plan.error)
    else if st.enforced && Enforced(st, customer, country, now).Failure?
        then Some(Enforced(st, customer, country, now).error)
    else Checked(st, customer, plan.value, country, mode)
  }

  // ----- allocating

  datatype Request = Request(customer: string, country: string, mode: string, kind: string)

  function DefaultRotation(mode: string): string {
    if mode == "" then "static" else mode
  }

  function RoutingInput(r: Request): Input {
    Input(r.customer, r.country, "", "", "", "", "", r.kind, ByWeight, r.customer + ":" + r.country,
        DefaultRotation(r.mode))
  }

  function RoutedRow(st: Store, r: Request, now: int): Option<nat> {
    if !st.routed then None
    else
      var c := Router.Picked(FleetNow(st), RoutingInput(r), now, st.routing);
      if c.Some? && c.value.proxy.id != "" then Some(c.value.row) else None
  }

  predicate FallbackFits(st: Store, r: Request, p: Proxy) {
    && p.status != Errored
    && (r.kind == "" || p.kind == r.kind)
    && (r.country == "" || p.country == r.country || p.agent in st.online)
    && CountOf(st.allocs, OfProxy(p.id), |st.allocs|) == 0
  }

  /** The most recently updated fitting proxy no one holds, among the first n rows. */
  function FallbackRow(st: Store, r: Request, n: nat): (row: Option<nat>)
    requires n <= |st.fleet.proxies|
    ensures row.Some? ==> row.value < n && FallbackFits(st, r, st.fleet.proxies[row.value])
  {
    if n == 0 then None
    else
      var best := FallbackRow(st, r, n - 1);
      if && FallbackFits(st, r, st.fleet.proxies[n - 1])
         && (best.None? || st.fleet.proxies[n - 1].updatedAt > st.fleet.proxies[best.value].updatedAt)
      then Some(n - 1) else best
  }

  function ChosenRow(st: Store, r: Request, now: int): Result<nat, Refusal> {
    if RoutedRow(st, r, now).Some? then Success(RoutedRow(st, r, now).value)
    else
      var row := FallbackRow(st, r, |st.fleet.proxies|);
      if row.Some? then Success(row.value) else Failure(NoProxy)
  }

  function Allocated(st: Store, r: Request, now: int): Result<nat, Refusal> {
    var refused := Permit(st, r.customer, r.country, r.mode, now);
    if refused.Some? then Failure(refused.value) else ChosenRow(st, r, now)
  }

  function NewAllocation(p: Proxy, r: Request, id: string): Allocation {
    Allocation(id, r.customer, p.id, Active, DefaultRotation(r.mode), if p.country != "" then p.country
        else r.country, 0, 0)
  }

  lemma {:induction false} EligibleRowsExist(f: Fleet, input: Input, now: int, st: Router.State)
    ensures var c := Router.Picked(f, input, now, st); c.Some? ==> c.value.row < |f.proxies|
  {
    if Router.StickyHit(f, input, now, st).None? {
      Router.SelectionIsExact(f, input, now, st);
    }
  }

  lemma AllocatedRowExists(st: Store, r: Request, now: int)
    ensures Allocated(st, r, now).Success? ==> Allocated(st, r, now).value < |st.fleet.proxies|
  {
    EligibleRowsExist(FleetNow(st), RoutingInput(r), now, st.routing);
  }

  function RoutingAfter(st: Store, r: Request, now: int): Router.State {
    if st.routed && Permit(st, r.customer, r.country, r.mode, now).None?
    then Router.StateAfterPick(FleetNow(st), RoutingInput(r), now, st.routing)
    else st.routing
  }

  function AfterAllocate(st: Store, r: Request, id: string, now: int): Store {
    var row := Allocated(st, r, now);
    if row.Failure? then st.(routing := RoutingAfter(st, r, now))
    else
      AllocatedRowExists(st, r, now);
      var p := st.fleet.proxies[row.value];
      st.(routing := RoutingAfter(st, r, now),
          fleet := st.fleet.(proxies := st.fleet.proxies[row.value := p.(updatedAt := now)]),
          allocs := st.allocs + [NewAllocation(p, r, id)])
  }

  // ----- releasing, rotating, suspending

  function ReleasedRow(a: Allocation, customer: string, id: string): Allocation {
    if a.id == id && a.customer == customer then a.(status := Deleted) else a
  }

  function SuspendedRow(a: Allocation, customer: string): Allocation {
    if a.customer == customer && a.status == Active then a.(status := Suspended) else a
  }

  /** An administrator's suspension does not look at the status there was. */
  function StoppedRow(a: Allocation, id: string): Allocation {
    if a.id == id then a.(status := Suspended) else a
  }

  function MovedRow(a: Allocation, id: string, proxy: string): Allocation {
    if a.id == id then a.(proxy := proxy) else a
  }

  function UsedRow(a: Allocation, customer: string, proxy: string, bytesIn: nat, bytesOut: nat): Allocation {
    if customer != "" && proxy != "" && a.customer == customer && a.proxy == proxy && a.status != Deleted
    then a.(bytesIn := a.bytesIn + bytesIn, bytesOut := a.bytesOut + bytesOut)
    else a
  }

  function Released(allocs: seq<Allocation>, customer: string, id: string): seq<Allocation> {
    seq(|allocs|, i requires 0 <= i < |allocs| => ReleasedRow(allocs[i], customer, id))
  }

  function SuspendedAll(allocs: seq<Allocation>, customer: string): seq<Allocation> {
    seq(|allocs|, i requires 0 <= i < |allocs| => SuspendedRow(allocs[i], customer))
  }

  function SuspendedOne(allocs: seq<Allocation>, id: string): seq<Allocation> {
    seq(|allocs|, i requires 0 <= i < |allocs| => StoppedRow(allocs[i], id))
  }

  function Moved(allocs: seq<Allocation>, id: string, proxy: string): seq<Allocation> {
    seq(|allocs|, i requires 0 <= i < |allocs| => MovedRow(allocs[i], id, proxy))
  }

  function Used(
    allocs: seq<Allocation>, customer: string, proxy: string, bytesIn: nat, bytesOut: nat): seq<Allocation> {
    seq(|allocs|, i requires 0 <= i < |allocs| => UsedRow(allocs[i], customer, proxy, bytesIn, bytesOut))
  }

  /** The customer's allocation of that id, among rows i onwards. */
  function FindAllocation(allocs: seq<Allocation>, customer: string, id: string, i: nat): (row: Option<nat>)
    requires i <= |allocs|
    ensures row.Some? ==>
              i <= row.value < |allocs| && allocs[row.value].id == id && allocs[row.value].customer == customer
    ensures row.None? ==> forall k :: i <= k < |allocs| ==> !(allocs[k].id == id && allocs[k].customer == customer)
    decreases |allocs| - i
  {
    if i == |allocs| then None
    else if allocs[i].id == id && allocs[i].customer == customer then Some(i)
    else FindAllocation(allocs, customer, id, i + 1)
  }

  function FirstOther(ranked: seq<Candidate>, proxy: string, i: nat): (c: Option<Candidate>)
    requires i <= |ranked|
    decreases |ranked| - i
  {
    if i == |ranked| then None
    else if ranked[i].proxy.id != proxy then Some(ranked[i])
    else FirstOther(ranked, proxy, i + 1)
  }

  function RotationInput(a: Allocation, customer: string): Input {
    Input(customer, a.country, "", "", "", "", "", "", ByWeight, "", a.mode)
  }

  /** The proxy RotateAllocation moves to. */
  function Replacement(st: Store, customer: string, id: string, now: int): Result<Candidate, Refusal> {
    var row := FindAllocation(st.allocs, customer, id, 0);
    if row.None? then Failure(NoAllocation)
    else
      var a := st.allocs[row.value];
      var c := FirstOther(Ranked(FleetNow(st), RotationInput(a, customer), now), a.proxy, 0);
      if c.None? then Failure(NoProxy) else Success(c.value)
  }

  function AfterRotation(st: Store, customer: string, id: string, now: int): Store {
    var c := Replacement(st, customer, id, now);
    if c.Failure? then st else st.(allocs := Moved(st.allocs, id, c.value.proxy.id))
  }

  // ----- subscriptions

  function WithStatus(subs: seq<Subscription>, id: string, status: string): seq<Subscription> {
    seq(|subs|, i requires 0 <= i < |subs| => if subs[i].id == id then subs[i].(status := status) else subs[i])
  }

  function AllSuspended(subs: seq<Subscription>, customer: string): seq<Subscription> {
    seq(|subs|, i requires 0 <= i < |subs| => if subs[i].customer == customer then subs[i].(status := "suspended")
        else subs[i])
  }

  predicate ValidStatus(status: string) {
    status == "active" || status == "expired" || status == "cancelled" || status == "suspended" || status == "pending"
  }

  predicate Stops(status: string) {
    status == "suspended" || status == "expired" || status == "cancelled"
  }

  function FindSubscription(subs: seq<Subscription>, id: string, i: nat): (row: Option<nat>)
    requires i <= |subs|
    ensures row.Some? ==> i <= row.value < |subs| && subs[row.value].id == id
    ensures row.None? ==> forall k :: i <= k < |subs| ==> subs[k].id != id
    decreases |subs| - i
  {
    if i == |subs| then None
    else if subs[i].id == id then Some(i)
    else FindSubscription(subs, id, i + 1)
  }

  function AfterStatus(st: Store, id: string, status: string): Store {
    if !ValidStatus(status) then st
    else
      var row := FindSubscription(st.subs, id, 0);
      var changed := st.(subs := WithStatus(st.subs, id, status));
      if Stops(status) && row.Some? then changed.(allocs := SuspendedAll(st.allocs, st.subs[row.value].customer))
          else changed
  }

  function AfterPaid(st: Store, invoice: string): Store {
    if invoice !in st.invoices then st
    else
      var i := st.invoices[invoice];
      var paid := st.(invoices := st.invoices[invoice := i.(status := "paid")]);
      if i.subscription != "" then paid.(subs := WithStatus(st.subs, i.subscription, "active")) else paid
  }

  function NewSubscription(
    id: string, customer: string, plan: string, days: int, status: string, now: int): Subscription {
    Subscription(id, customer, plan, if status == "" then "pending" else status, now,
                 now + (if days <= 0 then 30 else days) * DAY)
  }

  function NewLegacy(id: string, customer: string, plan: string, days: int, now: int): Subscription {
    Subscription(id, customer, plan, "active", now, now + (if days == 0 then 30 else days) * DAY)
  }

  function WithCustomer(customers: map<string, string>, customer: string, status: string): map<string, string> {
    if customer in customers then customers[customer := status] else customers
  }

  function AfterSuspension(st: Store, customer: string): Store {
    st.(customers := WithCustomer(st.customers, customer, "suspended"), subs := AllSuspended(st.subs, customer),
        allocs := SuspendedAll(st.allocs, customer))
  }

  // ----- whole runs

  datatype Op =
    | Allocate(request: Request, id: string, now: int)
    | Release(customer: string, id: string)
    | RotateProxy(customer: string, id: string, newId: string, now: int)
    | RotateAllocation(customer: string, id: string, now: int)
    | RecordUsage(customer: string, proxy: string, bytesIn: nat, bytesOut: nat)
    | SuspendProxy(id: string)
    | SuspendCustomer(customer: string)
    | ActivateCustomer(customer: string)
    | UpdateSubscriptionStatus(id: string, status: string)
    | MarkInvoicePaid(invoice: string)
    | AddInvoice(invoice: string, subscription: string)
    | CreateSubscription(id: string, customer: string, plan: string, days: int, status: string, now: int)
    | ActivateSubscription(id: string, customer: string, plan: string, days: int, now: int)
    | FleetChanges(fleet: Fleet, online: set<string>)

  function Rotating(customer: string): Request {
    Request(customer, "", "rotating", "")
  }

  function Do(st: Store, op: Op): Store {
    match op
    case Allocate(r, id, now) => AfterAllocate(st, r, id, now)
    case Release(customer, id) => st.(allocs := Released(st.allocs, customer, id))
    case RotateProxy(customer, id, newId, now) =>
      AfterAllocate(st.(allocs := Released(st.allocs, customer, id)), Rotating(customer), newId, now)
    case RotateAllocation(customer, id, now) => AfterRotation(st, customer, id, now)
    case RecordUsage(customer, proxy, bytesIn,
      bytesOut) => st.(allocs := Used(st.allocs, customer, proxy, bytesIn, bytesOut))
    case SuspendProxy(id) => st.(allocs := SuspendedOne(st.allocs, id))
    case SuspendCustomer(customer) => AfterSuspension(st, customer)
    case ActivateCustomer(customer) => st.(customers := WithCustomer(st.customers, customer, "active"))
    case UpdateSubscriptionStatus(id, status) => AfterStatus(st, id, status)
    case MarkInvoicePaid(invoice) => AfterPaid(st, invoice)
    case AddInvoice(invoice, subscription) => st.(invoices := st.invoices[invoice := Invoice(subscription, "pending")])
    case CreateSubscription(id, customer, plan, days, status, now) =>
      st.(subs := st.subs + [NewSubscription(id, customer, plan, days, status, now)])
    case ActivateSubscription(id, customer, plan, days, now) =>
      st.(legacySubs := st.legacySubs + [NewLegacy(id, customer, plan, days, now)])
    case FleetChanges(fleet, online) => st.(fleet := fleet, online := online)
  }

  /** What the environment guarantees: new rows have fresh ids. A change of the fleet may bring, alter and delete proxy
      rows, whether or not allocations hold them. */
  predicate Legal(st: Store, op: Op) {
    match op
    case Allocate(_, id, _) => forall k :: 0 <= k < |st.allocs| ==> st.allocs[k].id != id
    case RotateProxy(_, _, newId, _) => forall k :: 0 <= k < |st.allocs| ==> st.allocs[k].id != newId
    case CreateSubscription(id, _, _, _, _, _) => forall k :: 0 <= k < |st.subs| ==> st.subs[k].id != id
    case AddInvoice(invoice, _) => invoice !in st.invoices
    case FleetChanges(fleet, _) => Router.DistinctIds(fleet)
    case _ => true
  }

  predicate HasId(f: Fleet, id: string) {
    exists k :: 0 <= k < |f.proxies| && f.proxies[k].id == id
  }

  function After(st: Store, ops: seq<Op>, n: nat): Store
    requires n <= |ops|
  {
    if n == 0 then st else Do(After(st, ops, n - 1), ops[n - 1])
  }

  predicate LegalRun(st: Store, ops: seq<Op>, n: nat)
    requires n <= |ops|
  {
    n == 0 || (LegalRun(st, ops, n - 1) && Legal(After(st, ops, n - 1), ops[n - 1]))
  }
}
