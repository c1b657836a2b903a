/** AllocateProxy and RotateAllocation with their table accesses interleaved: plan, enforcer, limit, proxy and row are
    looked up or written one at a time, while other calls and all other operations go on. */
module AllocationRaces {
  import opened Wrappers
  import opened Selection
  import opened Allocation
  import opened AllocationLaws
  import Router

  /** How far a call has got; from HasPassed on it no longer looks at the customer's allocations. */
  datatype Stage = HasPlan | IsEnforced | HasPassed | HasProxy(proxy: Proxy)

  /** An allocation, or a rotation that has found the proxy to move to. */
  datatype Call = Call(request: Request, plan: Plan, stage: Stage) | Rotation(id: string, proxy: string)

  datatype Race = Race(st: Store, calls: map<nat, Call>)

  datatype Step =
    | Look(k: nat, request: Request, now: int)    // the plan in force is read
    | Enforce(k: nat, now: int)                   // EnforceAllocation reads its tables
    | Check(k: nat)                               // checkAllocationAllowed counts the allocations
    | Choose(k: nat, now: int)                    // the router, or the fallback, picks a proxy
    | Insert(k: nat, id: string, now: int)        // the row is stored
    | Pick(k: nat, customer: string, id: string, now: int)  // RotateAllocation ranks the proxies
    | Shift(k: nat)                               // and updates the row
    | Other(op: Op)

  predicate At(s: Race, k: nat, stage: Stage) {
    k in s.calls && s.calls[k].Call? && s.calls[k].stage == stage
  }

  predicate Enabled(s: Race, step: Step) {
    match step
    case Look(k, _, _) => k !in s.calls
    case Enforce(k, _) => At(s, k, HasPlan)
    case Check(k) => At(s, k, IsEnforced)
    case Choose(k, _) => At(s, k, HasPassed)
    case Insert(k, id, _) => k in s.calls && s.calls[k].Call? && s.calls[k].stage.HasProxy? &&
      forall i :: 0 <= i < |s.st.allocs| ==> s.st.allocs[i].id != id
    case Pick(k, _, _, _) => k !in s.calls
    case Shift(k) => k in s.calls && s.calls[k].Rotation?
    case Other(op) => !op.Allocate? && !op.RotateProxy? && !op.RotateAllocation? && Legal(s.st, op)
  }

  /** The call goes on to that stage, or ends. */
  function Proceeds(s: Race, k: nat, goesOn: bool, stage: Stage): Race
    requires k in s.calls && s.calls[k].Call?
  {
    s.(calls := if goesOn then s.calls[k := s.calls[k].(stage := stage)] else s.calls - {k})
  }

  function Touched(proxies: seq<Proxy>, id: string, now: int): seq<Proxy> {
    seq(|proxies|, i requires 0 <= i < |proxies| =>
      if proxies[i].id == id then proxies[i].(updatedAt := now) else proxies[i])
  }

  function Looked(s: Race, k: nat, r: Request, now: int): Race {
    var plan := PlanInForce(s.st, r.customer, now);
    if plan.Failure? then s else s.(calls := s.calls[k := Call(r, plan.value, HasPlan)])
  }

  /** The store once the router, if there is one, has been asked. */
  function Routed(st: Store, r: Request, now: int): Store {
    if st.routed
    then st.(routing := Router.StateAfterPick(FleetNow(st), RoutingInput(r), now, st.routing))
    else st
  }

  function Chosen(s: Race, k: nat, now: int): Race
    requires At(s, k, HasPassed)
  {
    var r := s.calls[k].request;
    var row := ChosenRow(s.st, r, now);
    var asked := s.(st := Routed(s.st, r, now));
    if row.Success? && row.value < |s.st.fleet.proxies|
    then Proceeds(asked, k, true, HasProxy(s.st.fleet.proxies[row.value]))
    else Proceeds(asked, k, false, HasPassed)
  }

  function Inserted(s: Race, k: nat, id: string, now: int): Race
    requires k in s.calls && s.calls[k].Call? && s.calls[k].stage.HasProxy?
  {
    var p := s.calls[k].stage.proxy;
    Race(s.st.(fleet := s.st.fleet.(proxies := Touched(s.st.fleet.proxies, p.id, now)),
               allocs := s.st.allocs + [NewAllocation(p, s.calls[k].request, id)]),
         s.calls - {k})
  }

  function Picked(s: Race, k: nat, customer: string, id: string, now: int): Race {
    var c := Replacement(s.st, customer, id, now);
    if c.Failure? then s else s.(calls := s.calls[k := Rotation(id, c.value.proxy.id)])
  }

  function Shifted(s: Race, k: nat): Race
    requires k in s.calls && s.calls[k].Rotation?
  {
    Race(s.st.(allocs := Moved(s.st.allocs, s.calls[k].id, s.calls[k].proxy)), s.calls - {k})
  }

  function Apply(s: Race, step: Step): Race
    requires Enabled(s, step)
  {
    match step
    case Look(k, r, now) => Looked(s, k, r, now)
    case Enforce(k, now) =>
      var r := s.calls[k].request;
      Proceeds(s, k, !(s.st.enforced && Enforced(s.st, r.customer, r.country, now).Failure?), IsEnforced)
    case Check(k) =>
      var r := s.calls[k].request;
      Proceeds(s, k, Checked(s.st, r.customer, s.calls[k].plan, r.country, r.mode).None?, HasPassed)
    case Choose(k, now) => Chosen(s, k, now)
    case Insert(k, id, now) => Inserted(s, k, id, now)
    case Pick(k, customer, id, now) => Picked(s, k, customer, id, now)
    case Shift(k) => Shifted(s, k)
    case Other(op) => s.(st := Do(s.st, op))
  }

  predicate Runs(s: Race, steps: seq<Step>)
    decreases |steps|
  {
    steps == [] || (Enabled(s, steps[0]) && Runs(Apply(s, steps[0]), steps[1..]))
  }

  function After(s: Race, steps: seq<Step>): Race
    requires Runs(s, steps)
    decreases |steps|
  {
    if steps == [] then s else After(Apply(s, steps[0]), steps[1..])
  }

  // ----- a call no one interrupts

  lemma First(s: Race, step: Step, rest: seq<Step>)
    requires Enabled(s, step) && Runs(Apply(s, step), rest)
    ensures Runs(s, [step] + rest) && After(s, [step] + rest) == After(Apply(s, step), rest)
  {
    assert ([step] + rest)[1..] == rest;
  }

  /** Under distinct ids, touching the proxy of an id touches its row. */
  lemma TouchesRow(f: Fleet, row: nat, now: int)
    requires Router.DistinctIds(f) && row < |f.proxies|
    ensures Touched(f.proxies, f.proxies[row].id, now) == f.proxies[row := f.proxies[row].(updatedAt := now)]
  {
  }

  ghost predicate Gives(s: Race, steps: seq<Step>, after: Race) {
    Runs(s, steps) && After(s, steps) == after
  }

  lemma InsertGives(s: Race, k: nat, calls: map<nat, Call>, row: nat, r: Request, plan: Plan, id: string, now: int)
    requires Router.DistinctIds(s.st.fleet) && row < |s.st.fleet.proxies| && k !in calls
    requires s.calls == calls[k := Call(r, plan, HasProxy(s.st.fleet.proxies[row]))]
    requires forall i :: 0 <= i < |s.st.allocs| ==> s.st.allocs[i].id != id
    ensures var p := s.st.fleet.proxies[row];
            Gives(s, [Insert(k, id, now)],
                  Race(s.st.(fleet := s.st.fleet.(proxies := s.st.fleet.proxies[row := p.(updatedAt := now)]),
                             allocs := s.st.allocs + [NewAllocation(p, r, id)]), calls))
  {
    TouchesRow(s.st.fleet, row, now);
    assert s.calls - {k} == calls;
    assert Runs(Apply(s, Insert(k, id, now)), []);
    First(s, Insert(k, id, now), []);
    assert [Insert(k, id, now)] + [] == [Insert(k, id, now)];
  }

  lemma PermittedIsChosen(st: Store, r: Request, now: int)
    requires Permit(st, r.customer, r.country, r.mode, now).None?
    ensures Allocated(st, r, now) == ChosenRow(st, r, now)
    ensures Routed(st, r, now) == st.(routing := RoutingAfter(st, r, now))
  {
  }

  /** A permitted call chooses what the serial one allocates, and leaves the router as that does. */
  lemma ChoosesAllocated(s: Race, k: nat, calls: map<nat, Call>, r: Request, plan: Plan, now: int)
    requires k !in calls && s.calls == calls[k := Call(r, plan, HasPassed)]
    requires Permit(s.st, r.customer, r.country, r.mode, now).None?
    ensures var row, s1 := Allocated(s.st, r, now), Apply(s, Choose(k, now));
            && s1.st == s.st.(routing := RoutingAfter(s.st, r, now))
            && (row.Success? ==>
                  && row.value < |s.st.fleet.proxies|
                  && s1.calls == calls[k := Call(r, plan, HasProxy(s.st.fleet.proxies[row.value]))])
            && (row.Failure? ==> s1.calls == calls)
  {
    AllocatedRowExists(s.st, r, now);
    PermittedIsChosen(s.st, r, now);
  }

  /** What the call still has to do once it has passed. */
  lemma ChooseGives(s: Race, k: nat, calls: map<nat, Call>, r: Request, plan: Plan, id: string, now: int)
    returns (steps: seq<Step>)
    requires Inv(s.st) && k !in calls && s.calls == calls[k := Call(r, plan, HasPassed)]
    requires Permit(s.st, r.customer, r.country, r.mode, now).None?
    requires forall i :: 0 <= i < |s.st.allocs| ==> s.st.allocs[i].id != id
    ensures Gives(s, steps, Race(AfterAllocate(s.st, r, id, now), calls))
  {
    ChoosesAllocated(s, k, calls, r, plan, now);
    var s1 := Apply(s, Choose(k, now));
    steps := [];
    if Allocated(s.st, r, now).Success? {
      InsertGives(s1, k, calls, Allocated(s.st, r, now).value, r, plan, id, now);
      steps := [Insert(k, id, now)];
    } else {
      assert Gives(s1, [], s1);
    }
    First(s, Choose(k, now), steps);
    steps := [Choose(k, now)] + steps;
  }

  lemma CheckGives(s: Race, k: nat, calls: map<nat, Call>, r: Request, plan: Plan, id: string, now: int)
    returns (steps: seq<Step>)
    requires Inv(s.st) && k !in calls && s.calls == calls[k := Call(r, plan, IsEnforced)]
    requires PlanInForce(s.st, r.customer, now) == Success(plan)
    requires !(s.st.enforced && Enforced(s.st, r.customer, r.country, now).Failure?)
    requires forall i :: 0 <= i < |s.st.allocs| ==> s.st.allocs[i].id != id
    ensures Gives(s, steps, Race(AfterAllocate(s.st, r, id, now), calls))
  {
    var s1 := Apply(s, Check(k));
    steps := [];
    if Checked(s.st, r.customer, plan, r.country, r.mode).None? {
      assert s1.calls == calls[k := Call(r, plan, HasPassed)];
      steps := ChooseGives(s1, k, calls, r, plan, id, now);
    } else {
      assert s1.calls == calls;
      assert Gives(s1, [], s1);
    }
    First(s, Check(k), steps);
    steps := [Check(k)] + steps;
  }

  lemma EnforceGives(s: Race, k: nat, calls: map<nat, Call>, r: Request, plan: Plan, id: string, now: int)
    returns (steps: seq<Step>)
    requires Inv(s.st) && k !in calls && s.calls == calls[k := Call(r, plan, HasPlan)]
    requires PlanInForce(s.st, r.customer, now) == Success(plan)
    requires forall i :: 0 <= i < |s.st.allocs| ==> s.st.allocs[i].id != id
    ensures Gives(s, steps, Race(AfterAllocate(s.st, r, id, now), calls))
  {
    var s1 := Apply(s, Enforce(k, now));
    steps := [];
    if s.st.enforced && Enforced(s.st, r.customer, r.country, now).Failure? {
      assert s1.calls == calls;
      assert Gives(s1, [], s1);
    } else {
      assert s1.calls == calls[k := Call(r, plan, IsEnforced)];
      steps := CheckGives(s1, k, calls, r, plan, id, now);
    }
    First(s, Enforce(k, now), steps);
    steps := [Enforce(k, now)] + steps;
  }

  /** Uninterrupted, the steps of a call are the serial AllocateProxy, whether it succeeds or not. */
  lemma AloneIsAllocate(s: Race, k: nat, r: Request, id: string, now: int) returns (steps: seq<Step>)
    requires Inv(s.st) && k !in s.calls && forall i :: 0 <= i < |s.st.allocs| ==> s.st.allocs[i].id != id
    ensures Runs(s, steps) && After(s, steps) == Race(AfterAllocate(s.st, r, id, now), s.calls)
  {
    var s1 := Apply(s, Look(k, r, now));
    steps := [];
    var plan := PlanInForce(s.st, r.customer, now);
    if plan.Success? {
      steps := EnforceGives(s1, k, s.calls, r, plan.value, id, now);
    } else {
      assert Gives(s1, [], s1);
    }
    First(s, Look(k, r, now), steps);
    steps := [Look(k, r, now)] + steps;
  }

  /** Uninterrupted, the steps of a rotation are the serial RotateAllocation. */
  lemma AloneIsRotate(s: Race, k: nat, customer: string, id: string, now: int) returns (steps: seq<Step>)
    requires k !in s.calls
    ensures Runs(s, steps) && After(s, steps) == Race(AfterRotation(s.st, customer, id, now), s.calls)
  {
    var s1 := Apply(s, Pick(k, customer, id, now));
    steps := [];
    if Replacement(s.st, customer, id, now).Success? {
      var s2 := Apply(s1, Shift(k));
      assert s2.calls == s.calls;
      assert Gives(s2, [], s2);
      First(s1, Shift(k), []);
      steps := [Shift(k)] + [];
    } else {
      assert Gives(s1, [], s1);
    }
    First(s, Pick(k, customer, id, now), steps);
    steps := [Pick(k, customer, id, now)] + steps;
  }

  // ----- the quota

  predicate IsPassing(call: Call, customer: string) {
    call.Call? && call.request.customer == customer && (call.stage.HasPassed? || call.stage.HasProxy?)
  }

  /** The customer's calls that have passed the limit and have not stored their row. */
  ghost function Passing(s: Race, customer: string): set<nat> {
    set k | k in s.calls && IsPassing(s.calls[k], customer)
  }

  /** Every plan that may still be compared with is within the limit, in the tables and in the calls' hands. */
  ghost predicate Limits(s: Race, customer: string, limit: nat) {
    && PlansWithin(s.st, customer, limit)
    && forall k :: k in s.calls && s.calls[k].Call? && s.calls[k].request.customer == customer ==>
         0 < s.calls[k].plan.maxProxies <= limit
  }

  predicate Sells(s: Race, step: Step, customer: string, limit: nat) {
    step.Other? ==> SellsWithin(s.st, step.op, customer, limit)
  }

  lemma LookedPlanIsWithin(s: Race, k: nat, r: Request, now: int, customer: string, limit: nat)
    requires Limits(s, customer, limit) && k !in s.calls
    ensures Limits(Looked(s, k, r, now), customer, limit)
  {
    LatestIsActive(s.st.subs, r.customer, now, true, |s.st.subs|);
    LatestIsActive(s.st.legacySubs, r.customer, now, false, |s.st.legacySubs|);
  }

  lemma StepKeepsLimits(s: Race, step: Step, customer: string, limit: nat)
    requires Limits(s, customer, limit) && Enabled(s, step) && Sells(s, step, customer, limit)
    ensures Limits(Apply(s, step), customer, limit)
  {
    match step
    case Look(k, r, now) => LookedPlanIsWithin(s, k, r, now, customer, limit);
    case Other(op) => SalesStayWithin(s.st, op, customer, limit);
    case Choose(k, now) => ChosenPlanIsWithin(s, k, now, customer, limit);
    case _ =>
  }

  lemma ChosenPlanIsWithin(s: Race, k: nat, now: int, customer: string, limit: nat)
    requires Limits(s, customer, limit) && At(s, k, HasPassed)
    ensures Limits(Chosen(s, k, now), customer, limit)
  {
  }

  function Held(s: Race, customer: string): nat {
    Total(s.st, OfCustomer(customer))
  }

  /** Storing the row turns one call in flight into one allocation. */
  lemma InsertMovesOne(s: Race, k: nat, id: string, now: int, customer: string)
    requires Enabled(s, Insert(k, id, now))
    ensures var s1 := Apply(s, Insert(k, id, now));
            Held(s1, customer) + |Passing(s1, customer)| == Held(s, customer) + |Passing(s, customer)|
  {
    var s1, call := Apply(s, Insert(k, id, now)), s.calls[k];
    CountAppend(s.st.allocs, NewAllocation(call.stage.proxy, call.request, id), OfCustomer(customer));
    assert Passing(s1, customer) == Passing(s, customer) - {k};
  }

  lemma FewerPass(s: Race, s1: Race, customer: string)
    requires forall k :: k in s1.calls && IsPassing(s1.calls[k], customer) ==>
               k in s.calls && IsPassing(s.calls[k], customer)
    ensures |Passing(s1, customer)| <= |Passing(s, customer)|
  {
    var gone := Passing(s, customer) - Passing(s1, customer);
    assert Passing(s, customer) == Passing(s1, customer) + gone;
  }

  /** A call passes only below the limit. */
  lemma CheckIsBelowLimit(s: Race, k: nat, customer: string, limit: nat)
    requires Limits(s, customer, limit) && At(s, k, IsEnforced) && s.calls[k].request.customer == customer
    ensures var r := s.calls[k].request;
            Checked(s.st, r.customer, s.calls[k].plan, r.country, r.mode).None? ==> Held(s, customer) < limit
  {
  }

  lemma CheckKeepsRoom(s: Race, k: nat, customer: string, limit: nat, n: nat)
    requires Limits(s, customer, limit) && At(s, k, IsEnforced)
    requires Held(s, customer) + |Passing(s, customer)| <= limit - 1 + n
    requires |Passing(Apply(s, Check(k)), customer)| <= n
    ensures var s1 := Apply(s, Check(k)); Held(s1, customer) + |Passing(s1, customer)| <= limit - 1 + n
  {
    var call := s.calls[k];
    if call.request.customer == customer
       && Checked(s.st, customer, call.plan, call.request.country, call.request.mode).None? {
      CheckIsBelowLimit(s, k, customer, limit);
    } else {
      FewerPass(s, Apply(s, Check(k)), customer);
    }
  }

  lemma ShiftKeepsHeld(s: Race, k: nat, customer: string)
    requires Enabled(s, Shift(k))
    ensures var s1 := Apply(s, Shift(k));
            Held(s1, customer) == Held(s, customer) && |Passing(s1, customer)| <= |Passing(s, customer)|
  {
    CountSame(s.st.allocs, Apply(s, Shift(k)).st.allocs, OfCustomer(customer), |s.st.allocs|);
    FewerPass(s, Apply(s, Shift(k)), customer);
  }

  lemma StepKeepsRoom(s: Race, step: Step, customer: string, limit: nat, n: nat)
    requires Limits(s, customer, limit) && Enabled(s, step)
    requires Held(s, customer) + |Passing(s, customer)| <= limit - 1 + n
    requires |Passing(Apply(s, step), customer)| <= n
    ensures var s1 := Apply(s, step); Held(s1, customer) + |Passing(s1, customer)| <= limit - 1 + n
  {
    match step
    case Check(k) => CheckKeepsRoom(s, k, customer, limit, n);
    case Insert(k, id, now) => InsertMovesOne(s, k, id, now, customer);
    case Other(op) => OthersDoNotAdd(s.st, op, customer);
    case Pick(_, _, _, _) => FewerPass(s, Apply(s, step), customer);
    case Shift(k) => ShiftKeepsHeld(s, k, customer);
    case Look(_, _, _) => FewerPass(s, Apply(s, step), customer);
    case Enforce(_, _) => FewerPass(s, Apply(s, step), customer);
    case Choose(_, _) => FewerPass(s, Apply(s, step), customer);
  }

  predicate AllSell(s: Race, steps: seq<Step>, customer: string, limit: nat)
    requires Runs(s, steps)
    decreases |steps|
  {
    steps == [] ||
    (Sells(s, steps[0], customer, limit) && AllSell(Apply(s, steps[0]), steps[1..], customer, limit))
  }

  /** At no moment are more than n of the customer's calls between the check and the row. */
  ghost predicate AtMostPassing(s: Race, steps: seq<Step>, customer: string, n: nat)
    requires Runs(s, steps)
    decreases |steps|
  {
    |Passing(s, customer)| <= n && (steps == [] || AtMostPassing(Apply(s, steps[0]), steps[1..], customer, n))
  }

  lemma {:induction false} RunKeepsRoom(s: Race, steps: seq<Step>, customer: string, limit: nat, n: nat)
    requires Limits(s, customer, limit) && Runs(s, steps) && AllSell(s, steps, customer, limit)
    requires AtMostPassing(s, steps, customer, n) && Held(s, customer) + |Passing(s, customer)| <= limit - 1 + n
    ensures Held(After(s, steps), customer) <= limit - 1 + n
    decreases |steps|
  {
    if steps != [] {
      StepKeepsLimits(s, steps[0], customer, limit);
      StepKeepsRoom(s, steps[0], customer, limit, n);
      RunKeepsRoom(Apply(s, steps[0]), steps[1..], customer, limit, n);
    }
  }

  /** While every plan sold to the customer has a limit of at most `limit`, and at most n of the customer's calls are in
      flight past the check at once, no interleaving takes the customer above limit - 1 + n active allocations. */
  lemma QuotaHoldsUpToRaces(st: Store, steps: seq<Step>, customer: string, limit: nat, n: nat)
    requires PlansWithin(st, customer, limit) && Total(st, OfCustomer(customer)) <= limit - 1 + n
    requires Runs(Race(st, map[]), steps) && AllSell(Race(st, map[]), steps, customer, limit)
    requires AtMostPassing(Race(st, map[]), steps, customer, n)
    ensures Total(After(Race(st, map[]), steps).st, OfCustomer(customer)) <= limit - 1 + n
  {
    assert Passing(Race(st, map[]), customer) == {};
    RunKeepsRoom(Race(st, map[]), steps, customer, limit, n);
  }

  // ----- the bound is reached

  const REQUEST := Request("c", "", "", "")
  const SINGLE := Plan(true, 1, Everything, Everything, 0)

  /** One proxy, no router, and a customer whose plan allows one allocation. */
  const ONE_PROXY_STORE := Store(
    false, false, EMPTY_FLEET.(proxies := [ONE_PROXY]), {}, Router.State(map[], []), map[], map[], [],
    map["single" := SINGLE], [Subscription("s", "c", "single", "active", 0, 10)], map[], [])

  function Rows(m: nat): seq<Allocation> {
    seq(m, i requires 0 <= i < m => NewAllocation(ONE_PROXY, REQUEST, seq(i, _ => 'x')))
  }

  function Numbers(n: nat): (below: set<nat>)
    ensures |below| == n && forall i: nat :: i in below <==> i < n
  {
    if n == 0 then {} else Numbers(n - 1) + {n - 1}
  }

  /** Calls m up to n are about to store their rows, those before have done so. */
  function Storing(m: nat, n: nat): Race {
    Race(ONE_PROXY_STORE.(allocs := Rows(m)),
         map i | i in Numbers(n) && m <= i :: Call(REQUEST, SINGLE, HasProxy(ONE_PROXY)))
  }

  ghost predicate Reaches(s: Race, n: nat) {
    exists steps :: ReachesBy(s, steps, n)
  }

  ghost predicate ReachesBy(s: Race, steps: seq<Step>, n: nat) {
    && Runs(s, steps) && AllSell(s, steps, "c", 1) && AtMostPassing(s, steps, "c", n)
    && Held(After(s, steps), "c") == n
  }

  lemma FewCalls(s: Race, n: nat)
    requires forall k :: k in s.calls ==> k < n
    ensures |Passing(s, "c")| <= n
  {
    var others := Numbers(n) - Passing(s, "c");
    assert Numbers(n) == Passing(s, "c") + others;
  }

  lemma StepAlong(s: Race, step: Step, n: nat)
    requires Enabled(s, step) && !step.Other? && (forall k :: k in s.calls ==> k < n) && Reaches(Apply(s, step), n)
    ensures Reaches(s, n)
  {
    FewCalls(s, n);
    var rest :| ReachesBy(Apply(s, step), rest, n);
    var steps := [step] + rest;
    assert steps[0] == step && steps[1..] == rest;
    assert ReachesBy(s, steps, n);
  }

  lemma {:induction false} RowsCount(m: nat, n: nat)
    requires n <= m
    ensures CountOf(Rows(m), OfCustomer("c"), n) == n
  {
    if n > 0 {
      RowsCount(m, n - 1);
    }
  }

  lemma StoresNext(m: nat, n: nat)
    requires m < n
    ensures var step := Insert(m, seq(m, _ => 'x'), 0);
            Enabled(Storing(m, n), step) && Apply(Storing(m, n), step) == Storing(m + 1, n)
  {
    var s := Storing(m, n);
    forall i | 0 <= i < m ensures s.st.allocs[i].id != seq(m, _ => 'x') {
      assert |s.st.allocs[i].id| == i;
    }
    assert Touched(s.st.fleet.proxies, "p", 0) == s.st.fleet.proxies;
    assert Rows(m + 1) == Rows(m) + [NewAllocation(ONE_PROXY, REQUEST, seq(m, _ => 'x'))];
    assert s.calls - {m} == Storing(m + 1, n).calls;
  }

  lemma {:induction false} StoringReaches(m: nat, n: nat)
    requires m <= n
    ensures Reaches(Storing(m, n), n)
    decreases n - m
  {
    if m == n {
      RowsCount(n, n);
      FewCalls(Storing(n, n), n);
      assert ReachesBy(Storing(n, n), [], n);
    } else {
      StoresNext(m, n);
      StoringReaches(m + 1, n);
      StepAlong(Storing(m, n), Insert(m, seq(m, _ => 'x'), 0), n);
    }
  }

  /** m calls are about to store their rows, and the next one is at that stage. */
  function Coming(m: nat, stage: Stage): Race {
    Storing(0, m).(calls := Storing(0, m).calls[m := Call(REQUEST, SINGLE, stage)])
  }

  lemma SingleIsInForce()
    ensures var st := Storing(0, 0).st;
            && PlanInForce(st, "c", 0) == Success(SINGLE) && Checked(st, "c", SINGLE, "", "").None?
            && ChosenRow(st, REQUEST, 0) == Success(0) && PlansWithin(st, "c", 1)
  {
    var st := Storing(0, 0).st;
    assert Latest(st.legacySubs, "c", 0, false, 0) == None;
    assert Latest(st.legacySubs, "c", 0, false, 1) == Some(st.legacySubs[0]);
    assert FallbackRow(st, REQUEST, 0) == None;
    assert FallbackRow(st, REQUEST, 1) == Some(0);
  }

  lemma LooksNext(m: nat)
    ensures Enabled(Storing(0, m), Look(m, REQUEST, 0))
    ensures Apply(Storing(0, m), Look(m, REQUEST, 0)) == Coming(m, HasPlan)
  {
    SingleIsInForce();
  }

  lemma ChecksNext(m: nat)
    ensures Apply(Coming(m, HasPlan), Enforce(m, 0)) == Coming(m, IsEnforced)
    ensures Apply(Coming(m, IsEnforced), Check(m)) == Coming(m, HasPassed)
  {
    SingleIsInForce();
  }

  lemma ChoosesNext(m: nat)
    ensures Apply(Coming(m, HasPassed), Choose(m, 0)) == Storing(0, m + 1)
  {
    SingleIsInForce();
    assert Coming(m, HasProxy(ONE_PROXY)).calls == Storing(0, m + 1).calls;
  }

  lemma OneMoreComes(m: nat, n: nat)
    requires m < n && Reaches(Storing(0, m + 1), n)
    ensures Reaches(Storing(0, m), n)
  {
    ChoosesNext(m);
    StepAlong(Coming(m, HasPassed), Choose(m, 0), n);
    ChecksNext(m);
    StepAlong(Coming(m, IsEnforced), Check(m), n);
    StepAlong(Coming(m, HasPlan), Enforce(m, 0), n);
    LooksNext(m);
    StepAlong(Storing(0, m), Look(m, REQUEST, 0), n);
  }

  lemma {:induction false} ComingReaches(m: nat, n: nat)
    requires m <= n
    ensures Reaches(Storing(0, m), n)
    decreases n - m
  {
    if m == n {
      StoringReaches(0, n);
    } else {
      ComingReaches(m + 1, n);
      OneMoreComes(m, n);
    }
  }

  /** A customer allowed one allocation comes to n of them when n of its calls are in flight at once. */
  lemma RacesReachTheBound(n: nat)
    ensures PlansWithin(ONE_PROXY_STORE, "c", 1) && Total(ONE_PROXY_STORE, OfCustomer("c")) == 0
    ensures exists steps :: ReachesBy(Race(ONE_PROXY_STORE, map[]), steps, n)
  {
    assert Rows(0) == [] && Storing(0, 0) == Race(ONE_PROXY_STORE, map[]);
    SingleIsInForce();
    ComingReaches(0, n);
  }
}
