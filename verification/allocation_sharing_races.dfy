/** How many holders a proxy comes to when allocations and rotations are in flight together: each looks at the loads
    before it writes. */
module AllocationSharingRaces {
  import opened Wrappers
  import opened Quality
  import opened Selection
  import opened Allocation
  import opened AllocationLaws
  import opened AllocationSharing
  import opened AllocationRaces
  import Router

  /** The call has chosen the proxy and has not written its row. */
  predicate Brings(call: Call, p: string) {
    match call
    case Call(_, _, stage) => stage.HasProxy? && stage.proxy.id == p
    case Rotation(_, proxy) => proxy == p
  }

  ghost function Bringing(s: Race, p: string): set<nat> {
    set k | k in s.calls && Brings(s.calls[k], p)
  }

  function Holders(s: Race, p: string): nat {
    Total(s.st, OfProxy(p))
  }

  /** Whoever holds a proxy or has chosen it found at most twenty holders, or is one of at most n in flight. */
  ghost predicate Fits(s: Race, p: string, n: nat) {
    Holders(s, p) + |Bringing(s, p)| <= MOST_HOLDERS - 1 + n
  }

  lemma FewerBring(s: Race, s1: Race, p: string)
    requires forall k :: k in s1.calls && Brings(s1.calls[k], p) ==> k in s.calls && Brings(s.calls[k], p)
    ensures |Bringing(s1, p)| <= |Bringing(s, p)|
  {
    var gone := Bringing(s, p) - Bringing(s1, p);
    assert Bringing(s, p) == Bringing(s1, p) + gone;
  }

  // ----- choosing

  /** What the router or the fallback picks has at most twenty holders. */
  lemma ChosenIsLight(st: Store, r: Request, now: int)
    ensures var row := ChosenRow(st, r, now);
            row.Success? && row.value < |st.fleet.proxies| ==>
              Total(st, OfProxy(st.fleet.proxies[row.value].id)) < MOST_HOLDERS
  {
    PickedIsAlive(FleetNow(st), RoutingInput(r), now, st.routing);
    if RoutedRow(st, r, now).Some? {
      AliveIsLight(st, RoutingInput(r), RoutedRow(st, r, now).value);
    }
  }

  lemma ReplacementIsLight(st: Store, customer: string, id: string, now: int)
    ensures var c := Replacement(st, customer, id, now);
            c.Success? ==> Total(st, OfProxy(c.value.proxy.id)) < MOST_HOLDERS
  {
    if Replacement(st, customer, id, now).Success? {
      var a := st.allocs[FindAllocation(st.allocs, customer, id, 0).value];
      ReplacementIsBest(FleetNow(st), RotationInput(a, customer), now, a.proxy);
      AliveIsLight(st, RotationInput(a, customer), Replacement(st, customer, id, now).value.row);
    }
  }

  lemma ChooseKeepsFit(s: Race, k: nat, now: int, p: string, n: nat)
    requires Fits(s, p, n) && Enabled(s, Choose(k, now)) && |Bringing(Apply(s, Choose(k, now)), p)| <= n
    ensures Fits(Apply(s, Choose(k, now)), p, n)
  {
    var s1 := Apply(s, Choose(k, now));
    ChosenIsLight(s.st, s.calls[k].request, now);
    assert s1.st.allocs == s.st.allocs;
    if !(k in s1.calls && Brings(s1.calls[k], p)) {
      FewerBring(s, s1, p);
    }
  }

  lemma PickKeepsFit(s: Race, k: nat, customer: string, id: string, now: int, p: string, n: nat)
    requires Fits(s, p, n) && Enabled(s, Pick(k, customer, id, now))
    requires |Bringing(Apply(s, Pick(k, customer, id, now)), p)| <= n
    ensures Fits(Apply(s, Pick(k, customer, id, now)), p, n)
  {
    var s1 := Apply(s, Pick(k, customer, id, now));
    ReplacementIsLight(s.st, customer, id, now);
    if !(k in s1.calls && Brings(s1.calls[k], p)) {
      FewerBring(s, s1, p);
    }
  }

  // ----- writing

  lemma InsertKeepsFit(s: Race, k: nat, id: string, now: int, p: string, n: nat)
    requires Fits(s, p, n) && Enabled(s, Insert(k, id, now))
    ensures Fits(Apply(s, Insert(k, id, now)), p, n)
  {
    var s1, call := Apply(s, Insert(k, id, now)), s.calls[k];
    CountAppend(s.st.allocs, NewAllocation(call.stage.proxy, call.request, id), OfProxy(p));
    assert Bringing(s1, p) == Bringing(s, p) - {k};
  }

  lemma MovingAddsOne(allocs: seq<Allocation>, id: string, proxy: string, p: string)
    requires DistinctAllocations(allocs)
    ensures CountOf(Moved(allocs, id, proxy), OfProxy(p), |allocs|) <=
            CountOf(allocs, OfProxy(p), |allocs|) + if p == proxy then 1 else 0
  {
    if i :| 0 <= i < |allocs| && allocs[i].id == id {
      CountOneChange(allocs, Moved(allocs, id, proxy), OfProxy(p), |allocs|, i);
    } else {
      CountSame(allocs, Moved(allocs, id, proxy), OfProxy(p), |allocs|);
    }
  }

  lemma ShiftKeepsFit(s: Race, k: nat, p: string, n: nat)
    requires Inv(s.st) && Fits(s, p, n) && Enabled(s, Shift(k))
    ensures Fits(Apply(s, Shift(k)), p, n)
  {
    var s1 := Apply(s, Shift(k));
    MovingAddsOne(s.st.allocs, s.calls[k].id, s.calls[k].proxy, p);
    assert Bringing(s1, p) == Bringing(s, p) - {k};
  }

  lemma StepKeepsFit(s: Race, step: Step, p: string, n: nat)
    requires Inv(s.st) && Fits(s, p, n) && Enabled(s, step) && |Bringing(Apply(s, step), p)| <= n
    ensures Fits(Apply(s, step), p, n)
  {
    match step
    case Choose(k, now) => ChooseKeepsFit(s, k, now, p, n);
    case Pick(k, customer, id, now) => PickKeepsFit(s, k, customer, id, now, p, n);
    case Insert(k, id, now) => InsertKeepsFit(s, k, id, now, p, n);
    case Shift(k) => ShiftKeepsFit(s, k, p, n);
    case Other(op) => OthersRaiseNothing(s.st, op, p);
    case Look(_, _, _) => FewerBring(s, Apply(s, step), p);
    case Enforce(_, _) => FewerBring(s, Apply(s, step), p);
    case Check(_) => FewerBring(s, Apply(s, step), p);
  }

  // ----- runs

  lemma InsertKeepsInv(s: Race, k: nat, id: string, now: int)
    requires Inv(s.st) && Enabled(s, Insert(k, id, now))
    ensures Inv(Apply(s, Insert(k, id, now)).st)
  {
  }

  lemma RaceKeepsInv(s: Race, step: Step)
    requires Inv(s.st) && Enabled(s, step)
    ensures Inv(Apply(s, step).st)
  {
    match step
    case Insert(k, id, now) => InsertKeepsInv(s, k, id, now);
    case Shift(k) => SameRowsKeep(s.st, Apply(s, step).st);
    case Other(op) => StepKeepsInv(s.st, op);
    case _ =>
  }

  /** At no moment have more than n calls chosen the proxy and not written their rows. */
  ghost predicate AtMostBringing(s: Race, steps: seq<Step>, p: string, n: nat)
    requires Runs(s, steps)
    decreases |steps|
  {
    |Bringing(s, p)| <= n && (steps == [] || AtMostBringing(Apply(s, steps[0]), steps[1..], p, n))
  }

  lemma {:induction false} RunKeepsFit(s: Race, steps: seq<Step>, p: string, n: nat)
    requires Inv(s.st) && Fits(s, p, n) && Runs(s, steps) && AtMostBringing(s, steps, p, n)
    ensures Fits(AllocationRaces.After(s, steps), p, n)
    decreases |steps|
  {
    if steps != [] {
      RaceKeepsInv(s, steps[0]);
      StepKeepsFit(s, steps[0], p, n);
      RunKeepsFit(AllocationRaces.Apply(s, steps[0]), steps[1..], p, n);
    }
  }

  /** With at most n allocations and rotations to a proxy in flight at once, and everything else in between, it never
      comes to more than 20 + n active allocations; one at a time gives the serial bound. */
  lemma HoldersHoldUpToRaces(st: Store, steps: seq<Step>, p: string, n: nat)
    requires Inv(st) && Total(st, OfProxy(p)) <= MOST_HOLDERS - 1 + n
    requires Runs(Race(st, map[]), steps) && AtMostBringing(Race(st, map[]), steps, p, n)
    ensures Total(AllocationRaces.After(Race(st, map[]), steps).st, OfProxy(p)) <= MOST_HOLDERS - 1 + n
  {
    assert Bringing(Race(st, map[]), p) == {};
    RunKeepsFit(Race(st, map[]), steps, p, n);
  }

  // ----- the bound is reached

  const NEXT := Request("d", "", "", "")
  const FIVE := Plan(true, 5, Everything, Everything, 0)

  function NewRows(m: nat): seq<Allocation> {
    seq(m, i requires 0 <= i < m => NewAllocation(ONE_PROXY, NEXT, seq(20 + i, _ => 'x')))
  }

  /** The proxy had twenty holders; calls m up to n are about to store their rows, those before have done so. */
  function Crowd(m: nat, n: nat): Race {
    Race(CROWDED_STORE.(allocs := TwentyHeld() + NewRows(m)),
         map i | i in Numbers(n) && m <= i :: Call(NEXT, FIVE, HasProxy(ONE_PROXY)))
  }

  ghost predicate CrowdsBy(s: Race, steps: seq<Step>, n: nat) {
    && Runs(s, steps) && AtMostBringing(s, steps, "p", n)
    && Holders(AllocationRaces.After(s, steps), "p") == MOST_HOLDERS - 1 + n
  }

  ghost predicate Crowds(s: Race, n: nat) {
    exists steps :: CrowdsBy(s, steps, n)
  }

  lemma FewBring(s: Race, n: nat)
    requires forall k :: k in s.calls ==> k < n
    ensures |Bringing(s, "p")| <= n
  {
    var others := Numbers(n) - Bringing(s, "p");
    assert Numbers(n) == Bringing(s, "p") + others;
  }

  lemma CrowdAlong(s: Race, step: Step, n: nat)
    requires Enabled(s, step) && (forall k :: k in s.calls ==> k < n) && Crowds(Apply(s, step), n)
    ensures Crowds(s, n)
  {
    FewBring(s, n);
    var rest :| CrowdsBy(Apply(s, step), rest, n);
    var steps := [step] + rest;
    assert steps[0] == step && steps[1..] == rest;
    assert CrowdsBy(s, steps, n);
  }

  lemma {:induction false} CrowdCounts(m: nat)
    ensures CountOf(TwentyHeld() + NewRows(m), OfProxy("p"), 20 + m) == 20 + m
  {
    CountIsAll(TwentyHeld() + NewRows(m), OfProxy("p"), 20 + m);
  }

  lemma CrowdIdsAreShorter(m: nat, n: nat)
    ensures forall i :: 0 <= i < 20 + m ==> Crowd(m, n).st.allocs[i].id != seq(20 + m, _ => 'x')
  {
    var s := Crowd(m, n);
    forall i | 0 <= i < 20 + m ensures s.st.allocs[i].id != seq(20 + m, _ => 'x') {
      assert |s.st.allocs[i].id| == i;
    }
  }

  lemma CrowdStoresNext(m: nat, n: nat)
    requires m < n
    ensures var step := Insert(m, seq(20 + m, _ => 'x'), 0);
            Enabled(Crowd(m, n), step) && Apply(Crowd(m, n), step) == Crowd(m + 1, n)
  {
    var s := Crowd(m, n);
    CrowdIdsAreShorter(m, n);
    assert Touched(s.st.fleet.proxies, "p", 0) == s.st.fleet.proxies;
    assert NewRows(m + 1) == NewRows(m) + [NewAllocation(ONE_PROXY, NEXT, seq(20 + m, _ => 'x'))];
    assert TwentyHeld() + NewRows(m + 1) == s.st.allocs + [NewAllocation(ONE_PROXY, NEXT, seq(20 + m, _ => 'x'))];
    assert s.calls - {m} == Crowd(m + 1, n).calls;
  }

  lemma {:induction false} StoredCrowds(m: nat, n: nat)
    requires m <= n
    ensures Crowds(Crowd(m, n), n)
    decreases n - m
  {
    if m == n {
      CrowdCounts(n);
      FewBring(Crowd(n, n), n);
      assert CrowdsBy(Crowd(n, n), [], n);
    } else {
      CrowdStoresNext(m, n);
      StoredCrowds(m + 1, n);
      CrowdAlong(Crowd(m, n), Insert(m, seq(20 + m, _ => 'x'), 0), n);
    }
  }

  /** The customer is let in, the router picks the first proxy, and its state stays as it is. */
  ghost predicate Welcomes(st: Store) {
    && PlanInForce(st, "d", 1) == Success(FIVE) && Enforced(st, "d", "", 1).Success?
    && Checked(st, "d", FIVE, "", "").None?
    && ChosenRow(st, NEXT, 1) == Success(0) && AllocationRaces.Routed(st, NEXT, 1) == st
    && |st.fleet.proxies| == 1 && st.fleet.proxies[0] == ONE_PROXY
  }

  lemma FiveAllowsTheFirst(st: Store)
    requires st.enforced && CommercialPlan(st, "d", 1) == Success(FIVE) && Total(st, OfCustomer("d")) == 0
    ensures PlanInForce(st, "d", 1) == Success(FIVE) && Enforced(st, "d", "", 1).Success?
    ensures Checked(st, "d", FIVE, "", "").None?
  {
  }

  lemma CrowdIsAllowed(st: Store)
    requires st == CROWDED_STORE
    ensures PlanInForce(st, "d", 1) == Success(FIVE) && Enforced(st, "d", "", 1).Success?
    ensures Checked(st, "d", FIVE, "", "").None?
  {
    OnePlanIsInForce();
    CrowdedCounts();
    FiveAllowsTheFirst(st);
  }

  /** Outside the sticky modes the router's state does not change. */
  lemma RoutingStays(st: Store, r: Request, now: int)
    requires !Router.IsSticky(DefaultRotation(r.mode))
    ensures AllocationRaces.Routed(st, r, now) == st
  {
  }

  lemma RoutedIsChosen(st: Store, r: Request, now: int)
    requires RoutedRow(st, r, now) == Some(0)
    ensures ChosenRow(st, r, now) == Success(0)
  {
  }

  lemma CrowdIsRouted(st: Store, r: Request)
    requires st == CROWDED_STORE && r == NEXT
    ensures RoutedRow(st, r, 1) == Some(0)
  {
    CrowdedIsPicked();
  }

  lemma CrowdIsChosen(st: Store, r: Request)
    requires st == CROWDED_STORE && r == NEXT
    ensures ChosenRow(st, r, 1) == Success(0) && AllocationRaces.Routed(st, r, 1) == st
  {
    CrowdIsRouted(st, r);
    RoutedIsChosen(st, r, 1);
    RoutingStays(st, r, 1);
  }

  lemma CrowdWelcomes(st: Store)
    requires st == CROWDED_STORE
    ensures Welcomes(st)
  {
    CrowdIsAllowed(st);
    CrowdIsChosen(st, NEXT);
  }

  /** One more call is on its way, at that stage. */
  function Joining(s: Race, k: nat, stage: Stage): Race {
    s.(calls := s.calls[k := Call(NEXT, FIVE, stage)])
  }

  lemma JoinsNext(s: Race, k: nat)
    requires Welcomes(s.st) && k !in s.calls
    ensures Apply(s, Look(k, NEXT, 1)) == Joining(s, k, HasPlan)
    ensures Apply(Joining(s, k, HasPlan), Enforce(k, 1)) == Joining(s, k, IsEnforced)
    ensures Apply(Joining(s, k, IsEnforced), Check(k)) == Joining(s, k, HasPassed)
  {
  }

  lemma JoinerChooses(s: Race, k: nat)
    requires Welcomes(s.st) && k !in s.calls
    ensures Apply(Joining(s, k, HasPassed), Choose(k, 1)) == Joining(s, k, HasProxy(ONE_PROXY))
  {
  }

  lemma OneMoreJoins(s: Race, k: nat, n: nat)
    requires Welcomes(s.st) && k !in s.calls && k < n && (forall i :: i in s.calls ==> i < n)
    requires Crowds(Joining(s, k, HasProxy(ONE_PROXY)), n)
    ensures Crowds(s, n)
  {
    JoinerChooses(s, k);
    CrowdAlong(Joining(s, k, HasPassed), Choose(k, 1), n);
    JoinsNext(s, k);
    CrowdAlong(Joining(s, k, IsEnforced), Check(k), n);
    CrowdAlong(Joining(s, k, HasPlan), Enforce(k, 1), n);
    CrowdAlong(s, Look(k, NEXT, 1), n);
  }

  lemma CrowdStarts(s: Race, m: nat)
    requires s == Crowd(0, m)
    ensures s.st == CROWDED_STORE && Joining(s, m, HasProxy(ONE_PROXY)) == Crowd(0, m + 1)
  {
    assert TwentyHeld() + NewRows(0) == TwentyHeld();
    assert Joining(s, m, HasProxy(ONE_PROXY)).calls == Crowd(0, m + 1).calls;
  }

  lemma {:induction false} JoiningCrowds(s: Race, m: nat, n: nat)
    requires m <= n && s == Crowd(0, m)
    ensures Crowds(s, n)
    decreases n - m
  {
    if m == n {
      StoredCrowds(0, n);
    } else {
      CrowdStarts(s, m);
      CrowdWelcomes(s.st);
      JoiningCrowds(Crowd(0, m + 1), m + 1, n);
      OneMoreJoins(s, m, n);
    }
  }

  lemma CrowdIsFull(s: Race)
    requires s == Race(CROWDED_STORE, map[])
    ensures Inv(s.st) && Holders(s, "p") == MOST_HOLDERS - 1
  {
    TwentyOneIsReached();
    CrowdedCounts();
  }

  /** n calls that found a proxy at twenty holders bring it to 20 + n. */
  lemma CrowdsReachTheBound(s: Race, n: nat)
    requires s == Race(CROWDED_STORE, map[])
    ensures Inv(s.st) && Holders(s, "p") == MOST_HOLDERS - 1 && Crowds(s, n)
  {
    CrowdIsFull(s);
    CrowdStarts(Crowd(0, 0), 0);
    assert s == Crowd(0, 0);
    JoiningCrowds(s, 0, n);
  }
}
