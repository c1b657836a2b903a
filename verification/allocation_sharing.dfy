/** How many active allocations a proxy can come to carry: when a step gives a held proxy to a second holder, and
    how far sharing goes at most. */
module AllocationSharing {
  import opened Wrappers
  import opened Quality
  import opened Selection
  import opened Allocation
  import opened AllocationLaws
  import Router

  /** No proxy has more active allocations than that. */
  ghost predicate AtMost(st: Store, holders: nat) {
    forall p :: Total(st, OfProxy(p)) <= holders
  }

  ghost predicate Exclusive(st: Store) {
    AtMost(st, 1)
  }

  // ----- the steps that can raise a proxy's count

  /** The proxy an allocation would get. */
  function Target(st: Store, r: Request, now: int): Option<string> {
    var row := Allocated(st, r, now);
    if row.Success? && row.value < |st.fleet.proxies| then Some(st.fleet.proxies[row.value].id) else None
  }

  /** The proxy onto which rotating an active allocation would move it. */
  function MoveTarget(st: Store, customer: string, id: string, now: int): Option<string> {
    var row, c := FindAllocation(st.allocs, customer, id, 0), Replacement(st, customer, id, now);
    if row.Some? && st.allocs[row.value].status == Active && c.Success? then Some(c.value.proxy.id) else None
  }

  lemma AllocateRaisesTarget(st: Store, r: Request, id: string, now: int, p: string)
    ensures Total(AfterAllocate(st, r, id, now), OfProxy(p)) ==
            Total(st, OfProxy(p)) + if Target(st, r, now) == Some(p) then 1 else 0
  {
    AllocateCounts(st, r, id, now, OfProxy(p));
  }

  lemma RotationRaisesTarget(st: Store, customer: string, id: string, now: int, p: string)
    requires Inv(st)
    ensures var after, target := AfterRotation(st, customer, id, now), MoveTarget(st, customer, id, now);
            && (target == Some(p) ==> Total(after, OfProxy(p)) == Total(st, OfProxy(p)) + 1)
            && (target != Some(p) ==> Total(after, OfProxy(p)) <= Total(st, OfProxy(p)))
  {
    if FindAllocation(st.allocs, customer, id, 0).Some? {
      RotationMovesOneUnit(st, customer, id, now);
    }
  }

  lemma FewerHolders(st: Store, after: Store, p: string)
    requires |after.allocs| == |st.allocs|
    requires forall k :: 0 <= k < |st.allocs| && after.allocs[k].status == Active ==>
               st.allocs[k].status == Active && after.allocs[k].proxy == st.allocs[k].proxy
    ensures Total(after, OfProxy(p)) <= Total(st, OfProxy(p))
  {
    CountShrinks(st.allocs, after.allocs, OfProxy(p), |st.allocs|);
  }

  /** The proxy whose count the step raises, if it raises one: the target of an allocation or a move. */
  function Raises(st: Store, op: Op): Option<string> {
    match op
    case Allocate(r, _, now) => Target(st, r, now)
    case RotateProxy(customer, id, _, now) =>
      Target(st.(allocs := Released(st.allocs, customer, id)), Rotating(customer), now)
    case RotateAllocation(customer, id, now) => MoveTarget(st, customer, id, now)
    case _ => None
  }

  /** The active allocations of the raised proxy just before it is raised: RotateProxy releases first. */
  function HoldersBefore(st: Store, op: Op, p: string): nat {
    if op.RotateProxy?
    then Total(st.(allocs := Released(st.allocs, op.customer, op.id)), OfProxy(p))
    else Total(st, OfProxy(p))
  }

  lemma ReleaseLowers(st: Store, customer: string, id: string, p: string)
    ensures Total(st.(allocs := Released(st.allocs, customer, id)), OfProxy(p)) <= Total(st, OfProxy(p))
  {
    FewerHolders(st, st.(allocs := Released(st.allocs, customer, id)), p);
  }

  lemma OthersRaiseNothing(st: Store, op: Op, p: string)
    requires !op.Allocate? && !op.RotateProxy? && !op.RotateAllocation?
    ensures Total(Do(st, op), OfProxy(p)) <= Total(st, OfProxy(p))
  {
    if Settles(op) {
      SettlingSuspends(st, op);
    }
    FewerHolders(st, Do(st, op), p);
  }

  /** Every step raises at most the one proxy it allocates or moves to, by one. */
  lemma StepRaises(st: Store, op: Op, p: string)
    requires op.RotateAllocation? ==> Inv(st)
    ensures Raises(st, op) == Some(p) ==> Total(Do(st, op), OfProxy(p)) == HoldersBefore(st, op, p) + 1
    ensures Raises(st, op) != Some(p) ==> Total(Do(st, op), OfProxy(p)) <= Total(st, OfProxy(p))
  {
    match op
    case Allocate(r, id, now) => AllocateRaisesTarget(st, r, id, now, p);
    case RotateProxy(customer, id, newId, now) =>
      var released := st.(allocs := Released(st.allocs, customer, id));
      ReleaseLowers(st, customer, id, p);
      AllocateRaisesTarget(released, Rotating(customer), newId, now, p);
    case RotateAllocation(customer, id, now) => RotationRaisesTarget(st, customer, id, now, p);
    case _ => OthersRaiseNothing(st, op, p);
  }

  // ----- exclusiveness

  /** The step gives a proxy that is held to one more holder. */
  predicate Shares(st: Store, op: Op) {
    Raises(st, op).Some? && HoldersBefore(st, op, Raises(st, op).value) > 0
  }

  /** From where no proxy has two holders, a step gives one a second holder exactly when it allocates, re-allocates
      or moves onto a proxy that is held. */
  lemma ExclusiveBreaksExactly(st: Store, op: Op)
    requires (op.RotateAllocation? ==> Inv(st)) && Exclusive(st)
    ensures Exclusive(Do(st, op)) <==> !Shares(st, op)
  {
    forall p ensures
        if Raises(st, op) == Some(p) then Total(Do(st, op), OfProxy(p)) == HoldersBefore(st, op, p) + 1
        else Total(Do(st, op), OfProxy(p)) <= 1
    {
      StepRaises(st, op, p);
    }
    if Raises(st, op).Some? {
      assert Total(Do(st, op), OfProxy(Raises(st, op).value)) == HoldersBefore(st, op, Raises(st, op).value) + 1;
    }
  }

  predicate NoneShares(st: Store, ops: seq<Op>, n: nat)
    requires n <= |ops|
  {
    n == 0 || (NoneShares(st, ops, n - 1) && !Shares(After(st, ops, n - 1), ops[n - 1]))
  }

  /** A run keeps every proxy to one holder as long as no step of it shares one. */
  lemma {:induction false} ExclusiveUntilShared(st: Store, ops: seq<Op>, n: nat)
    requires Inv(st) && Exclusive(st) && n <= |ops| && LegalRun(st, ops, n) && NoneShares(st, ops, n)
    ensures Exclusive(After(st, ops, n))
  {
    if n > 0 {
      ExclusiveUntilShared(st, ops, n - 1);
      RunKeepsInv(st, ops, n - 1);
      ExclusiveBreaksExactly(After(st, ops, n - 1), ops[n - 1]);
    }
  }

  /** Allocating shares a proxy only by the router's choice: what the fallback finds no one holds. */
  lemma OnlyTheRouterShares(st: Store, r: Request, now: int)
    requires Target(st, r, now).Some? && Total(st, OfProxy(Target(st, r, now).value)) > 0
    ensures RoutedRow(st, r, now).Some?
  {
  }

  predicate NeverMoves(ops: seq<Op>, n: nat)
    requires n <= |ops|
  {
    n == 0 || (NeverMoves(ops, n - 1) && !ops[n - 1].RotateAllocation?)
  }

  lemma UnroutedStepIsExclusive(st: Store, op: Op)
    requires !st.routed && Exclusive(st) && !op.RotateAllocation?
    ensures Exclusive(Do(st, op)) && !Do(st, op).routed
  {
    ExclusiveBreaksExactly(st, op);
    if Shares(st, op) {
      if op.Allocate? {
        OnlyTheRouterShares(st, op.request, op.now);
      } else {
        OnlyTheRouterShares(st.(allocs := Released(st.allocs, op.customer, op.id)), Rotating(op.customer), op.now);
      }
    }
  }

  /** In particular, without a router and without moves no run ever shares one. */
  lemma {:induction false} UnroutedIsExclusive(st: Store, ops: seq<Op>, n: nat)
    requires !st.routed && Exclusive(st) && n <= |ops| && NeverMoves(ops, n)
    ensures Exclusive(After(st, ops, n)) && !After(st, ops, n).routed
  {
    if n > 0 {
      UnroutedIsExclusive(st, ops, n - 1);
      UnroutedStepIsExclusive(After(st, ops, n - 1), ops[n - 1]);
    }
  }

  const SHARING_STORE := Store(
    true, true, EMPTY_FLEET.(proxies := [ONE_PROXY]), {}, Router.State(map[], []), map[],
    map["plan" := Plan(true, 5, Everything, Everything, 0)], [Subscription("s", "d", "plan", "active", 0, 10)],
    map[], [], map[], [Allocation("a", "c", "p", Active, "static", "", 0, 0)])

  lemma OnePlanIsInForce()
    ensures CommercialPlan(SHARING_STORE, "d", 1) == Success(Plan(true, 5, Everything, Everything, 0))
  {
    assert SHARING_STORE.subs[0].customer == "d";
    assert Latest(SHARING_STORE.subs, "d", 1, true, 0) == None;
    assert Latest(SHARING_STORE.subs, "d", 1, true, 1) == Some(SHARING_STORE.subs[0]);
  }

  lemma OnlyProxyIsRouted(st: Store, r: Request, now: int)
    requires st.routed && |st.fleet.proxies| == 1 && st.fleet.proxies[0].id != ""
    requires !Router.IsSticky(DefaultRotation(r.mode))
    requires Eligible(FleetNow(st), RoutingInput(r), now, CandidateAt(FleetNow(st), 0, RoutingInput(r)))
    ensures RoutedRow(st, r, now) == Some(0)
  {
    Router.SelectionIsExact(FleetNow(st), RoutingInput(r), now, st.routing);
  }

  /** One customer holds the only proxy; the router gives it to the next. */
  lemma HeldProxyIsAllocatedAgain()
    ensures Inv(SHARING_STORE) && Exclusive(SHARING_STORE)
    ensures var op := Allocate(Request("d", "", "", ""), "b", 1);
            Legal(SHARING_STORE, op) && Shares(SHARING_STORE, op) && !Exclusive(Do(SHARING_STORE, op))
  {
    var st, r := SHARING_STORE, Request("d", "", "", "");
    forall p ensures Total(st, OfProxy(p)) == if p == "p" then 1 else 0 {
      assert CountOf(st.allocs, OfProxy(p), 0) == 0;
    }
    OnePlanIsInForce();
    assert CountOf(st.allocs, OfCustomer("d"), 0) == 0;
    OnlyProxyIsEligible(RoutingInput(r), 1);
    OnlyProxyIsRouted(st, r, 1);
    assert Target(st, r, 1) == Some("p");
    ExclusiveBreaksExactly(st, Allocate(r, "b", 1));
  }

  lemma OnlyProxyIsEligible(input: Input, now: int)
    requires input == Input("d", "", "", "", "", "", "", "", ByWeight, input.sessionKey, "static")
    ensures var f := FleetNow(SHARING_STORE);
            |f.proxies| == 1 && f.proxies[0] == ONE_PROXY && Eligible(f, input, now, CandidateAt(f, 0, input))
  {
    var f := FleetNow(SHARING_STORE);
    LoadIsCount(SHARING_STORE, 0);
    assert CountOf(SHARING_STORE.allocs, OfProxy("p"), 0) == 0;
    var h := HealthOf(f, ONE_PROXY);
    assert Latency(h.metrics) == 300 && Failures(h.metrics, 0) == 0 && Base(h) == 70;
    assert CandidateAt(f, 0, input).quality.score == 67;
  }

  // ----- how far sharing goes

  /** A proxy with more than twenty allocations is graded dead, so the next to be allocated is the twenty-first at
      most. */
  const MOST_HOLDERS := 21

  lemma AliveIsLight(st: Store, input: Input, row: nat)
    requires row < |st.fleet.proxies| && CandidateAt(FleetNow(st), row, input).quality.grade != Dead
    ensures Total(st, OfProxy(st.fleet.proxies[row].id)) < MOST_HOLDERS
  {
    LoadIsCount(st, row);
    DeadExactly(HealthOf(FleetNow(st), st.fleet.proxies[row]), Total(st, OfProxy(st.fleet.proxies[row].id)));
  }

  lemma PickedIsAlive(f: Fleet, input: Input, now: int, st: Router.State)
    ensures var c := Router.Picked(f, input, now, st);
            c.Some? ==> c.value.row < |f.proxies| && c.value == CandidateAt(f, c.value.row, input) &&
                        c.value.quality.grade != Dead
  {
    if Router.StickyHit(f, input, now, st).None? {
      Router.SelectionIsExact(f, input, now, st);
    }
  }

  lemma TargetIsLight(st: Store, r: Request, now: int)
    ensures Target(st, r, now).Some? ==> Total(st, OfProxy(Target(st, r, now).value)) < MOST_HOLDERS
  {
    PickedIsAlive(FleetNow(st), RoutingInput(r), now, st.routing);
    if Target(st, r, now).Some? && RoutedRow(st, r, now).Some? {
      AliveIsLight(st, RoutingInput(r), RoutedRow(st, r, now).value);
    }
  }

  lemma MoveTargetIsLight(st: Store, customer: string, id: string, now: int)
    ensures var target := MoveTarget(st, customer, id, now);
            target.Some? ==> Total(st, OfProxy(target.value)) < MOST_HOLDERS
  {
    if MoveTarget(st, customer, id, now).Some? {
      var a := st.allocs[FindAllocation(st.allocs, customer, id, 0).value];
      ReplacementIsBest(FleetNow(st), RotationInput(a, customer), now, a.proxy);
      AliveIsLight(st, RotationInput(a, customer), Replacement(st, customer, id, now).value.row);
    }
  }

  lemma RaisedIsLight(st: Store, op: Op)
    ensures Raises(st, op).Some? ==> HoldersBefore(st, op, Raises(st, op).value) < MOST_HOLDERS
  {
    match op
    case Allocate(r, _, now) => TargetIsLight(st, r, now);
    case RotateProxy(customer, id, _, now) =>
      TargetIsLight(st.(allocs := Released(st.allocs, customer, id)), Rotating(customer), now);
    case RotateAllocation(customer, id, now) => MoveTargetIsLight(st, customer, id, now);
    case _ =>
  }

  lemma StepKeepsAtMost(st: Store, op: Op, holders: nat)
    requires Inv(st) && holders >= MOST_HOLDERS && AtMost(st, holders)
    ensures AtMost(Do(st, op), holders)
  {
    RaisedIsLight(st, op);
    forall p ensures Total(Do(st, op), OfProxy(p)) <= holders {
      StepRaises(st, op, p);
    }
  }

  /** Whatever is allocated, routed, kept sticky, rotated, released, suspended or deleted, no proxy ever comes to
      more than twenty-one active allocations. */
  lemma {:induction false} HoldersAreBounded(st: Store, ops: seq<Op>, n: nat, holders: nat)
    requires Inv(st) && holders >= MOST_HOLDERS && AtMost(st, holders) && n <= |ops| && LegalRun(st, ops, n)
    ensures AtMost(After(st, ops, n), holders)
  {
    if n > 0 {
      HoldersAreBounded(st, ops, n - 1, holders);
      RunKeepsInv(st, ops, n - 1);
      StepKeepsAtMost(After(st, ops, n - 1), ops[n - 1], holders);
    }
  }

  // ----- the bound is reached

  /** Twenty active allocations of the one proxy. */
  function TwentyHeld(): seq<Allocation> {
    seq(20, i requires 0 <= i < 20 => Allocation(seq(i, _ => 'x'), "c", "p", Active, "static", "", 0, 0))
  }

  /** The proxy has answered fast, so its score before load is 100. */
  const CROWDED_STORE := SHARING_STORE.(
    fleet := SHARING_STORE.fleet.(metrics := map["p" := [Metric(0, "online")]]), allocs := TwentyHeld())

  lemma {:induction false} CountIsAll(allocs: seq<Allocation>, w: Whose, n: nat)
    requires n <= |allocs| && forall k :: 0 <= k < n ==> Counts(w, allocs[k])
    ensures CountOf(allocs, w, n) == n
  {
    if n > 0 {
      CountIsAll(allocs, w, n - 1);
    }
  }

  lemma FastProxyScores(h: Health)
    requires h == Health(Running, false, [Metric(0, "online")])
    ensures Score(h, 20) == 40
  {
    assert TotalLatency(h.metrics, 0) == 0 && TotalLatency(h.metrics, 1) == 0 && Latency(h.metrics) == 0;
    assert Failures(h.metrics, 0) == 0 && Failures(h.metrics, 1) == 0 && Base(h) == 100;
  }

  lemma CrowdedCounts()
    ensures forall p :: Total(CROWDED_STORE, OfProxy(p)) == if p == "p" then 20 else 0
    ensures Total(CROWDED_STORE, OfCustomer("d")) == 0
  {
    var held := CROWDED_STORE.allocs;
    AllHeldByOne(held);
    forall p ensures Total(CROWDED_STORE, OfProxy(p)) == if p == "p" then 20 else 0 {
      assert CountOf(held, OfProxy(p), 20) == if p == "p" then 20 else 0;
    }
  }

  lemma AllHeldByOne(held: seq<Allocation>)
    requires held == TwentyHeld()
    ensures forall p :: CountOf(held, OfProxy(p), 20) == if p == "p" then 20 else 0
    ensures CountOf(held, OfCustomer("d"), 20) == 0
  {
    CountIsZero(held, OfCustomer("d"), 20);
    forall p ensures CountOf(held, OfProxy(p), 20) == if p == "p" then 20 else 0 {
      if p == "p" {
        CountIsAll(held, OfProxy(p), 20);
      } else {
        CountIsZero(held, OfProxy(p), 20);
      }
    }
  }

  lemma CrowdedIsEligible(input: Input, now: int)
    requires input == Input("d", "", "", "", "", "", "", "", ByWeight, input.sessionKey, "static")
    ensures var f := FleetNow(CROWDED_STORE);
            |f.proxies| == 1 && f.proxies[0] == ONE_PROXY && Eligible(f, input, now, CandidateAt(f, 0, input))
  {
    var f := FleetNow(CROWDED_STORE);
    LoadIsCount(CROWDED_STORE, 0);
    CrowdedCounts();
    FastProxyScores(HealthOf(f, ONE_PROXY));
    assert CandidateAt(f, 0, input).quality.score == 40;
  }

  lemma CrowdedIsPermitted()
    ensures Permit(CROWDED_STORE, "d", "", "", 1).None?
  {
    OnePlanIsInForce();
    assert CommercialPlan(CROWDED_STORE, "d", 1) == CommercialPlan(SHARING_STORE, "d", 1);
    CrowdedCounts();
    EnforcedPermitExactly(CROWDED_STORE, "d", "", "", 1);
  }

  lemma CrowdedIsPicked()
    ensures RoutedRow(CROWDED_STORE, Request("d", "", "", ""), 1) == Some(0)
  {
    var r := Request("d", "", "", "");
    CrowdedIsEligible(RoutingInput(r), 1);
    OnlyProxyIsRouted(CROWDED_STORE, r, 1);
  }

  lemma CrowdedIsTargeted()
    ensures Target(CROWDED_STORE, Request("d", "", "", ""), 1) == Some("p")
  {
    CrowdedIsPermitted();
    CrowdedIsPicked();
  }

  lemma CrowdedIdsAreDistinct()
    ensures DistinctAllocations(TwentyHeld()) && forall k :: 0 <= k < 20 ==> TwentyHeld()[k].id != "b"
  {
    assert forall k :: 0 <= k < 20 ==> |TwentyHeld()[k].id| == k;
    assert TwentyHeld()[1].id == ['x'];
  }

  /** A proxy with a perfect record takes a twenty-first holder. */
  lemma TwentyOneIsReached()
    ensures Inv(CROWDED_STORE) && AtMost(CROWDED_STORE, 20)
    ensures var op := Allocate(Request("d", "", "", ""), "b", 1);
            Legal(CROWDED_STORE, op) && Total(Do(CROWDED_STORE, op), OfProxy("p")) == MOST_HOLDERS
  {
    CrowdedIdsAreDistinct();
    CrowdedCounts();
    CrowdedIsTargeted();
    AllocateRaisesTarget(CROWDED_STORE, Request("d", "", "", ""), "b", 1, "p");
  }
}
