/** What every run of customer and billing operations keeps: the suspension gate, quotas, and the proxies' loads. */
module AllocationLaws {
  import opened Wrappers
  import opened Quality
  import opened Selection
  import opened Allocation
  import Router

  function Total(st: Store, w: Whose): nat {
    CountOf(st.allocs, w, |st.allocs|)
  }

  // ----- counting

  lemma {:induction false} CountShrinks(a: seq<Allocation>, b: seq<Allocation>, w: Whose, n: nat)
    requires n <= |a| && n <= |b| && forall k :: 0 <= k < n ==> (Counts(w, b[k]) ==> Counts(w, a[k]))
    ensures CountOf(b, w, n) <= CountOf(a, w, n)
  {
    if n > 0 {
      CountShrinks(a, b, w, n - 1);
    }
  }

  lemma CountSame(a: seq<Allocation>, b: seq<Allocation>, w: Whose, n: nat)
    requires n <= |a| && n <= |b| && forall k :: 0 <= k < n ==> (Counts(w, b[k]) <==> Counts(w, a[k]))
    ensures CountOf(b, w, n) == CountOf(a, w, n)
  {
    CountShrinks(a, b, w, n);
    CountShrinks(b, a, w, n);
  }

  lemma CountAppend(a: seq<Allocation>, r: Allocation, w: Whose)
    ensures CountOf(a + [r], w, |a| + 1) == CountOf(a, w, |a|) + (if Counts(w, r) then 1 else 0)
  {
    CountSame(a, a + [r], w, |a|);
  }

  lemma {:induction false} CountOneChange(a: seq<Allocation>, b: seq<Allocation>, w: Whose, n: nat, i: nat)
    requires n <= |a| && |a| == |b| && i < |a| && forall k :: 0 <= k < |a| && k != i ==> b[k] == a[k]
    ensures CountOf(b, w, n) == CountOf(a, w, n) +
                                if i < n then (if Counts(w, b[i]) then 1 else 0) - (if Counts(w, a[i]) then 1 else 0)
                                    else 0
  {
    if n > 0 {
      CountOneChange(a, b, w, n - 1, i);
    }
  }

  lemma {:induction false} CountIsZero(a: seq<Allocation>, w: Whose, n: nat)
    requires n <= |a|
    ensures CountOf(a, w, n) == 0 <==> forall k :: 0 <= k < n ==> !Counts(w, a[k])
  {
    if n > 0 {
      CountIsZero(a, w, n - 1);
    }
  }

  lemma {:induction false} LoadsAre(proxies: seq<Proxy>, allocs: seq<Allocation>, n: nat, id: string)
    requires n <= |proxies|
    ensures var loads := LoadsUpto(proxies, allocs, n);
            if exists k :: 0 <= k < n && proxies[k].id == id
            then id in loads && loads[id] == CountOf(allocs, OfProxy(id), |allocs|)
            else id !in loads
  {
    if n > 0 {
      LoadsAre(proxies, allocs, n - 1, id);
      assert proxies[n - 1].id == id ==> exists k :: 0 <= k < n && proxies[k].id == id;
    }
  }

  /** The load routing reads for a proxy in the table is the number of active allocations that hold it. */
  lemma LoadIsCount(st: Store, row: nat)
    requires row < |st.fleet.proxies|
    ensures Load(FleetNow(st), st.fleet.proxies[row].id) == Total(st, OfProxy(st.fleet.proxies[row].id))
  {
    LoadsAre(st.fleet.proxies, st.allocs, |st.fleet.proxies|, st.fleet.proxies[row].id);
  }

  // ----- what every legal step keeps

  ghost predicate DistinctAllocations(allocs: seq<Allocation>) {
    forall i, j :: 0 <= i < j < |allocs| ==> allocs[i].id != allocs[j].id
  }

  ghost predicate Inv(st: Store) {
    Router.DistinctIds(st.fleet) && DistinctAllocations(st.allocs)
  }

  lemma SameRowsKeep(st: Store, after: Store)
    requires Inv(st) && after.fleet == st.fleet && |after.allocs| == |st.allocs|
    requires forall k :: 0 <= k < |st.allocs| ==> after.allocs[k].id == st.allocs[k].id
    ensures Inv(after)
  {
  }

  lemma AllocateKeeps(st: Store, r: Request, id: string, now: int)
    requires Inv(st) && forall k :: 0 <= k < |st.allocs| ==> st.allocs[k].id != id
    ensures Inv(AfterAllocate(st, r, id, now))
  {
    AllocatedRowExists(st, r, now);
  }

  lemma {:induction false} FirstOtherIs(ranked: seq<Candidate>, proxy: string, i: nat)
    requires i <= |ranked|
    ensures var c := FirstOther(ranked, proxy, i);
            if c.None? then forall k :: i <= k < |ranked| ==> ranked[k].proxy.id == proxy
            else exists k :: i <= k < |ranked| && ranked[k] == c.value && c.value.proxy.id != proxy &&
                             forall j :: i <= j < k ==> ranked[j].proxy.id == proxy
    decreases |ranked| - i
  {
    if i < |ranked| && ranked[i].proxy.id == proxy {
      FirstOtherIs(ranked, proxy, i + 1);
      if FirstOther(ranked, proxy, i + 1).Some? {
        var k :| i + 1 <= k < |ranked| && ranked[k] == FirstOther(ranked, proxy, i + 1).value &&
                 forall j :: i + 1 <= j < k ==> ranked[j].proxy.id == proxy;
        assert ranked[k] == FirstOther(ranked, proxy, i).value;
      }
    } else if i < |ranked| {
      assert ranked[i] == FirstOther(ranked, proxy, i).value;
    }
  }

  lemma OthersRankBelow(f: Fleet, input: Input, now: int, current: string, row: nat)
    requires input.strategy == ByWeight
    requires row < |f.proxies| && Eligible(f, input, now, CandidateAt(f, row, input)) && f.proxies[row].id != current
    ensures var c := FirstOther(Ranked(f, input, now), current, 0);
            c.Some? && AtLeastAsGood(ByWeight, c.value, CandidateAt(f, row, input))
  {
    var ranked, other := Ranked(f, input, now), CandidateAt(f, row, input);
    RankedIsSorted(f, input, now);
    SamePlaces(ranked, EligibleUpto(f, input, now, |f.proxies|));
    FirstOtherIs(ranked, current, 0);
    EligibleMembers(f, input, now, |f.proxies|, other);
    assert other in ranked;
    var j :| 0 <= j < |ranked| && ranked[j] == other;
    var k :| 0 <= k < |ranked| && ranked[k] == FirstOther(ranked, current, 0).value &&
             forall i :: 0 <= i < k ==> ranked[i].proxy.id == current;
    TieBreakMeans(ranked[k], ranked[j]);
    assert k <= j;
  }

  /** The best-ranked eligible proxy other than the current one; none exactly when there is no other eligible one. */
  lemma ReplacementIsBest(f: Fleet, input: Input, now: int, current: string)
    requires input.strategy == ByWeight
    ensures var c := FirstOther(Ranked(f, input, now), current, 0);
            if c.None?
            then forall row :: 0 <= row < |f.proxies| && Eligible(f, input, now, CandidateAt(f, row, input)) ==>
                   f.proxies[row].id == current
            else
              && c.value.row < |f.proxies| && c.value == CandidateAt(f, c.value.row, input)
              && Eligible(f, input, now, c.value) && c.value.proxy.id != current
              && forall row :: && 0 <= row < |f.proxies| && Eligible(f, input, now, CandidateAt(f, row, input))
                               && f.proxies[row].id != current ==>
                   AtLeastAsGood(ByWeight, c.value, CandidateAt(f, row, input))
  {
    var ranked := Ranked(f, input, now);
    var c := FirstOther(ranked, current, 0);
    RankedIsSorted(f, input, now);
    SamePlaces(ranked, EligibleUpto(f, input, now, |f.proxies|));
    FirstOtherIs(ranked, current, 0);
    if c.Some? {
      assert c.value in ranked;
      EligibleMembers(f, input, now, |f.proxies|, c.value);
    }
    forall row | && 0 <= row < |f.proxies| && Eligible(f, input, now, CandidateAt(f, row, input))
                 && f.proxies[row].id != current
      ensures c.Some? && AtLeastAsGood(ByWeight, c.value, CandidateAt(f, row, input))
    {
      OthersRankBelow(f, input, now, current, row);
    }
  }

  lemma RotationKeeps(st: Store, customer: string, id: string, now: int)
    requires Inv(st)
    ensures Inv(AfterRotation(st, customer, id, now))
  {
    SameRowsKeep(st, AfterRotation(st, customer, id, now));
  }

  predicate Settles(op: Op) {
    op.SuspendCustomer? || op.UpdateSubscriptionStatus? || op.MarkInvoicePaid?
  }

  predicate Moves(op: Op) {
    op.Allocate? || op.RotateProxy? || op.RotateAllocation? || op.FleetChanges?
  }

  ghost predicate SomeSuspended(before: seq<Allocation>, after: seq<Allocation>) {
    && |after| == |before|
    && forall k :: 0 <= k < |before| ==> after[k] == before[k] || after[k] == before[k].(status := Suspended)
  }

  ghost predicate Relabelled(before: seq<Subscription>, after: seq<Subscription>) {
    |after| == |before| && forall k :: 0 <= k < |before| ==> after[k] == before[k].(status := after[k].status)
  }

  ghost predicate OnlySuspends(st: Store, after: Store) {
    && after.fleet == st.fleet
    && after.plans == st.plans && after.legacyPlans == st.legacyPlans && after.legacySubs == st.legacySubs
    && SomeSuspended(st.allocs, after.allocs) && Relabelled(st.subs, after.subs)
  }

  lemma SuspendingSuspends(allocs: seq<Allocation>, customer: string)
    ensures SomeSuspended(allocs, SuspendedAll(allocs, customer))
  {
  }

  lemma StatusRelabels(subs: seq<Subscription>, id: string, status: string)
    ensures Relabelled(subs, WithStatus(subs, id, status))
  {
  }

  lemma SuspensionSuspends(st: Store, customer: string)
    ensures OnlySuspends(st, AfterSuspension(st, customer))
  {
    SuspendingSuspends(st.allocs, customer);
    assert Relabelled(st.subs, AllSuspended(st.subs, customer));
  }

  lemma StatusSuspends(st: Store, id: string, status: string)
    ensures OnlySuspends(st, AfterStatus(st, id, status))
  {
    var row := FindSubscription(st.subs, id, 0);
    StatusRelabels(st.subs, id, status);
    if row.Some? {
      SuspendingSuspends(st.allocs, st.subs[row.value].customer);
    }
  }

  lemma PaymentSuspendsNone(st: Store, invoice: string)
    ensures OnlySuspends(st, AfterPaid(st, invoice))
  {
    if invoice in st.invoices {
      StatusRelabels(st.subs, st.invoices[invoice].subscription, "active");
    }
  }

  /** A released allocation comes back by SuspendProxy and by nothing else, and then it is suspended. */
  lemma ReleasedComesBackExactly(st: Store, op: Op, k: nat)
    requires k < |st.allocs| && st.allocs[k].status == Deleted
    ensures k < |Do(st, op).allocs|
    ensures Do(st, op).allocs[k].status != Deleted <==> op == SuspendProxy(st.allocs[k].id)
    ensures op == SuspendProxy(st.allocs[k].id) ==> Do(st, op).allocs[k] == st.allocs[k].(status := Suspended)
  {
    if op.UpdateSubscriptionStatus? {
      StatusLeavesReleased(st, op.id, op.status, k);
    } else if Settles(op) {
      SettlingLeavesReleased(st, op, k);
    } else if Moves(op) {
      MovesLeaveReleased(st, op, k);
    }
  }

  lemma StatusLeavesReleased(st: Store, id: string, status: string, k: nat)
    requires k < |st.allocs| && st.allocs[k].status == Deleted
    ensures k < |AfterStatus(st, id, status).allocs| && AfterStatus(st, id, status).allocs[k] == st.allocs[k]
  {
  }

  lemma SettlingLeavesReleased(st: Store, op: Op, k: nat)
    requires k < |st.allocs| && st.allocs[k].status == Deleted && (op.SuspendCustomer? || op.MarkInvoicePaid?)
    ensures k < |Do(st, op).allocs| && Do(st, op).allocs[k] == st.allocs[k]
  {
  }

  lemma MovesLeaveReleased(st: Store, op: Op, k: nat)
    requires k < |st.allocs| && st.allocs[k].status == Deleted && Moves(op)
    ensures k < |Do(st, op).allocs| && Do(st, op).allocs[k].status == Deleted
  {
    match op
    case Allocate(r, id, now) => AllocateLeavesRows(st, r, id, now);
    case RotateProxy(customer, id, newId, now) =>
      var released := st.(allocs := Released(st.allocs, customer, id));
      AllocateLeavesRows(released, Rotating(customer), newId, now);
      assert released.allocs[k].status == Deleted;
    case RotateAllocation(_, _, _) =>
    case FleetChanges(_, _) =>
  }

  lemma AllocateLeavesRows(st: Store, r: Request, id: string, now: int)
    ensures var after := AfterAllocate(st, r, id, now).allocs;
            |after| >= |st.allocs| && forall k :: 0 <= k < |st.allocs| ==> after[k] == st.allocs[k]
  {
  }

  /** Billing decisions at most suspend allocations. */
  lemma SettlingSuspends(st: Store, op: Op)
    requires Settles(op)
    ensures OnlySuspends(st, Do(st, op))
  {
    match op
    case SuspendCustomer(customer) => SuspensionSuspends(st, customer);
    case UpdateSubscriptionStatus(id, status) => StatusSuspends(st, id, status);
    case MarkInvoicePaid(invoice) => PaymentSuspendsNone(st, invoice);
  }

  lemma PlainStepKeeps(st: Store, op: Op)
    requires Inv(st) && !Moves(op)
    ensures Inv(Do(st, op))
  {
    if Settles(op) {
      SettlingSuspends(st, op);
    }
    SameRowsKeep(st, Do(st, op));
  }

  lemma StepKeepsInv(st: Store, op: Op)
    requires Inv(st) && Legal(st, op)
    ensures Inv(Do(st, op))
  {
    match op
    case Allocate(r, id, now) => AllocateKeeps(st, r, id, now);
    case RotateProxy(customer, id, newId, now) =>
      var released := st.(allocs := Released(st.allocs, customer, id));
      SameRowsKeep(st, released);
      AllocateKeeps(released, Rotating(customer), newId, now);
    case RotateAllocation(customer, id, now) => RotationKeeps(st, customer, id, now);
    case FleetChanges(_, _) =>
    case _ => PlainStepKeeps(st, op);
  }

  lemma {:induction false} RunKeepsInv(st: Store, ops: seq<Op>, n: nat)
    requires Inv(st) && n <= |ops| && LegalRun(st, ops, n)
    ensures Inv(After(st, ops, n))
  {
    if n > 0 {
      RunKeepsInv(st, ops, n - 1);
      StepKeepsInv(After(st, ops, n - 1), ops[n - 1]);
    }
  }

  // ----- the loads add up

  /** The loads routing reads, summed over the first n proxies. */
  function TotalLoad(f: Fleet, n: nat): nat
    requires n <= |f.proxies|
  {
    if n == 0 then 0 else TotalLoad(f, n - 1) + Load(f, f.proxies[n - 1].id)
  }

  function CountsOver(proxies: seq<Proxy>, allocs: seq<Allocation>, rows: nat, n: nat): nat
    requires n <= |proxies| && rows <= |allocs|
  {
    if n == 0 then 0 else CountsOver(proxies, allocs, rows, n - 1) + CountOf(allocs, OfProxy(proxies[n - 1].id), rows)
  }

  /** One more allocation row adds one to the count of one proxy, wherever that is in the table. */
  lemma {:induction false} OneMoreRow(f: Fleet, allocs: seq<Allocation>, rows: nat, n: nat)
    requires Router.DistinctIds(f) && n <= |f.proxies| && rows < |allocs|
    ensures CountsOver(f.proxies, allocs, rows + 1, n) == CountsOver(f.proxies, allocs, rows, n) +
              if allocs[rows].status == Active && (exists k :: 0 <= k < n && f.proxies[k].id == allocs[rows].proxy)
                  then 1 else 0
  {
    if n > 0 {
      OneMoreRow(f, allocs, rows, n - 1);
      if f.proxies[n - 1].id == allocs[rows].proxy {
        assert forall k :: 0 <= k < n - 1 ==> f.proxies[k].id != allocs[rows].proxy;
      }
    }
  }

  lemma {:induction false} NoRows(proxies: seq<Proxy>, allocs: seq<Allocation>, n: nat)
    requires n <= |proxies|
    ensures CountsOver(proxies, allocs, 0, n) == 0
  {
    if n > 0 {
      NoRows(proxies, allocs, n - 1);
    }
  }

  /** The active allocations among the first n rows whose proxy is in the table. */
  function Present(f: Fleet, allocs: seq<Allocation>, n: nat): nat
    requires n <= |allocs|
  {
    if n == 0 then 0
    else Present(f, allocs, n - 1) + (if allocs[n - 1].status == Active && HasId(f, allocs[n - 1].proxy) then 1 else 0)
  }

  lemma {:induction false} CountsAddUp(st: Store, rows: nat)
    requires Router.DistinctIds(st.fleet) && rows <= |st.allocs|
    ensures CountsOver(st.fleet.proxies, st.allocs, rows, |st.fleet.proxies|) == Present(st.fleet, st.allocs, rows)
  {
    if rows == 0 {
      NoRows(st.fleet.proxies, st.allocs, |st.fleet.proxies|);
    } else {
      CountsAddUp(st, rows - 1);
      OneMoreRow(st.fleet, st.allocs, rows - 1, |st.fleet.proxies|);
    }
  }

  /** Every active allocation's proxy is in the table. */
  ghost predicate Anchored(st: Store) {
    forall k :: 0 <= k < |st.allocs| && st.allocs[k].status == Active ==> HasId(st.fleet, st.allocs[k].proxy)
  }

  lemma {:induction false} PresentIsAll(f: Fleet, allocs: seq<Allocation>, n: nat)
    requires n <= |allocs|
    ensures Present(f, allocs, n) <= CountOf(allocs, Anyones, n)
    ensures Present(f, allocs, n) == CountOf(allocs, Anyones, n) <==>
            forall k :: 0 <= k < n && allocs[k].status == Active ==> HasId(f, allocs[k].proxy)
  {
    if n > 0 {
      PresentIsAll(f, allocs, n - 1);
    }
  }

  lemma {:induction false} LoadsAreCounts(st: Store, n: nat)
    requires n <= |st.fleet.proxies|
    ensures TotalLoad(FleetNow(st), n) == CountsOver(st.fleet.proxies, st.allocs, |st.allocs|, n)
  {
    if n > 0 {
      LoadsAreCounts(st, n - 1);
      LoadIsCount(st, n - 1);
    }
  }

  /** The loads routing reads, summed over all proxies. */
  function LoadSum(st: Store): nat {
    TotalLoad(FleetNow(st), |st.fleet.proxies|)
  }

  /** The loads add up to the active allocations whose proxy is in the table, so to all active allocations exactly when
      every one of them has its proxy there. */
  lemma LoadsAddUp(st: Store)
    requires Router.DistinctIds(st.fleet)
    ensures LoadSum(st) == Present(st.fleet, st.allocs, |st.allocs|)
    ensures LoadSum(st) == Total(st, Anyones) <==> Anchored(st)
  {
    LoadsAreCounts(st, |st.fleet.proxies|);
    CountsAddUp(st, |st.allocs|);
    PresentIsAll(st.fleet, st.allocs, |st.allocs|);
  }

  /** So it is after any run, proxies being deleted or not. */
  lemma LoadsAreConserved(st: Store, ops: seq<Op>, n: nat)
    requires Inv(st) && n <= |ops| && LegalRun(st, ops, n)
    ensures var after := After(st, ops, n);
            && LoadSum(after) == Present(after.fleet, after.allocs, |after.allocs|)
            && (LoadSum(after) == Total(after, Anyones) <==> Anchored(after))
  {
    RunKeepsInv(st, ops, n);
    LoadsAddUp(After(st, ops, n));
  }

  // ----- deleting a proxy that is held

  /** The fleet changes to one without a proxy that an active allocation holds. */
  ghost predicate DropsHeld(st: Store, op: Op) {
    op.FleetChanges? &&
    exists k :: 0 <= k < |st.allocs| && st.allocs[k].status == Active && !HasId(op.fleet, st.allocs[k].proxy)
  }

  lemma RankedAreInTable(f: Fleet, input: Input, now: int, c: Candidate)
    requires c in Ranked(f, input, now)
    ensures HasId(f, c.proxy.id)
  {
    RankedIsSorted(f, input, now);
    SamePlaces(Ranked(f, input, now), EligibleUpto(f, input, now, |f.proxies|));
    EligibleMembers(f, input, now, |f.proxies|, c);
    assert f.proxies[c.row].id == c.proxy.id;
  }

  lemma ReplacementIsInTable(st: Store, customer: string, id: string, now: int)
    ensures var c := Replacement(st, customer, id, now); c.Success? ==> HasId(st.fleet, c.value.proxy.id)
  {
    var row := FindAllocation(st.allocs, customer, id, 0);
    if row.Some? {
      var a := st.allocs[row.value];
      var input := RotationInput(a, customer);
      var ranked := Ranked(FleetNow(st), input, now);
      FirstOtherIs(ranked, a.proxy, 0);
      var c := FirstOther(ranked, a.proxy, 0);
      if c.Some? {
        RankedAreInTable(FleetNow(st), input, now, c.value);
        var k :| 0 <= k < |st.fleet.proxies| && st.fleet.proxies[k].id == c.value.proxy.id;
      }
    }
  }

  lemma FewerHoldersAnchored(st: Store, after: Store)
    requires Anchored(st) && after.fleet == st.fleet && |after.allocs| == |st.allocs|
    requires forall k :: 0 <= k < |st.allocs| && after.allocs[k].status == Active ==>
               st.allocs[k].status == Active && after.allocs[k].proxy == st.allocs[k].proxy
    ensures Anchored(after)
  {
  }

  lemma AllocateAnchors(st: Store, r: Request, id: string, now: int)
    requires Anchored(st)
    ensures Anchored(AfterAllocate(st, r, id, now))
  {
    var after := AfterAllocate(st, r, id, now);
    if Allocated(st, r, now).Success? {
      AllocatedRowExists(st, r, now);
      var row := Allocated(st, r, now).value;
      forall p | HasId(st.fleet, p) ensures HasId(after.fleet, p) {
        var k :| 0 <= k < |st.fleet.proxies| && st.fleet.proxies[k].id == p;
        assert after.fleet.proxies[k].id == p;
      }
      assert after.fleet.proxies[row].id == st.fleet.proxies[row].id;
    }
  }

  lemma RotationAnchors(st: Store, customer: string, id: string, now: int)
    requires Anchored(st)
    ensures Anchored(AfterRotation(st, customer, id, now))
  {
    ReplacementIsInTable(st, customer, id, now);
  }

  lemma PlainStepAnchors(st: Store, op: Op)
    requires Anchored(st) && !Moves(op)
    ensures Anchored(Do(st, op))
  {
    if Settles(op) {
      SettlingSuspends(st, op);
    }
    FewerHoldersAnchored(st, Do(st, op));
  }

  /** From where the loads add up to all active allocations, a step leaves them adding up unless, and only unless, it
      deletes a proxy that is held. */
  lemma LoadsBreakExactly(st: Store, op: Op)
    requires Inv(st) && Legal(st, op) && LoadSum(st) == Total(st, Anyones)
    ensures LoadSum(Do(st, op)) == Total(Do(st, op), Anyones) <==> !DropsHeld(st, op)
  {
    LoadsAddUp(st);
    StepKeepsInv(st, op);
    LoadsAddUp(Do(st, op));
    AnchorsBreakExactly(st, op);
  }

  lemma AnchorsBreakExactly(st: Store, op: Op)
    requires Anchored(st)
    ensures Anchored(Do(st, op)) <==> !DropsHeld(st, op)
  {
    match op
    case Allocate(r, id, now) => AllocateAnchors(st, r, id, now);
    case RotateProxy(customer, id, newId, now) =>
      var released := st.(allocs := Released(st.allocs, customer, id));
      FewerHoldersAnchored(st, released);
      AllocateAnchors(released, Rotating(customer), newId, now);
    case RotateAllocation(customer, id, now) => RotationAnchors(st, customer, id, now);
    case FleetChanges(_, _) =>
    case _ => PlainStepAnchors(st, op);
  }

  ghost predicate NoneDropsHeld(st: Store, ops: seq<Op>, n: nat)
    requires n <= |ops|
  {
    n == 0 || (NoneDropsHeld(st, ops, n - 1) && !DropsHeld(After(st, ops, n - 1), ops[n - 1]))
  }

  lemma {:induction false} StaysAnchored(st: Store, ops: seq<Op>, n: nat)
    requires Anchored(st) && n <= |ops| && NoneDropsHeld(st, ops, n)
    ensures Anchored(After(st, ops, n))
  {
    if n > 0 {
      StaysAnchored(st, ops, n - 1);
      AnchorsBreakExactly(After(st, ops, n - 1), ops[n - 1]);
    }
  }

  /** Over any run that deletes no held proxy the loads add up to all active allocations. */
  lemma LoadsAddUpUntilDropped(st: Store, ops: seq<Op>, n: nat)
    requires Inv(st) && Anchored(st) && n <= |ops| && LegalRun(st, ops, n) && NoneDropsHeld(st, ops, n)
    ensures LoadSum(After(st, ops, n)) == Total(After(st, ops, n), Anyones)
  {
    StaysAnchored(st, ops, n);
    LoadsAreConserved(st, ops, n);
  }

  const ONE_PROXY := Proxy("p", "", "", "socks5", Running, "", "", 0)
  const EMPTY_FLEET := Fleet([], {}, map[], map[], map[], [], map[])
  const ONE_HELD := Store(
    true, true, EMPTY_FLEET.(proxies := [ONE_PROXY]), {}, Router.State(map[], []), map[], map[], [], map[], [], map[],
    [Allocation("a", "c", "p", Active, "static", "", 0, 0)])

  /** Deleting the proxy of the one active allocation, as the handlers do, leaves a load sum of zero against it. */
  lemma DeletedProxyLosesLoad()
    ensures Inv(ONE_HELD) && LoadSum(ONE_HELD) == Total(ONE_HELD, Anyones) == 1
    ensures var op := FleetChanges(EMPTY_FLEET, {});
            Legal(ONE_HELD, op) && LoadSum(Do(ONE_HELD, op)) == 0 && Total(Do(ONE_HELD, op), Anyones) == 1
  {
    assert ONE_HELD.fleet.proxies[0].id == "p";
    assert HasId(ONE_HELD.fleet, "p");
    LoadsAddUp(ONE_HELD);
    assert CountOf(ONE_HELD.allocs, Anyones, 1) == CountOf(ONE_HELD.allocs, Anyones, 0) + 1;
  }

  // ----- rotating

  /** Rotating an active allocation fails exactly when no other proxy is eligible. Otherwise it takes one unit of
      load from its proxy, deleted or not, and gives it to the best-ranked other one, and no other count changes. */
  lemma RotationMovesOneUnit(st: Store, customer: string, id: string, now: int)
    requires DistinctAllocations(st.allocs) && FindAllocation(st.allocs, customer, id, 0).Some?
    ensures var a := st.allocs[FindAllocation(st.allocs, customer, id, 0).value];
            var f, input, c := FleetNow(st), RotationInput(a, customer), Replacement(st, customer, id, now);
            var after := AfterRotation(st, customer, id, now);
            if c.Failure?
            then
              && after == st
              && forall row :: 0 <= row < |f.proxies| && Eligible(f, input, now, CandidateAt(f, row, input)) ==>
                   f.proxies[row].id == a.proxy
            else
              && Eligible(f, input, now, c.value) && c.value.proxy.id != a.proxy
              && (forall row :: && 0 <= row < |f.proxies| && Eligible(f, input, now, CandidateAt(f, row, input))
                                && f.proxies[row].id != a.proxy ==>
                    AtLeastAsGood(ByWeight, c.value, CandidateAt(f, row, input)))
              && (forall c :: Total(after, OfCustomer(c)) == Total(st, OfCustomer(c)))
              && (forall p :: Total(after, OfProxy(p)) == Total(st, OfProxy(p)) +
                    if a.status != Active then 0 else if p == c.value.proxy.id then 1 else if p == a.proxy then -1
                        else 0)
  {
    var row := FindAllocation(st.allocs, customer, id, 0).value;
    var a, c := st.allocs[row], Replacement(st, customer, id, now);
    ReplacementIsBest(FleetNow(st), RotationInput(a, customer), now, a.proxy);
    if c.Success? {
      MovingOneRow(st.allocs, row, c.value.proxy.id);
    }
  }

  lemma MovingOneRow(allocs: seq<Allocation>, row: nat, proxy: string)
    requires DistinctAllocations(allocs) && row < |allocs| && allocs[row].proxy != proxy
    ensures var moved := Moved(allocs, allocs[row].id, proxy);
            && (forall c :: CountOf(moved, OfCustomer(c), |moved|) == CountOf(allocs, OfCustomer(c), |allocs|))
            && (forall p :: CountOf(moved, OfProxy(p), |moved|) == CountOf(allocs, OfProxy(p), |allocs|) +
                    if allocs[row].status != Active then 0 else if p == proxy then 1 else if p == allocs[row].proxy
                        then -1 else 0)
  {
    var moved := Moved(allocs, allocs[row].id, proxy);
    forall k | 0 <= k < |allocs| && k != row ensures moved[k] == allocs[k] {
      assert k < row || row < k;
    }
    forall c ensures CountOf(moved, OfCustomer(c), |moved|) == CountOf(allocs, OfCustomer(c), |allocs|) {
      CountOneChange(allocs, moved, OfCustomer(c), |allocs|, row);
    }
    forall p ensures CountOf(moved, OfProxy(p), |moved|) == CountOf(allocs, OfProxy(p), |allocs|) +
                       if allocs[row].status != Active then 0
                       else if p == proxy then 1
                       else if p == allocs[row].proxy then -1 else 0
    {
      CountOneChange(allocs, moved, OfProxy(p), |allocs|, row);
    }
  }

  // ----- allocating counts once

  /** An allocation adds one to its customer's and its proxy's count when it succeeds, and nothing else is counted
      anew. */
  lemma AllocateCounts(st: Store, r: Request, id: string, now: int, w: Whose)
    ensures var row, after := Allocated(st, r, now), AfterAllocate(st, r, id, now);
            && (row.Success? ==> row.value < |st.fleet.proxies|)
            && Total(after, w) == Total(st, w) +
                 if row.Success? && Counts(w, NewAllocation(st.fleet.proxies[row.value], r, id)) then 1 else 0
  {
    AllocatedRowExists(st, r, now);
    var row := Allocated(st, r, now);
    if row.Success? {
      CountAppend(st.allocs, NewAllocation(st.fleet.proxies[row.value], r, id), w);
    }
  }

  // ----- the gates

  /** With the enforcer set, a request is permitted exactly when the commercial plan has room, allows the country
      and has traffic left. Its rotation mode and any legacy subscription make no difference. */
  lemma EnforcedPermitExactly(st: Store, customer: string, country: string, mode: string, now: int)
    requires st.enforced
    ensures var plan := CommercialPlan(st, customer, now);
            Permit(st, customer, country, mode, now).None? <==>
            && plan.Success?
            && (plan.value.maxProxies <= 0 || Total(st, OfCustomer(customer)) < plan.value.maxProxies)
            && (country == "" || Allows(plan.value.countries, country))
            && (plan.value.bandwidthGB <= 0 ||
                Usage(st.allocs, customer, |st.allocs|) < plan.value.bandwidthGB * GIGABYTE)
  {
  }

  /** The fallback takes a proxy no one holds, none of the others was updated more recently, and it finds one if
      there is one. */
  lemma {:induction false} FallbackIsMostRecent(st: Store, r: Request, n: nat)
    requires n <= |st.fleet.proxies|
    ensures var row := FallbackRow(st, r, n);
            && (row.Some? ==> Total(st, OfProxy(st.fleet.proxies[row.value].id)) == 0)
            && (forall k :: 0 <= k < n && FallbackFits(st, r, st.fleet.proxies[k]) ==>
                  && row.Some?
                  && st.fleet.proxies[k].updatedAt <= st.fleet.proxies[row.value].updatedAt
                  && (k < row.value ==> st.fleet.proxies[k].updatedAt < st.fleet.proxies[row.value].updatedAt))
  {
    if n > 0 {
      FallbackIsMostRecent(st, r, n - 1);
    }
  }

  // ----- the suspension gate

  ghost predicate Shut(st: Store, customer: string) {
    && st.enforced
    && (forall k :: 0 <= k < |st.subs| && st.subs[k].customer == customer ==> st.subs[k].status != "active")
    && (forall k :: 0 <= k < |st.allocs| && st.allocs[k].customer == customer ==> st.allocs[k].status != Active)
  }

  predicate Owns(st: Store, customer: string, subscription: string) {
    exists k :: 0 <= k < |st.subs| && st.subs[k].id == subscription && st.subs[k].customer == customer
  }

  /** The step activates a subscription of the customer. */
  predicate Activates(st: Store, op: Op, customer: string) {
    match op
    case UpdateSubscriptionStatus(id, status) => status == "active" && Owns(st, customer, id)
    case MarkInvoicePaid(invoice) =>
      && invoice in st.invoices && st.invoices[invoice].subscription != ""
      && Owns(st, customer, st.invoices[invoice].subscription)
    case CreateSubscription(_, buyer, _, _, status, _) => buyer == customer && status == "active"
    case _ => false
  }

  predicate Current(s: Subscription, customer: string, now: int, started: bool) {
    s.customer == customer && s.status == "active" && s.expiresAt > now && (started ==> s.startsAt <= now)
  }

  /** The subscription used is one in force, and none in force expires later. */
  lemma {:induction false} LatestIsActive(subs: seq<Subscription>, customer: string, now: int, started: bool, n: nat)
    requires n <= |subs|
    ensures var s := Latest(subs, customer, now, started, n);
            && (s.Some? ==> s.value in subs && Current(s.value, customer, now, started))
            && (forall k :: 0 <= k < n && Current(subs[k], customer, now, started) ==>
                  s.Some? && subs[k].expiresAt <= s.value.expiresAt)
  {
    if n > 0 {
      LatestIsActive(subs, customer, now, started, n - 1);
    }
  }

  lemma ShutRefuses(st: Store, customer: string, country: string, mode: string, now: int)
    requires Shut(st, customer)
    ensures Permit(st, customer, country, mode, now).Some?
  {
    LatestIsActive(st.subs, customer, now, true, |st.subs|);
  }

  lemma ShutAllocate(st: Store, r: Request, id: string, now: int, customer: string)
    requires Shut(st, customer)
    ensures Shut(AfterAllocate(st, r, id, now), customer)
  {
    if r.customer == customer {
      ShutRefuses(st, r.customer, r.country, r.mode, now);
    }
  }

  lemma StatusOpens(subs: seq<Subscription>, id: string, status: string, customer: string)
    requires forall k :: 0 <= k < |subs| && subs[k].customer == customer ==> subs[k].status != "active"
    ensures (forall k :: 0 <= k < |subs| && subs[k].customer == customer ==>
            WithStatus(subs, id, status)[k].status != "active") <==>
            !(status == "active" && exists k :: 0 <= k < |subs| && subs[k].id == id && subs[k].customer == customer)
  {
    if status == "active" && exists k :: 0 <= k < |subs| && subs[k].id == id && subs[k].customer == customer {
      var k :| 0 <= k < |subs| && subs[k].id == id && subs[k].customer == customer;
      assert WithStatus(subs, id, status)[k].status == "active";
    }
  }

  lemma GateAtStatus(st: Store, id: string, status: string, customer: string)
    requires Shut(st, customer)
    ensures Shut(AfterStatus(st, id, status), customer) <==> !(status == "active" && Owns(st, customer, id))
  {
    StatusOpens(st.subs, id, status, customer);
    if ValidStatus(status) {
      var relabelled := st.(subs := WithStatus(st.subs, id, status));
      assert Shut(relabelled, customer) <==> !(status == "active" && Owns(st, customer, id));
    }
  }

  lemma GateAtSettling(st: Store, op: Op, customer: string)
    requires Shut(st, customer) && Settles(op)
    ensures Shut(Do(st, op), customer) <==> !Activates(st, op, customer)
  {
    match op
    case UpdateSubscriptionStatus(id, status) => GateAtStatus(st, id, status, customer);
    case MarkInvoicePaid(invoice) =>
      if invoice in st.invoices {
        StatusOpens(st.subs, st.invoices[invoice].subscription, "active", customer);
      }
    case SuspendCustomer(_) =>
  }

  lemma GateAtRotation(st: Store, owner: string, id: string, now: int, customer: string)
    requires Shut(st, customer)
    ensures Shut(AfterRotation(st, owner, id, now), customer)
  {
    var c := Replacement(st, owner, id, now);
    if c.Success? {
      var moved := Moved(st.allocs, id, c.value.proxy.id);
      assert forall k :: 0 <= k < |moved| ==>
               moved[k].customer == st.allocs[k].customer && moved[k].status == st.allocs[k].status;
    }
  }

  lemma GateAtMoves(st: Store, op: Op, customer: string)
    requires Shut(st, customer) && Moves(op)
    ensures Shut(Do(st, op), customer)
  {
    match op
    case Allocate(r, id, now) => ShutAllocate(st, r, id, now, customer);
    case RotateProxy(owner, id, newId, now) =>
      var released := st.(allocs := Released(st.allocs, owner, id));
      assert Shut(released, customer);
      ShutAllocate(released, Rotating(owner), newId, now, customer);
    case RotateAllocation(owner, id, now) => GateAtRotation(st, owner, id, now, customer);
    case FleetChanges(_, _) =>
  }

  /** A shut account opens exactly at a step that activates one of its subscriptions: by status, by payment or by
      creation. */
  lemma GateOpensExactly(st: Store, op: Op, customer: string)
    requires Shut(st, customer)
    ensures Shut(Do(st, op), customer) <==> !Activates(st, op, customer)
  {
    if Moves(op) {
      GateAtMoves(st, op, customer);
    } else if Settles(op) {
      GateAtSettling(st, op, customer);
    } else if op.CreateSubscription? {
      var after := Do(st, op);
      assert after.subs[|st.subs|] == NewSubscription(op.id, op.customer, op.plan, op.days, op.status, op.now);
    }
  }

  lemma ShutHoldsNothing(st: Store, customer: string)
    requires Shut(st, customer)
    ensures Total(st, OfCustomer(customer)) == 0
  {
    CountIsZero(st.allocs, OfCustomer(customer), |st.allocs|);
  }

  predicate NoneActivates(st: Store, ops: seq<Op>, customer: string, n: nat)
    requires n <= |ops|
  {
    n == 0 || (NoneActivates(st, ops, customer, n - 1) && !Activates(After(st, ops, n - 1), ops[n - 1], customer))
  }

  lemma {:induction false} StaysShut(st: Store, customer: string, ops: seq<Op>, n: nat)
    requires Shut(st, customer) && n <= |ops| && NoneActivates(st, ops, customer, n)
    ensures Shut(After(st, ops, n), customer)
  {
    if n > 0 {
      StaysShut(st, customer, ops, n - 1);
      var before, op := After(st, ops, n - 1), ops[n - 1];
      assert After(st, ops, n) == Do(before, op);
      GateOpensExactly(before, op, customer);
    }
  }

  /** From SuspendCustomer on, whatever is allocated, rotated, released, unsuspended, sold or paid, the customer
      holds no active allocation until a step activates one of its subscriptions. */
  lemma SuspensionGate(st: Store, customer: string, ops: seq<Op>, n: nat)
    requires st.enforced && n <= |ops| && NoneActivates(AfterSuspension(st, customer), ops, customer, n)
    ensures var after := After(AfterSuspension(st, customer), ops, n);
            Shut(after, customer) && Total(after, OfCustomer(customer)) == 0
  {
    var suspended := AfterSuspension(st, customer);
    StaysShut(suspended, customer, ops, n);
    ShutHoldsNothing(After(suspended, ops, n), customer);
  }

  // ----- quotas

  predicate Within(plans: map<string, Plan>, plan: string, limit: nat) {
    plan in plans ==> 0 < plans[plan].maxProxies <= limit
  }

  /** Every plan the customer is subscribed to, at present or in the past, has a positive limit of at most that. */
  ghost predicate PlansWithin(st: Store, customer: string, limit: nat) {
    && (forall k :: 0 <= k < |st.subs| && st.subs[k].customer == customer ==> Within(st.plans, st.subs[k].plan, limit))
    && (forall k :: 0 <= k < |st.legacySubs| && st.legacySubs[k].customer == customer ==>
          Within(st.legacyPlans, st.legacySubs[k].plan, limit))
  }

  predicate SellsWithin(st: Store, op: Op, customer: string, limit: nat) {
    match op
    case CreateSubscription(_, buyer, plan, _, _, _) => buyer == customer ==> Within(st.plans, plan, limit)
    case ActivateSubscription(_, buyer, plan, _, _) => buyer == customer ==> Within(st.legacyPlans, plan, limit)
    case _ => true
  }

  /** An allocation is only permitted below the limit of the plan in force. */
  lemma PermitIsBelowLimit(st: Store, customer: string, country: string, mode: string, now: int, limit: nat)
    requires PlansWithin(st, customer, limit) && Permit(st, customer, country, mode, now).None?
    ensures Total(st, OfCustomer(customer)) < limit
  {
    LatestIsActive(st.subs, customer, now, true, |st.subs|);
    LatestIsActive(st.legacySubs, customer, now, false, |st.legacySubs|);
  }

  lemma QuotaAllocate(st: Store, r: Request, id: string, now: int, customer: string, limit: nat)
    requires PlansWithin(st, customer, limit) && Total(st, OfCustomer(customer)) <= limit
    ensures Total(AfterAllocate(st, r, id, now), OfCustomer(customer)) <= limit
  {
    AllocateCounts(st, r, id, now, OfCustomer(customer));
    if Allocated(st, r, now).Success? && r.customer == customer {
      PermitIsBelowLimit(st, r.customer, r.country, r.mode, now, limit);
    }
  }

  /** Besides allocating, no operation raises a customer's count. */
  lemma OthersDoNotAdd(st: Store, op: Op, customer: string)
    requires !op.Allocate? && !op.RotateProxy?
    ensures Total(Do(st, op), OfCustomer(customer)) <= Total(st, OfCustomer(customer))
  {
    if Settles(op) {
      SettlingSuspends(st, op);
    }
    CountShrinks(st.allocs, Do(st, op).allocs, OfCustomer(customer), |st.allocs|);
  }

  predicate SameSubscriptions(st: Store, after: Store) {
    && after.plans == st.plans && after.subs == st.subs
    && after.legacyPlans == st.legacyPlans && after.legacySubs == st.legacySubs
  }

  lemma AllocateKeepsSubscriptions(st: Store, r: Request, id: string, now: int)
    ensures SameSubscriptions(st, AfterAllocate(st, r, id, now))
  {
  }

  lemma MovesKeepSubscriptions(st: Store, op: Op)
    requires !Settles(op) && !op.CreateSubscription? && !op.ActivateSubscription?
    ensures SameSubscriptions(st, Do(st, op))
  {
    if op.Allocate? {
      AllocateKeepsSubscriptions(st, op.request, op.id, op.now);
    } else if op.RotateProxy? {
      ReallocatingKeepsSubscriptions(st, op.customer, op.id, op.newId, op.now);
    }
  }

  lemma ReallocatingKeepsSubscriptions(st: Store, customer: string, id: string, newId: string, now: int)
    ensures SameSubscriptions(st, Do(st, RotateProxy(customer, id, newId, now)))
  {
    AllocateKeepsSubscriptions(st.(allocs := Released(st.allocs, customer, id)), Rotating(customer), newId, now);
  }

  lemma SalesStayWithin(st: Store, op: Op, customer: string, limit: nat)
    requires PlansWithin(st, customer, limit) && SellsWithin(st, op, customer, limit)
    ensures PlansWithin(Do(st, op), customer, limit)
  {
    if Settles(op) {
      SettlingSuspends(st, op);
    } else if !op.CreateSubscription? && !op.ActivateSubscription? {
      MovesKeepSubscriptions(st, op);
    }
  }

  lemma QuotaStep(st: Store, op: Op, customer: string, limit: nat)
    requires PlansWithin(st, customer, limit) && SellsWithin(st, op, customer, limit)
    requires Total(st, OfCustomer(customer)) <= limit
    ensures PlansWithin(Do(st, op), customer, limit) && Total(Do(st, op), OfCustomer(customer)) <= limit
  {
    SalesStayWithin(st, op, customer, limit);
    match op
    case Allocate(r, id, now) => QuotaAllocate(st, r, id, now, customer, limit);
    case RotateProxy(owner, id, newId, now) =>
      var released := st.(allocs := Released(st.allocs, owner, id));
      CountShrinks(st.allocs, released.allocs, OfCustomer(customer), |st.allocs|);
      QuotaAllocate(released, Rotating(owner), newId, now, customer, limit);
    case _ => OthersDoNotAdd(st, op, customer);
  }

  predicate AllSellWithin(st: Store, ops: seq<Op>, customer: string, limit: nat, n: nat)
    requires n <= |ops|
  {
    n == 0 || (AllSellWithin(st, ops, customer, limit, n - 1) &&
        SellsWithin(After(st, ops, n - 1), ops[n - 1], customer, limit))
  }

  /** While every plan sold to the customer has a limit of at most that, no run of operations takes it above the
      limit. */
  lemma {:induction false} QuotaIsNeverExceeded(st: Store, ops: seq<Op>, n: nat, customer: string, limit: nat)
    requires PlansWithin(st, customer, limit) && Total(st, OfCustomer(customer)) <= limit && n <= |ops|
    requires AllSellWithin(st, ops, customer, limit, n)
    ensures PlansWithin(After(st, ops, n), customer, limit) && Total(After(st, ops, n), OfCustomer(customer)) <= limit
  {
    if n > 0 {
      QuotaIsNeverExceeded(st, ops, n - 1, customer, limit);
      var before, op := After(st, ops, n - 1), ops[n - 1];
      assert After(st, ops, n) == Do(before, op);
      QuotaStep(before, op, customer, limit);
    }
  }

  // ----- load stays level between alike proxies

  /** Rows i and j have the same health inputs and pass the same filters of the request. */
  predicate Twins(st: Store, input: Input, now: int, i: nat, j: nat)
    requires i < |st.fleet.proxies| && j < |st.fleet.proxies|
  {
    var f, p, q := FleetNow(st), st.fleet.proxies[i], st.fleet.proxies[j];
    var c, d := CandidateAt(f, i, input), CandidateAt(f, j, input);
    && HealthOf(f, p) == HealthOf(f, q) && p.kind == q.kind && p.country == q.country && p.region == q.region
    && c.node == d.node && (p.agent in f.offline <==> q.agent in f.offline)
    && (ReservationAllows(f, input, now, c) <==> ReservationAllows(f, input, now, d))
  }

  /** The less loaded of two twins is never filtered out before the other, and always ranks strictly higher. */
  lemma LighterTwinIsBetter(st: Store, input: Input, now: int, i: nat, j: nat)
    requires i < |st.fleet.proxies| && j < |st.fleet.proxies| && Twins(st, input, now, i, j)
    requires Eligible(FleetNow(st), input, now, CandidateAt(FleetNow(st), i, input))
    requires Total(st, OfProxy(st.fleet.proxies[j].id)) < Total(st, OfProxy(st.fleet.proxies[i].id))
    ensures var f := FleetNow(st);
            && Eligible(f, input, now, CandidateAt(f, j, input))
            && CandidateAt(f, j, input).weighted > CandidateAt(f, i, input).weighted
  {
    LoadIsCount(st, i);
    LoadIsCount(st, j);
    LoadLowersRank(HealthOf(FleetNow(st), st.fleet.proxies[i]),
                   Total(st, OfProxy(st.fleet.proxies[j].id)), Total(st, OfProxy(st.fleet.proxies[i].id)));
  }

  /** In a mode that is not sticky, routed or not, the proxy allocated carries no more load than any twin of it. */
  lemma AllocatesTheLighterTwin(st: Store, r: Request, now: int, j: nat)
    requires !Router.IsSticky(DefaultRotation(r.mode)) && Allocated(st, r, now).Success? && j < |st.fleet.proxies|
    requires Allocated(st, r, now).value < |st.fleet.proxies|
    requires Twins(st, RoutingInput(r), now, Allocated(st, r, now).value, j)
    ensures Total(st, OfProxy(st.fleet.proxies[Allocated(st, r, now).value].id)) <= Total(st,
            OfProxy(st.fleet.proxies[j].id))
  {
    var row, input, f := Allocated(st, r, now).value, RoutingInput(r), FleetNow(st);
    if RoutedRow(st, r, now).Some? {
      Router.SelectionIsExact(f, input, now, st.routing);
      if Total(st, OfProxy(st.fleet.proxies[j].id)) < Total(st, OfProxy(st.fleet.proxies[row].id)) {
        LighterTwinIsBetter(st, input, now, row, j);
      }
    }
  }

  function Gap(st: Store, i: nat, j: nat): nat
    requires i < |st.fleet.proxies| && j < |st.fleet.proxies|
  {
    var x, y := Total(st, OfProxy(st.fleet.proxies[i].id)), Total(st, OfProxy(st.fleet.proxies[j].id));
    if x < y then y - x else x - y
  }

  lemma CountAfterAllocate(st: Store, r: Request, id: string, now: int, i: nat)
    requires Router.DistinctIds(st.fleet) && i < |st.fleet.proxies|
    ensures var after, row := AfterAllocate(st, r, id, now), Allocated(st, r, now);
            && |after.fleet.proxies| == |st.fleet.proxies| && after.fleet.proxies[i].id == st.fleet.proxies[i].id
            && Total(after, OfProxy(st.fleet.proxies[i].id)) ==
               Total(st, OfProxy(st.fleet.proxies[i].id)) + if row == Success(i) then 1 else 0
  {
    var id0, row := st.fleet.proxies[i].id, Allocated(st, r, now);
    AllocateCounts(st, r, id, now, OfProxy(id0));
    if row.Success? && row.value != i {
      assert row.value < i || i < row.value;
    }
  }

  /** No such allocation widens the gap between two twins beyond one. */
  lemma GapNeverWidensBeyondOne(st: Store, r: Request, id: string, now: int, i: nat, j: nat)
    requires Router.DistinctIds(st.fleet) && !Router.IsSticky(DefaultRotation(r.mode))
    requires i < |st.fleet.proxies| && j < |st.fleet.proxies|
    requires Twins(st, RoutingInput(r), now, i, j)
    ensures |AfterAllocate(st, r, id, now).fleet.proxies| == |st.fleet.proxies|
    ensures Gap(AfterAllocate(st, r, id, now), i, j) <= Gap(st, i, j) || Gap(AfterAllocate(st, r, id, now), i, j) <= 1
  {
    CountAfterAllocate(st, r, id, now, i);
    CountAfterAllocate(st, r, id, now, j);
    if Allocated(st, r, now) == Success(i) {
      AllocatesTheLighterTwin(st, r, now, j);
    } else if Allocated(st, r, now) == Success(j) {
      AllocatesTheLighterTwin(st, r, now, i);
    }
  }
}
