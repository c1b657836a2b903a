/** Which proxy an allocation or a rotation gets, why one is refused, and what billing decisions change, said of the
    rows and the request alone. */
module AllocationAnswers {
  import opened Wrappers
  import opened Quality
  import opened Selection
  import opened Allocation
  import opened AllocationLaws
  import opened RouterAnswers
  import Router

  // ----- counts and sums

  lemma {:induction false} HeldUpto(allocs: seq<Allocation>, customer: string, n: nat)
    requires n <= |allocs|
    ensures CountOf(allocs, OfCustomer(customer), n) ==
            |set k | 0 <= k < n && allocs[k].status == Active && allocs[k].customer == customer|
  {
    var all := set k | 0 <= k < n && allocs[k].status == Active && allocs[k].customer == customer;
    if n > 0 {
      HeldUpto(allocs, customer, n - 1);
      var before := set k | 0 <= k < n - 1 && allocs[k].status == Active && allocs[k].customer == customer;
      assert all == if allocs[n - 1].status == Active && allocs[n - 1].customer == customer then before + {n - 1}
                    else before;
    } else {
      assert all == {};
    }
  }

  /** All traffic of the customer's rows, released and suspended ones included. */
  function Traffic(allocs: seq<Allocation>, customer: string): nat {
    if allocs == [] then 0
    else (if allocs[0].customer == customer then allocs[0].bytesIn + allocs[0].bytesOut else 0) +
         Traffic(allocs[1..], customer)
  }

  lemma {:induction false} UsageFromTheFront(allocs: seq<Allocation>, customer: string, n: nat)
    requires n <= |allocs|
    ensures Usage(allocs, customer, n) + Traffic(allocs[n..], customer) == Traffic(allocs, customer)
  {
    if n > 0 {
      UsageFromTheFront(allocs, customer, n - 1);
      assert allocs[n - 1..][1..] == allocs[n..];
    } else {
      assert allocs[0..] == allocs;
    }
  }

  lemma UsageIsTraffic(allocs: seq<Allocation>, customer: string)
    ensures Usage(allocs, customer, |allocs|) == Traffic(allocs, customer)
  {
    UsageFromTheFront(allocs, customer, |allocs|);
  }

  lemma {:induction false} HoldersUpto(allocs: seq<Allocation>, proxy: string, n: nat)
    requires n <= |allocs|
    ensures CountOf(allocs, OfProxy(proxy), n) ==
            |set k | 0 <= k < n && allocs[k].status == Active && allocs[k].proxy == proxy|
  {
    var all := set k | 0 <= k < n && allocs[k].status == Active && allocs[k].proxy == proxy;
    if n > 0 {
      HoldersUpto(allocs, proxy, n - 1);
      var before := set k | 0 <= k < n - 1 && allocs[k].status == Active && allocs[k].proxy == proxy;
      assert all == if allocs[n - 1].status == Active && allocs[n - 1].proxy == proxy then before + {n - 1} else before;
    } else {
      assert all == {};
    }
  }

  /** The router sees the tables as they are, and as a proxy's load the number of its active allocations. */
  lemma FleetIsCounted(st: Store, row: nat)
    requires row < |st.fleet.proxies|
    ensures var f, id := FleetNow(st), st.fleet.proxies[row].id;
            && f == st.fleet.(loads := f.loads)
            && id in f.loads
            && f.loads[id] ==
               |set k | 0 <= k < |st.allocs| && st.allocs[k].status == Active && st.allocs[k].proxy == id|
  {
    var id := st.fleet.proxies[row].id;
    LoadsAre(st.fleet.proxies, st.allocs, |st.fleet.proxies|, id);
    HoldersUpto(st.allocs, id, |st.allocs|);
  }

  // ----- subscriptions and plans

  /** The subscription gives the customer its plan now; a commercial one must have begun. */
  predicate Valid(s: Subscription, customer: string, now: int, commercial: bool) {
    s.customer == customer && s.status == "active" && now < s.expiresAt && (commercial ==> s.startsAt <= now)
  }

  ghost predicate PlanFits(
    plans: map<string, Plan>, subs: seq<Subscription>, customer: string, now: int, commercial: bool,
    plan: Result<Plan, Refusal>)
  {
    if forall k :: 0 <= k < |subs| ==> !Valid(subs[k], customer, now, commercial) then plan == Failure(NoSubscription)
    else
      exists k :: && 0 <= k < |subs| && Valid(subs[k], customer, now, commercial)
                  && (forall j :: 0 <= j < |subs| && Valid(subs[j], customer, now, commercial) ==>
                        subs[j].expiresAt <= subs[k].expiresAt)
                  && plan == if subs[k].plan in plans && plans[subs[k].plan].active then Success(plans[subs[k].plan])
                             else Failure(NoPlan)
  }

  lemma PlanIsTheLongest(
    plans: map<string, Plan>, subs: seq<Subscription>, customer: string, now: int, commercial: bool)
    ensures PlanFits(plans, subs, customer, now, commercial,
                     PlanOf(plans, Latest(subs, customer, now, commercial, |subs|)))
  {
    LatestIsActive(subs, customer, now, commercial, |subs|);
    var s := Latest(subs, customer, now, commercial, |subs|);
    forall k | 0 <= k < |subs| ensures Current(subs[k], customer, now, commercial) <==>
        Valid(subs[k], customer, now, commercial) {
    }
    if s.Some? {
      var k :| 0 <= k < |subs| && subs[k] == s.value;
      assert Valid(subs[k], customer, now, commercial);
    }
  }

  predicate ListAllows(list: AllowList, value: string) {
    list.Everything? || exists i :: 0 <= i < |list.values| && SameText(list.values[i], value)
  }

  lemma AllowsIsSameText(list: AllowList, value: string)
    ensures Allows(list, value) <==> ListAllows(list, value)
  {
    if list.Only? {
      forall i | 0 <= i < |list.values| ensures EqualFold(list.values[i], value) <==> SameText(list.values[i], value) {
        FoldingIsSameText(list.values[i], value);
      }
    }
  }

  /** Without an enforcer the legacy plan decides: too many active allocations, a country or a mode it does not list are
      refused, in this order. */
  lemma PermitWithoutEnforcer(st: Store, customer: string, country: string, mode: string, now: int)
    requires !st.enforced
    ensures var plan := PlanOf(st.legacyPlans, Latest(st.legacySubs, customer, now, false, |st.legacySubs|));
            var held := |set k | 0 <= k < |st.allocs| && st.allocs[k].status == Active &&
                                 st.allocs[k].customer == customer|;
            && PlanFits(st.legacyPlans, st.legacySubs, customer, now, false, plan)
            && Permit(st, customer, country, mode, now) ==
               if plan.Failure? then Some(plan.error)
               else if 0 < plan.value.maxProxies <= held then Some(LimitReached)
               else if country != "" && !ListAllows(plan.value.countries, country) then Some(CountryNotAllowed)
               else if mode != "" && !ListAllows(plan.value.modes, mode) then Some(ModeNotAllowed)
               else None
  {
    PlanIsTheLongest(st.legacyPlans, st.legacySubs, customer, now, false);
    var plan := PlanOf(st.legacyPlans, Latest(st.legacySubs, customer, now, false, |st.legacySubs|));
    HeldUpto(st.allocs, customer, |st.allocs|);
    if plan.Success? {
      AllowsIsSameText(plan.value.countries, country);
      AllowsIsSameText(plan.value.modes, mode);
    }
  }

  /** With one the commercial plan decides: number, country and traffic, in this order; where there is none the request
      is refused whatever the legacy plan says. */
  lemma PermitWithEnforcer(st: Store, customer: string, country: string, mode: string, now: int)
    requires st.enforced
    ensures var plan := PlanOf(st.plans, Latest(st.subs, customer, now, true, |st.subs|));
            var held := |set k | 0 <= k < |st.allocs| && st.allocs[k].status == Active &&
                                 st.allocs[k].customer == customer|;
            var refusal := Permit(st, customer, country, mode, now);
            && PlanFits(st.plans, st.subs, customer, now, true, plan)
            && (plan.Failure? ==> refusal == Some(NoSubscription) || refusal == Some(NoPlan))
            && (plan.Success? ==>
                  refusal ==
                  if 0 < plan.value.maxProxies <= held then Some(LimitReached)
                  else if country != "" && !ListAllows(plan.value.countries, country) then Some(CountryNotAllowed)
                  else if 0 < plan.value.bandwidthGB &&
                          Traffic(st.allocs, customer) >= plan.value.bandwidthGB * 1_073_741_824
                    then Some(BandwidthReached)
                  else None)
  {
    PlanIsTheLongest(st.plans, st.subs, customer, now, true);
    PlanIsTheLongest(st.legacyPlans, st.legacySubs, customer, now, false);
    var plan := PlanOf(st.plans, Latest(st.subs, customer, now, true, |st.subs|));
    HeldUpto(st.allocs, customer, |st.allocs|);
    UsageIsTraffic(st.allocs, customer);
    if plan.Success? {
      AllowsIsSameText(plan.value.countries, country);
    }
  }

  // ----- which proxy is allocated

  predicate StickyMode(mode: string) {
    mode == "sticky_30m" || mode == "sticky_6h" || mode == "sticky_24h"
  }

  /** What the router is asked for. */
  function Asked(customer: string, country: string, kind: string): Input {
    Input(customer, country, "", "", "", "", "", kind, ByWeight, "", "")
  }

  predicate Free(st: Store, id: string) {
    forall k :: 0 <= k < |st.allocs| ==> !(st.allocs[k].status == Active && st.allocs[k].proxy == id)
  }

  /** A proxy that will do when the router has none: free, not in error, of the kind asked for, and in the country or on
      an agent that is known and not offline. */
  predicate WillDo(st: Store, r: Request, p: Proxy) {
    && p.status != Errored && Free(st, p.id)
    && (r.kind != "" ==> p.kind == r.kind)
    && (r.country != "" ==> p.country == r.country || p.agent in st.online)
  }

  ghost predicate Routable(st: Store, r: Request, now: int, row: nat)
    requires row < |st.fleet.proxies|
  {
    st.routed && Usable(FleetNow(st), Asked(r.customer, r.country, r.kind), now, row)
  }

  lemma FreeIsUncounted(st: Store, id: string)
    ensures CountOf(st.allocs, OfProxy(id), |st.allocs|) == 0 <==> Free(st, id)
  {
    CountIsZero(st.allocs, OfProxy(id), |st.allocs|);
  }

  lemma FallbackFitsIsWillDo(st: Store, r: Request, p: Proxy)
    ensures FallbackFits(st, r, p) <==> WillDo(st, r, p)
  {
    FreeIsUncounted(st, p.id);
  }

  /** Session key and mode do not filter. */
  lemma UsableAsAsked(st: Store, r: Request, now: int, row: nat)
    requires row < |st.fleet.proxies|
    ensures Eligible(FleetNow(st), RoutingInput(r), now, CandidateAt(FleetNow(st), row, RoutingInput(r))) <==>
            Usable(FleetNow(st), Asked(r.customer, r.country, r.kind), now, row)
  {
    EligibleIsUsable(FleetNow(st), RoutingInput(r), now, row);
    EligibleIsUsable(FleetNow(st), Asked(r.customer, r.country, r.kind), now, row);
  }

  lemma SelectionFitsAsAsked(st: Store, r: Request, now: int)
    requires !StickyMode(r.mode)
    ensures var f, picked := FleetNow(st), Router.Picked(FleetNow(st), RoutingInput(r), now, st.routing);
            var asked := Asked(r.customer, r.country, r.kind);
            && (picked.Some? <==> exists k :: 0 <= k < |f.proxies| && Usable(f, asked, now, k))
            && (picked.Some? ==>
                  && picked.value.row < |f.proxies| && picked.value.proxy == f.proxies[picked.value.row]
                  && Usable(f, asked, now, picked.value.row)
                  && forall k :: 0 <= k < |f.proxies| && Usable(f, asked, now, k) ==>
                       NoBetter(f, asked, picked.value.row, k))
  {
    var f, input, asked := FleetNow(st), RoutingInput(r), Asked(r.customer, r.country, r.kind);
    SelectionFits(f, input, now, st.routing);
    forall k | 0 <= k < |f.proxies| ensures Usable(f, input, now, k) <==> Usable(f, asked, now, k) {
      EligibleIsUsable(f, input, now, k);
      UsableAsAsked(st, r, now, k);
    }
    var picked := Router.Picked(f, input, now, st.routing);
    if picked.Some? {
      assert Usable(f, asked, now, picked.value.row);
      forall k | 0 <= k < |f.proxies| && Usable(f, asked, now, k) ensures NoBetter(f, asked, picked.value.row, k) {
        assert NoBetter(f, input, picked.value.row, k);
      }
    }
  }

  lemma RoutedFits(st: Store, r: Request, now: int)
    requires !StickyMode(r.mode) && forall k :: 0 <= k < |st.fleet.proxies| ==> st.fleet.proxies[k].id != ""
    ensures var row := RoutedRow(st, r, now);
            && (row.Some? <==> exists k :: 0 <= k < |st.fleet.proxies| && Routable(st, r, now, k))
            && (row.Some? ==>
                  && row.value < |st.fleet.proxies| && Routable(st, r, now, row.value)
                  && forall k :: 0 <= k < |st.fleet.proxies| && Routable(st, r, now, k) ==>
                       NoBetter(FleetNow(st), Asked(r.customer, r.country, r.kind), row.value, k))
  {
    if st.routed {
      SelectionFitsAsAsked(st, r, now);
      forall k | 0 <= k < |st.fleet.proxies|
        ensures Routable(st, r, now, k) <==> Usable(FleetNow(st), Asked(r.customer, r.country, r.kind), now, k)
      {
      }
    }
  }

  /** A permitted request, not for a sticky mode, is served exactly when the router has a usable row of the kind and
      country asked for, or else some free proxy will do. It gets the router's best by score less load, or the free
      proxy updated last. */
  lemma AllocatedFits(st: Store, r: Request, now: int)
    requires !StickyMode(r.mode) && forall k :: 0 <= k < |st.fleet.proxies| ==> st.fleet.proxies[k].id != ""
    requires Permit(st, r.customer, r.country, r.mode, now).None?
    ensures var row, proxies := Allocated(st, r, now), st.fleet.proxies;
            var routable := exists k :: 0 <= k < |proxies| && Routable(st, r, now, k);
            && (row.Failure? <==> !routable && forall k :: 0 <= k < |proxies| ==> !WillDo(st, r, proxies[k]))
            && (row.Failure? ==> row == Failure(NoProxy))
            && (row.Success? ==> row.value < |proxies|)
            && (row.Success? && routable ==>
                  && Routable(st, r, now, row.value)
                  && forall k :: 0 <= k < |proxies| && Routable(st, r, now, k) ==>
                       NoBetter(FleetNow(st), Asked(r.customer, r.country, r.kind), row.value, k))
            && (row.Success? && !routable ==>
                  && WillDo(st, r, proxies[row.value])
                  && forall k :: 0 <= k < |proxies| && WillDo(st, r, proxies[k]) ==>
                       proxies[k].updatedAt <= proxies[row.value].updatedAt)
  {
    RoutedFits(st, r, now);
    FallbackIsMostRecent(st, r, |st.fleet.proxies|);
    forall k | 0 <= k < |st.fleet.proxies|
      ensures FallbackFits(st, r, st.fleet.proxies[k]) <==> WillDo(st, r, st.fleet.proxies[k])
    {
      FallbackFitsIsWillDo(st, r, st.fleet.proxies[k]);
    }
  }

  /** In particular the proxy allocated is not in error, is of the kind asked for, and in the country asked for
      unless it is a free one on an agent that is online. */
  lemma AllocatedIsAsAsked(st: Store, r: Request, now: int)
    requires !StickyMode(r.mode) && Allocated(st, r, now).Success?
    ensures var row := Allocated(st, r, now).value;
            && row < |st.fleet.proxies|
            && var p := st.fleet.proxies[row];
               && p.status != Errored && (r.kind != "" ==> p.kind == r.kind)
               && (r.country != "" && p.country != r.country ==> p.agent in st.online && Free(st, p.id))
  {
    AllocatedRowExists(st, r, now);
    var row := Allocated(st, r, now).value;
    if RoutedRow(st, r, now).Some? {
      Router.SelectionIsExact(FleetNow(st), RoutingInput(r), now, st.routing);
      UsableAsAsked(st, r, now, row);
    } else {
      FallbackFitsIsWillDo(st, r, st.fleet.proxies[row]);
    }
  }

  /** In a sticky mode the customer's live session for the country decides, as long as its proxy is there and alive.
      Without one the router's choice is remembered under the customer, its session key and the country. */
  lemma StickyAllocation(st: Store, r: Request, now: int)
    requires st.routed && StickyMode(r.mode) && r.customer != "" && Router.DistinctIds(st.fleet)
    requires forall k :: 0 <= k < |st.fleet.proxies| ==> st.fleet.proxies[k].id != ""
    requires Permit(st, r.customer, r.country, r.mode, now).None?
    ensures var key, sticky := Router.Key(r.customer, r.customer + ":" + r.country, r.country), st.routing.sticky;
            var found := Router.Newest(sticky, key, now, |sticky|);
            var row, after := Allocated(st, r, now), RoutingAfter(st, r, now).sticky;
            var serves := found.Some? && exists k ::
              0 <= k < |st.fleet.proxies| && st.fleet.proxies[k].id == found.value.proxy && Alive(FleetNow(st), k);
            && (serves ==>
                  && row.Success? && row.value < |st.fleet.proxies|
                  && st.fleet.proxies[row.value].id == found.value.proxy && after == sticky)
            && (!serves && RoutedRow(st, r, now).Some? ==>
                  && row.Success? && row.value < |st.fleet.proxies|
                  && forall s :: s in after <==>
                       || (s in sticky && s.key != key)
                       || s == Router.StickySession(key, st.fleet.proxies[row.value].id, r.mode,
                                                    now + Minutes(r.mode) * 60_000_000_000))
  {
    var f, input := FleetNow(st), RoutingInput(r);
    assert input.sessionKey[|r.customer|] == ':';
    SessionAnswers(f, input, now, st.routing);
    if Router.StickyHit(f, input, now, st.routing).None? {
      SessionIsSaved(f, input, now, st.routing);
      Router.SelectionIsExact(f, input, now, st.routing);
    }
  }

  /** What is stored: one active row for the customer on that proxy, without traffic, in its country or else the one
      asked for; the proxy's row is touched; nothing else but the router's own state changes. */
  lemma AllocationIsStored(st: Store, r: Request, id: string, now: int)
    ensures var row, after := Allocated(st, r, now), AfterAllocate(st, r, id, now);
            && (row.Failure? ==> after == st.(routing := after.routing))
            && (row.Success? ==>
                  && row.value < |st.fleet.proxies|
                  && var p := st.fleet.proxies[row.value];
                     after == st.(routing := after.routing,
                                  fleet := st.fleet.(proxies := st.fleet.proxies[row.value := p.(updatedAt := now)]),
                                  allocs := st.allocs +
                                    [Allocation(id, r.customer, p.id, Active, if r.mode == "" then "static" else r.mode,
                                                if p.country == "" then r.country else p.country, 0, 0)]))
  {
    AllocatedRowExists(st, r, now);
  }

  // ----- rotating

  /** Rotating moves the customer's allocation, and only it, to a row usable for its country that no other one but
      its own proxy beats; it is refused exactly when the customer has no allocation of that id or there is no such
      row. */
  lemma RotationFits(st: Store, customer: string, id: string, now: int, i: nat)
    requires DistinctAllocations(st.allocs) && i < |st.allocs|
    requires st.allocs[i].id == id && st.allocs[i].customer == customer
    ensures var a, c, proxies := st.allocs[i], Replacement(st, customer, id, now), st.fleet.proxies;
            var input := Asked(customer, a.country, "");
            && (c.Failure? <==>
                  forall k :: 0 <= k < |proxies| && Usable(FleetNow(st), input, now, k) ==> proxies[k].id == a.proxy)
            && (c.Failure? ==> c == Failure(NoProxy) && AfterRotation(st, customer, id, now) == st)
            && (c.Success? ==>
                  && c.value.row < |proxies| && proxies[c.value.row].id != a.proxy
                  && Usable(FleetNow(st), input, now, c.value.row)
                  && (forall k :: 0 <= k < |proxies| && Usable(FleetNow(st), input, now, k) ==>
                        proxies[k].id == a.proxy || NoBetter(FleetNow(st), input, c.value.row, k))
                  && AfterRotation(st, customer, id, now) ==
                     st.(allocs := st.allocs[i := a.(proxy := proxies[c.value.row].id)]))
  {
    var a, f := st.allocs[i], FleetNow(st);
    AllocationIsFound(st.allocs, i);
    ReplacementFits(f, a, customer, now);
    var c := Replacement(st, customer, id, now);
    if c.Success? {
      MovingIs(st.allocs, i, c.value.proxy.id);
    }
  }

  lemma ReplacementFits(f: Fleet, a: Allocation, customer: string, now: int)
    ensures var c := FirstOther(Ranked(f, RotationInput(a, customer), now), a.proxy, 0);
            var asked := Asked(customer, a.country, "");
            && (c.None? <==>
                  forall k :: 0 <= k < |f.proxies| && Usable(f, asked, now, k) ==> f.proxies[k].id == a.proxy)
            && (c.Some? ==>
                  && c.value.row < |f.proxies| && c.value.proxy == f.proxies[c.value.row] && c.value.proxy.id != a.proxy
                  && Usable(f, asked, now, c.value.row)
                  && (forall k :: 0 <= k < |f.proxies| && Usable(f, asked, now, k) ==>
                        f.proxies[k].id == a.proxy || NoBetter(f, asked, c.value.row, k)))
  {
    var input, asked := RotationInput(a, customer), Asked(customer, a.country, "");
    ReplacementIsBest(f, input, now, a.proxy);
    forall k | 0 <= k < |f.proxies|
      ensures Eligible(f, input, now, CandidateAt(f, k, input)) <==> Usable(f, asked, now, k)
    {
      EligibleIsUsable(f, input, now, k);
    }
    var c := FirstOther(Ranked(f, input, now), a.proxy, 0);
    if c.Some? {
      forall k | 0 <= k < |f.proxies| && Usable(f, asked, now, k) && f.proxies[k].id != a.proxy
        ensures NoBetter(f, asked, c.value.row, k)
      {
        assert AtLeastAsGood(ByWeight, CandidateAt(f, c.value.row, input), CandidateAt(f, k, input));
      }
    }
  }

  lemma AllocationIsFound(allocs: seq<Allocation>, i: nat)
    requires DistinctAllocations(allocs) && i < |allocs|
    ensures FindAllocation(allocs, allocs[i].customer, allocs[i].id, 0) == Some(i)
  {
    var found := FindAllocation(allocs, allocs[i].customer, allocs[i].id, 0);
    assert found.Some? && allocs[found.value].id == allocs[i].id;
  }

  lemma MovingIs(allocs: seq<Allocation>, i: nat, proxy: string)
    requires DistinctAllocations(allocs) && i < |allocs|
    ensures Moved(allocs, allocs[i].id, proxy) == allocs[i := allocs[i].(proxy := proxy)]
  {
  }

  lemma RotationOfNothing(st: Store, customer: string, id: string, now: int)
    requires forall k :: 0 <= k < |st.allocs| ==> st.allocs[k].id != id || st.allocs[k].customer != customer
    ensures Replacement(st, customer, id, now) == Failure(NoAllocation) && AfterRotation(st, customer, id, now) == st
  {
  }

  // ----- releasing, using, suspending

  /** A release deletes exactly the customer's allocation of that id. */
  lemma ReleaseIs(st: Store, customer: string, id: string, k: nat)
    requires k < |st.allocs|
    ensures var after := Do(st, Release(customer, id));
            && after == st.(allocs := after.allocs) && |after.allocs| == |st.allocs|
            && after.allocs[k] == if st.allocs[k].id == id && st.allocs[k].customer == customer
                                  then st.allocs[k].(status := Deleted) else st.allocs[k]
  {
  }

  /** Rotating anew is a release and then an allocation without a country, of any kind, in rotating mode. */
  lemma RotateProxyIs(st: Store, customer: string, id: string, newId: string, now: int)
    ensures Do(st, RotateProxy(customer, id, newId, now)) ==
            Do(Do(st, Release(customer, id)), Allocate(Request(customer, "", "rotating", ""), newId, now))
  {
  }

  /** Traffic is added to the customer's allocations of the proxy that are not released, active or not. */
  lemma TrafficIsRecorded(st: Store, customer: string, proxy: string, bytesIn: nat, bytesOut: nat, k: nat)
    requires k < |st.allocs|
    ensures var a, after := st.allocs[k], Do(st, RecordUsage(customer, proxy, bytesIn, bytesOut));
            && after == st.(allocs := after.allocs) && |after.allocs| == |st.allocs|
            && after.allocs[k] == if customer != "" && proxy != "" && a.customer == customer && a.proxy == proxy &&
                                     (a.status == Active || a.status == Suspended)
                                  then a.(bytesIn := a.bytesIn + bytesIn, bytesOut := a.bytesOut + bytesOut) else a
  {
  }

  /** SuspendProxy takes the allocation out of use whatever its status. */
  lemma SuspendProxyIs(st: Store, id: string, k: nat)
    requires k < |st.allocs|
    ensures var after := Do(st, SuspendProxy(id));
            && after == st.(allocs := after.allocs) && |after.allocs| == |st.allocs|
            && after.allocs[k] == if st.allocs[k].id == id then st.allocs[k].(status := Suspended) else st.allocs[k]
  {
  }

  // ----- billing

  /** After it the customer's active allocations are suspended, all others as they were. */
  predicate SuspendsAllOf(before: seq<Allocation>, after: seq<Allocation>, customer: string) {
    && |after| == |before|
    && forall k :: 0 <= k < |before| ==>
         after[k] == if before[k].customer == customer && before[k].status == Active
                     then before[k].(status := Suspended) else before[k]
  }

  /** Exactly the subscriptions of that id get the status. */
  predicate Relabels(before: seq<Subscription>, after: seq<Subscription>, id: string, status: string) {
    && |after| == |before|
    && forall k :: 0 <= k < |before| ==>
         after[k] == if before[k].id == id then before[k].(status := status) else before[k]
  }

  /** A subscription's status is stored if it is one of the five, and nothing is otherwise; suspended, expired and
      cancelled also suspend its customer's active allocations, and no other status touches an allocation. */
  lemma StatusIsStored(st: Store, id: string, status: string)
    ensures var after := Do(st, UpdateSubscriptionStatus(id, status));
            if status !in {"active", "pending", "suspended", "expired", "cancelled"} then after == st
            else
              && after == st.(subs := after.subs, allocs := after.allocs) && Relabels(st.subs, after.subs, id, status)
              && (status in {"active", "pending"} ==> after.allocs == st.allocs)
              && (status in {"suspended", "expired", "cancelled"} ==>
                    if forall k :: 0 <= k < |st.subs| ==> st.subs[k].id != id then after.allocs == st.allocs
                    else exists k :: 0 <= k < |st.subs| && st.subs[k].id == id &&
                                     SuspendsAllOf(st.allocs, after.allocs, st.subs[k].customer))
  {
    var row := FindSubscription(st.subs, id, 0);
    RelabellingIs(st.subs, id, status);
    if row.Some? {
      SuspendingIs(st.allocs, st.subs[row.value].customer);
    }
  }

  lemma RelabellingIs(subs: seq<Subscription>, id: string, status: string)
    ensures Relabels(subs, WithStatus(subs, id, status), id, status)
  {
  }

  lemma SuspendingIs(allocs: seq<Allocation>, customer: string)
    ensures SuspendsAllOf(allocs, SuspendedAll(allocs, customer), customer)
  {
  }

  /** Suspending a customer suspends it, all its subscriptions and its active allocations. */
  lemma SuspensionIsStored(st: Store, customer: string)
    ensures var after := Do(st, SuspendCustomer(customer));
            && after == st.(customers := after.customers, subs := after.subs, allocs := after.allocs)
            && after.customers == (if customer in st.customers then st.customers[customer := "suspended"]
                                   else st.customers)
            && |after.subs| == |st.subs|
            && (forall k :: 0 <= k < |st.subs| ==>
                  after.subs[k] == if st.subs[k].customer == customer then st.subs[k].(status := "suspended")
                                   else st.subs[k])
            && SuspendsAllOf(st.allocs, after.allocs, customer)
  {
  }

  /** Activating a customer changes its own status only. */
  lemma ActivationIsStored(st: Store, customer: string)
    ensures Do(st, ActivateCustomer(customer)) ==
            st.(customers := if customer in st.customers then st.customers[customer := "active"] else st.customers)
  {
  }

  /** A paid invoice is paid and its subscription, if it has one, active; an unknown one changes nothing. */
  lemma PaymentIsStored(st: Store, invoice: string)
    ensures var after := Do(st, MarkInvoicePaid(invoice));
            if invoice !in st.invoices then after == st
            else
              && after == st.(invoices := st.invoices[invoice := st.invoices[invoice].(status := "paid")],
                              subs := after.subs)
              && if st.invoices[invoice].subscription == "" then after.subs == st.subs
                 else Relabels(st.subs, after.subs, st.invoices[invoice].subscription, "active")
  {
  }

  /** A new subscription is pending for thirty days unless told otherwise; a legacy one is active, for thirty days if no
      number is given. */
  lemma SubscriptionIsStored(
    st: Store, id: string, customer: string, plan: string, days: int, status: string, now: int)
    ensures Do(st, CreateSubscription(id, customer, plan, days, status, now)) ==
            st.(subs := st.subs +
              [Subscription(id, customer, plan, if status == "" then "pending" else status, now,
                            now + (if days > 0 then days else 30) * 86_400_000_000_000)])
    ensures Do(st, ActivateSubscription(id, customer, plan, days, now)) ==
            st.(legacySubs := st.legacySubs +
              [Subscription(id, customer, plan, "active", now,
                            now + (if days != 0 then days else 30) * 86_400_000_000_000)])
  {
  }
}
