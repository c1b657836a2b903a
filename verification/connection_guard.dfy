/** The connection counters: GuardConnection checks the limits under one lock and counts under another, and
    each admitted connection is released once. */
module ConnectionGuard {
  import opened Counting

  datatype Call = Call(customer: string, proxy: string, live: bool)

  /** `calls` holds the guard calls that passed the check and, once counted, the live connections. */
  datatype Counters = Counters(byCustomer: map<string, int>, byProxy: map<string, int>, calls: map<nat, Call>)

  function Of(m: map<string, int>, key: string): int {
    if key in m then m[key] else 0
  }

  /** A limit of zero or less means no limit. */
  predicate Passes(s: Counters, customer: string, proxy: string, limit: int, maxPerProxy: int) {
    && !(limit > 0 && Of(s.byCustomer, customer) >= limit)
    && !(maxPerProxy > 0 && Of(s.byProxy, proxy) >= maxPerProxy)
  }

  datatype Step =
    | Check(id: nat, customer: string, proxy: string, limit: int, maxPerProxy: int)
    | Admit(id: nat)
    | Release(id: nat)

  predicate Enabled(s: Counters, step: Step) {
    match step
    case Check(id, customer, _, _, _) => id !in s.calls && customer != ""
    case Admit(id) => id in s.calls && !s.calls[id].live
    case Release(id) => id in s.calls && s.calls[id].live
  }

  function Lowered(m: map<string, int>, key: string): map<string, int> {
    if Of(m, key) > 0 then m[key := Of(m, key) - 1] else m
  }

  function Apply(s: Counters, step: Step): Counters
    requires Enabled(s, step)
  {
    match step
    case Check(id, customer, proxy, limit, maxPerProxy) =>
      if Passes(s, customer, proxy, limit, maxPerProxy) then s.(calls := s.calls[id := Call(customer, proxy, false)])
          else s
    case Admit(id) =>
      var c := s.calls[id];
      Counters(s.byCustomer[c.customer := Of(s.byCustomer, c.customer) + 1],
               s.byProxy[c.proxy := Of(s.byProxy, c.proxy) + 1], s.calls[id := c.(live := true)])
    case Release(id) =>
      var c := s.calls[id];
      Counters(Lowered(s.byCustomer, c.customer), Lowered(s.byProxy, c.proxy), s.calls - {id})
  }

  const NO_CALLS := Counters(map[], map[], map[])

  ghost function LiveCustomers(s: Counters): map<nat, string> {
    map i | i in s.calls && s.calls[i].live :: s.calls[i].customer
  }

  ghost function LiveProxies(s: Counters): map<nat, string> {
    map i | i in s.calls && s.calls[i].live :: s.calls[i].proxy
  }

  /** Whose connections a limit is about. */
  datatype Owner = Customer(name: string) | Proxy(name: string)

  predicate Owns(owner: Owner, customer: string, proxy: string) {
    match owner
    case Customer(name) => customer == name
    case Proxy(name) => proxy == name
  }

  function Counter(s: Counters, owner: Owner): int {
    match owner
    case Customer(name) => Of(s.byCustomer, name)
    case Proxy(name) => Of(s.byProxy, name)
  }

  /** The guard calls of the owner that have passed the check and are not counted yet. */
  ghost function InFlight(s: Counters, owner: Owner): set<nat> {
    set i | i in s.calls && !s.calls[i].live && Owns(owner, s.calls[i].customer, s.calls[i].proxy)
  }

  /** Each counter is the number of live connections. */
  ghost predicate Exact(s: Counters) {
    && (forall c :: Of(s.byCustomer, c) == Count(LiveCustomers(s), c))
    && (forall p :: Of(s.byProxy, p) == Count(LiveProxies(s), p))
  }

  lemma AdmitKeepsExact(s: Counters, id: nat)
    requires Exact(s) && id in s.calls && !s.calls[id].live
    ensures Exact(Apply(s, Admit(id)))
  {
    var s1, c := Apply(s, Admit(id)), s.calls[id];
    assert LiveCustomers(s1) == LiveCustomers(s)[id := c.customer];
    assert LiveProxies(s1) == LiveProxies(s)[id := c.proxy];
    forall k ensures Of(s1.byCustomer, k) == Count(LiveCustomers(s1), k) {
      CountAdd(LiveCustomers(s), id, c.customer, k);
    }
    forall k ensures Of(s1.byProxy, k) == Count(LiveProxies(s1), k) {
      CountAdd(LiveProxies(s), id, c.proxy, k);
    }
  }

  lemma ReleaseKeepsExact(s: Counters, id: nat)
    requires Exact(s) && id in s.calls && s.calls[id].live
    ensures Exact(Apply(s, Release(id)))
  {
    var s1, c := Apply(s, Release(id)), s.calls[id];
    assert LiveCustomers(s1) == LiveCustomers(s) - {id};
    assert LiveProxies(s1) == LiveProxies(s) - {id};
    assert id in Having(LiveCustomers(s), c.customer) && id in Having(LiveProxies(s), c.proxy);
    forall k ensures Of(s1.byCustomer, k) == Count(LiveCustomers(s1), k) {
      CountRemove(LiveCustomers(s), id, k);
    }
    forall k ensures Of(s1.byProxy, k) == Count(LiveProxies(s1), k) {
      CountRemove(LiveProxies(s), id, k);
    }
  }

  lemma StepKeepsExact(s: Counters, step: Step)
    requires Exact(s) && Enabled(s, step)
    ensures Exact(Apply(s, step))
  {
    match step
    case Check(id, _, _, _, _) =>
      var s1 := Apply(s, step);
      assert LiveCustomers(s1) == LiveCustomers(s) && LiveProxies(s1) == LiveProxies(s);
    case Admit(id) => AdmitKeepsExact(s, id);
    case Release(id) => ReleaseKeepsExact(s, id);
  }

  // ----- runs

  predicate Runs(s: Counters, steps: seq<Step>)
    decreases |steps|
  {
    steps == [] || (Enabled(s, steps[0]) && Runs(Apply(s, steps[0]), steps[1..]))
  }

  function After(s: Counters, steps: seq<Step>): Counters
    requires Runs(s, steps)
    decreases |steps|
  {
    if steps == [] then s else After(Apply(s, steps[0]), steps[1..])
  }

  lemma {:induction false} RunKeepsExact(s: Counters, steps: seq<Step>)
    requires Exact(s) && Runs(s, steps)
    ensures Exact(After(s, steps))
    decreases |steps|
  {
    if steps != [] {
      StepKeepsExact(s, steps[0]);
      RunKeepsExact(Apply(s, steps[0]), steps[1..]);
    }
  }

  ghost function Total(m: map<string, int>): int {
    SumOver(m.Keys, m)
  }

  lemma TotalIsLive(m: map<string, int>, owners: map<nat, string>)
    requires forall k :: Of(m, k) == Count(owners, k)
    ensures Total(m) == |owners|
  {
    forall k | k in m ensures m[k] == Count(owners, k) {
      assert Of(m, k) == Count(owners, k);
    }
    SumIsTotal(owners, m.Keys, m);
    forall i | i in owners ensures owners[i] in m {
      assert i in Having(owners, owners[i]);
      assert Of(m, owners[i]) == Count(owners, owners[i]) > 0;
    }
    HavingAnyIsAll(owners, m.Keys);
  }

  /** After any interleaving the counters are the live connections, by customer and by proxy, and the two
      kinds of counters add up to the same total. */
  lemma CountersAreLiveConnections(steps: seq<Step>)
    requires Runs(NO_CALLS, steps)
    ensures var s := After(NO_CALLS, steps);
            && (forall c :: Of(s.byCustomer, c) ==
                            |set i | i in s.calls && s.calls[i].live && s.calls[i].customer == c|)
            && (forall p :: Of(s.byProxy, p) == |set i | i in s.calls && s.calls[i].live && s.calls[i].proxy == p|)
            && Total(s.byCustomer) == Total(s.byProxy) == |set i | i in s.calls && s.calls[i].live|
  {
    assert LiveCustomers(NO_CALLS) == map[] && LiveProxies(NO_CALLS) == map[];
    RunKeepsExact(NO_CALLS, steps);
    var s := After(NO_CALLS, steps);
    forall c ensures Having(LiveCustomers(s), c) == set i | i in s.calls && s.calls[i].live &&
        s.calls[i].customer == c {}
    forall p ensures Having(LiveProxies(s), p) == set i | i in s.calls && s.calls[i].live && s.calls[i].proxy == p {}
    TotalIsLive(s.byCustomer, LiveCustomers(s));
    TotalIsLive(s.byProxy, LiveProxies(s));
    assert LiveCustomers(s).Keys == LiveProxies(s).Keys == set i | i in s.calls && s.calls[i].live;
  }

  // ----- the limit

  /** The step checks a call of the owner. */
  predicate Checks(step: Step, owner: Owner) {
    step.Check? && Owns(owner, step.customer, step.proxy)
  }

  function LimitFor(step: Step, owner: Owner): int
    requires step.Check?
  {
    if owner.Customer? then step.limit else step.maxPerProxy
  }

  /** Every check of the owner uses this limit. */
  predicate LimitIs(steps: seq<Step>, owner: Owner, limit: int) {
    forall i :: 0 <= i < |steps| && Checks(steps[i], owner) ==> LimitFor(steps[i], owner) == limit
  }

  /** At every moment of the run at most k guard calls of the owner are between check and count. */
  ghost predicate AtMostInFlight(s: Counters, steps: seq<Step>, owner: Owner, k: nat)
    requires Runs(s, steps)
    decreases |steps|
  {
    |InFlight(s, owner)| <= k && (steps == [] || AtMostInFlight(Apply(s, steps[0]), steps[1..], owner, k))
  }

  /** Admitting a call moves one unit from in flight to counted. */
  lemma AdmitMovesOne(s: Counters, id: nat, owner: Owner)
    requires id in s.calls && !s.calls[id].live
    ensures |InFlight(Apply(s, Admit(id)), owner)| ==
            |InFlight(s, owner)| - if Owns(owner, s.calls[id].customer, s.calls[id].proxy) then 1 else 0
  {
    var s1 := Apply(s, Admit(id));
    if Owns(owner, s.calls[id].customer, s.calls[id].proxy) {
      assert InFlight(s1, owner) == InFlight(s, owner) - {id};
    } else {
      assert InFlight(s1, owner) == InFlight(s, owner);
    }
  }

  lemma StepKeepsRoom(s: Counters, step: Step, owner: Owner, limit: int, k: nat)
    requires Exact(s) && Enabled(s, step) && limit > 0
    requires Checks(step, owner) ==> LimitFor(step, owner) == limit
    requires Counter(s, owner) + |InFlight(s, owner)| <= limit - 1 + k
    requires |InFlight(Apply(s, step), owner)| <= k
    ensures Counter(Apply(s, step), owner) + |InFlight(Apply(s, step), owner)| <= limit - 1 + k
  {
    match step
    case Check(id, _, _, _, _) =>
      if !Checks(step, owner) {
        assert InFlight(Apply(s, step), owner) == InFlight(s, owner);
      }
    case Admit(id) =>
      AdmitMovesOne(s, id, owner);
    case Release(id) =>
      assert InFlight(Apply(s, step), owner) == InFlight(s, owner);
      assert Counter(Apply(s, step), owner) <= Counter(s, owner);
  }

  lemma LaterLimitIs(steps: seq<Step>, owner: Owner, limit: int)
    requires steps != [] && LimitIs(steps, owner, limit)
    ensures LimitIs(steps[1..], owner, limit)
  {
    forall i | 0 <= i < |steps[1..]| && Checks(steps[1..][i], owner) ensures LimitFor(steps[1..][i], owner) == limit {
      assert steps[1..][i] == steps[i + 1];
    }
  }

  lemma {:induction false} RunKeepsRoom(s: Counters, steps: seq<Step>, owner: Owner, limit: int, k: nat)
    requires Exact(s) && Runs(s, steps) && limit > 0 && LimitIs(steps, owner, limit)
    requires AtMostInFlight(s, steps, owner, k)
    requires Counter(s, owner) + |InFlight(s, owner)| <= limit - 1 + k
    ensures Counter(After(s, steps), owner) <= limit - 1 + k
    decreases |steps|
  {
    if steps != [] {
      StepKeepsExact(s, steps[0]);
      StepKeepsRoom(s, steps[0], owner, limit, k);
      LaterLimitIs(steps, owner, limit);
      RunKeepsRoom(Apply(s, steps[0]), steps[1..], owner, limit, k);
    }
  }

  /** With at most k of the guard calls of a customer, or of a proxy, in flight at once, its connections never
      exceed its limit - 1 + k; one caller at a time never exceeds the limit. */
  lemma LimitHoldsUpToRaces(steps: seq<Step>, owner: Owner, limit: int, k: nat)
    requires Runs(NO_CALLS, steps) && limit > 0 && LimitIs(steps, owner, limit)
    requires AtMostInFlight(NO_CALLS, steps, owner, k)
    ensures Counter(After(NO_CALLS, steps), owner) <= limit - 1 + k
  {
    assert LiveCustomers(NO_CALLS) == map[] && LiveProxies(NO_CALLS) == map[];
    assert InFlight(NO_CALLS, owner) == {};
    RunKeepsRoom(NO_CALLS, steps, owner, limit, k);
  }

  /** A call passes exactly when neither the customer nor the proxy has as many live connections as a limit of theirs
      allows; a limit of zero or less allows any number. */
  lemma PassesExactly(s: Counters, customer: string, proxy: string, limit: int, maxPerProxy: int)
    requires Exact(s)
    ensures Passes(s, customer, proxy, limit, maxPerProxy) <==>
            && (limit <= 0 || |set i | i in s.calls && s.calls[i].live && s.calls[i].customer == customer| < limit)
            && (maxPerProxy <= 0 ||
                |set i | i in s.calls && s.calls[i].live && s.calls[i].proxy == proxy| < maxPerProxy)
  {
    assert Having(LiveCustomers(s), customer) ==
           set i | i in s.calls && s.calls[i].live && s.calls[i].customer == customer;
    assert Having(LiveProxies(s), proxy) == set i | i in s.calls && s.calls[i].live && s.calls[i].proxy == proxy;
  }

  // ----- the service's counters

  class Guard {
    var activeCustomer: map<string, int>
    var activeProxy: map<string, int>
    ghost var calls: map<nat, Call>

    ghost function View(): Counters
      reads this
    {
      Counters(activeCustomer, activeProxy, calls)
    }

    constructor ()
      ensures View() == NO_CALLS && Exact(View())
    {
      activeCustomer, activeProxy, calls := map[], map[], map[];
      new;
      assert LiveCustomers(View()) == map[] && LiveProxies(View()) == map[];
    }

    /** checkConnectionLimits, up to the release of the first lock. */
    method CheckConnectionLimits(ghost id: nat, customer: string, proxy: string, limit: int, maxPerProxy: int)
      returns (ok: bool)
      requires id !in calls && customer != ""
      modifies this`calls
      ensures ok <==> Passes(old(View()), customer, proxy, limit, maxPerProxy)
      ensures View() == Apply(old(View()), Check(id, customer, proxy, limit, maxPerProxy))
    {
      var customerActive := if customer in activeCustomer then activeCustomer[customer] else 0;
      var proxyActive := if proxy in activeProxy then activeProxy[proxy] else 0;
      if limit > 0 && customerActive >= limit {
        return false;
      }
      if maxPerProxy > 0 && proxyActive >= maxPerProxy {
        return false;
      }
      calls := calls[id := Call(customer, proxy, false)];
      ok := true;
    }

    /** The second half of GuardConnection. */
    method CountConnection(ghost id: nat, customer: string, proxy: string)
      requires id in calls && calls[id] == Call(customer, proxy, false)
      modifies this
      ensures View() == Apply(old(View()), Admit(id))
    {
      activeCustomer := activeCustomer[customer :=
          (if customer in activeCustomer then activeCustomer[customer] else 0) + 1];
      activeProxy := activeProxy[proxy := (if proxy in activeProxy then activeProxy[proxy] else 0) + 1];
      calls := calls[id := Call(customer, proxy, true)];
    }

    /** The function GuardConnection hands back. */
    method ReleaseConnection(ghost id: nat, customer: string, proxy: string)
      requires id in calls && calls[id] == Call(customer, proxy, true)
      modifies this
      ensures View() == Apply(old(View()), Release(id))
    {
      if customer in activeCustomer && activeCustomer[customer] > 0 {
        activeCustomer := activeCustomer[customer := activeCustomer[customer] - 1];
      }
      if proxy in activeProxy && activeProxy[proxy] > 0 {
        activeProxy := activeProxy[proxy := activeProxy[proxy] - 1];
      }
      calls := calls - {id};
    }
  }
}
