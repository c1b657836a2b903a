/** Which proxies pass a request's filters, and which of them the strategy picks. */
module Selection {
  import opened Wrappers
  import opened Quality

  datatype Proxy = Proxy(id: string, country: string, region: string, kind: string, status: ProxyStatus,
      agent: string, node: string, updatedAt: int)

  datatype Node = Node(provider: string, asn: string, isp: string)

  datatype Target = ToProxy | ToPool | ToAgent | ToOther

  datatype Reservation = Reservation(
    customer: string, target: Target, proxy: string, pool: string, agent: string, country: string,
    active: bool, startsAt: int, expiresAt: Option<int>, permanent: bool)

  /** The rows routing reads, the proxies in the order the table returns them. */
  datatype Fleet = Fleet(
    proxies: seq<Proxy>, offline: set<string>, nodes: map<string, Node>, pools: map<string, string>,
    metrics: map<string, seq<Metric>>, reservations: seq<Reservation>, loads: map<string, nat>)

  datatype Strategy = LowestLatency | LeastLoaded | RoundRobin | ByWeight | OtherStrategy

  datatype Input = Input(
    customer: string, country: string, region: string, targetRegion: string, provider: string, asn: string, isp: string,
    kind: string, strategy: Strategy, sessionKey: string, mode: string)

  /** `row` is the proxy's place in the table. */
  datatype Candidate = Candidate(row: nat, proxy: Proxy, pool: Option<string>, quality: Quality, node: Node,
      load: nat, weighted: int)

  // ----- one candidate

  function Load(f: Fleet, id: string): nat {
    if id in f.loads then f.loads[id] else 0
  }

  function HealthOf(f: Fleet, p: Proxy): Health {
    var recorded := if p.id in f.metrics then f.metrics[p.id] else [];
    Health(p.status, p.agent != "" && p.agent in f.offline, if |recorded| <= 20 then recorded else recorded[..20])
  }

  function CandidateAt(f: Fleet, row: nat, input: Input): Candidate
    requires row < |f.proxies|
  {
    var p := f.proxies[row];
    var country := if p.country != "" then p.country else if input.country != "" then input.country else "Unassigned";
    var h, load := HealthOf(f, p), Load(f, p.id);
    Candidate(row, p, if country in f.pools then Some(f.pools[country]) else None,
              Quality(Score(h, load), GradeOf(Score(h, load)), Latency(h.metrics), Failures(h.metrics, |h.metrics|)),
              if p.node in f.nodes then f.nodes[p.node] else Node("", "", ""),
              load, Weighted(h, load))
  }

  // ----- filters

  function LowerChar(c: char): char {
    if 'A' <= c <= 'Z' then c - 'A' + 'a' else c
  }

  function Lower(s: string): string {
    seq(|s|, i requires 0 <= i < |s| => LowerChar(s[i]))
  }

  predicate EqualFold(a: string, b: string) {
    Lower(a) == Lower(b)
  }

  predicate Contains(s: string, part: string) {
    exists i :: 0 <= i <= |s| && part <= s[i..]
  }

  predicate InForce(r: Reservation, customer: string, now: int) {
    && r.active && r.startsAt <= now
    && (r.permanent || r.expiresAt.None? || r.expiresAt.value > now)
    && (customer == "" || r.customer == customer)
  }

  predicate Grants(r: Reservation, p: Proxy, pool: Option<string>) {
    match r.target
    case ToProxy => r.proxy == p.id
    case ToPool => Some(r.pool) == pool || EqualFold(r.country, p.country)
    case ToAgent => r.agent == p.agent
    case ToOther => false
  }

  /** A customer with reservations in force is held to what they grant; one without may use everything. */
  predicate ReservationAllows(f: Fleet, input: Input, now: int, c: Candidate) {
    || (forall r :: r in f.reservations ==> !InForce(r, input.customer, now))
    || (exists r :: r in f.reservations && InForce(r, input.customer, now) && Grants(r, c.proxy, c.pool))
  }

  predicate Eligible(f: Fleet, input: Input, now: int, c: Candidate) {
    var region := if input.region == "" then input.targetRegion else input.region;
    && c.proxy.status != Errored
    && (input.kind == "" || c.proxy.kind == input.kind)
    && (input.country == "" || c.proxy.country == input.country)
    && (region == "" || c.proxy.region == region)
    && ReservationAllows(f, input, now, c)
    && (input.provider == "" || EqualFold(c.node.provider, input.provider))
    && (input.asn == "" || EqualFold(c.node.asn, input.asn))
    && (input.isp == "" || Contains(Lower(c.node.isp), Lower(input.isp)))
    && c.quality.grade != Dead && c.proxy.agent !in f.offline
  }

  /** The eligible candidates among the first n rows, in table order. */
  function EligibleUpto(f: Fleet, input: Input, now: int, n: nat): seq<Candidate>
    requires n <= |f.proxies|
  {
    if n == 0 then []
    else
      var c := CandidateAt(f, n - 1, input);
      if Eligible(f, input, now, c) then EligibleUpto(f, input, now, n - 1) + [c]
          else EligibleUpto(f, input, now, n - 1)
  }

  lemma {:induction false} EligibleMembers(f: Fleet, input: Input, now: int, n: nat, c: Candidate)
    requires n <= |f.proxies|
    ensures c in EligibleUpto(f, input, now, n) <==>
            c.row < n && c == CandidateAt(f, c.row, input) && Eligible(f, input, now, c)
  {
    if n > 0 {
      EligibleMembers(f, input, now, n - 1, c);
    }
  }

  // ----- stable sorting

  datatype Order = WeightThenLatency | Weight | LatencyOnly | LoadOnly

  /** The comparison functions handed to the sort. */
  predicate Less(o: Order, x: Candidate, y: Candidate) {
    match o
    case WeightThenLatency =>
      if x.weighted == y.weighted then x.quality.latencyMs < y.quality.latencyMs else x.weighted > y.weighted
    case Weight => x.weighted > y.weighted
    case LatencyOnly => x.quality.latencyMs < y.quality.latencyMs
    case LoadOnly => x.load < y.load
  }

  function Insert(x: Candidate, ys: seq<Candidate>, o: Order): (r: seq<Candidate>)
    ensures |r| == |ys| + 1
  {
    if ys == [] then [x]
    else if Less(o, ys[0], x) then [ys[0]] + Insert(x, ys[1..], o)
    else [x] + ys
  }

  /** A stable sort: each element goes in front of the later ones it is not greater than. */
  function StableSort(s: seq<Candidate>, o: Order): (r: seq<Candidate>)
    ensures |r| == |s|
  {
    if s == [] then [] else Insert(s[0], StableSort(s[1..], o), o)
  }

  /** Before by the first order, then by the next, and at last by table row. */
  predicate Before(orders: seq<Order>, x: Candidate, y: Candidate) {
    if orders == [] then x.row < y.row
    else Less(orders[0], x, y) || (!Less(orders[0], y, x) && Before(orders[1..], x, y))
  }

  ghost predicate SortedBy(orders: seq<Order>, s: seq<Candidate>) {
    forall i, j :: 0 <= i < j < |s| ==> Before(orders, s[i], s[j])
  }

  lemma {:induction false} InsertKeeps(x: Candidate, ys: seq<Candidate>, o: Order, orders: seq<Order>)
    requires SortedBy([o] + orders, ys) && forall y :: y in ys ==> Before(orders, x, y)
    ensures SortedBy([o] + orders, Insert(x, ys, o))
    ensures multiset(Insert(x, ys, o)) == multiset(ys) + multiset{x}
    decreases |ys|
  {
    assert ([o] + orders)[1..] == orders;
    if ys != [] && Less(o, ys[0], x) {
      InsertKeeps(x, ys[1..], o, orders);
      var rest := Insert(x, ys[1..], o);
      assert ys == [ys[0]] + ys[1..];
      forall j | 0 <= j < |rest| ensures Before([o] + orders, ys[0], rest[j]) {
        assert rest[j] in multiset(rest);
        if rest[j] != x {
          assert rest[j] in ys[1..];
          var k :| 0 <= k < |ys[1..]| && ys[1..][k] == rest[j];
          assert ys[k + 1] == rest[j];
        }
      }
    } else if ys != [] {
      GoesFirst(x, ys, o, orders);
    }
  }

  lemma {:induction false} GoesFirst(x: Candidate, ys: seq<Candidate>, o: Order, orders: seq<Order>)
    requires SortedBy([o] + orders, ys) && ys != [] && !Less(o, ys[0], x)
    requires forall y :: y in ys ==> Before(orders, x, y)
    ensures SortedBy([o] + orders, [x] + ys)
  {
    assert ([o] + orders)[1..] == orders;
    forall j | 0 <= j < |ys| ensures Before([o] + orders, x, ys[j]) {
      assert ys[j] in ys;
      assert j > 0 ==> Before([o] + orders, ys[0], ys[j]);
    }
  }

  /** Sorting a list stably by one order keeps its earlier order among equals. */
  lemma {:induction false} SortRefines(s: seq<Candidate>, o: Order, orders: seq<Order>)
    requires SortedBy(orders, s)
    ensures SortedBy([o] + orders, StableSort(s, o)) && multiset(StableSort(s, o)) == multiset(s)
    decreases |s|
  {
    if s != [] {
      assert SortedBy(orders, s[1..]);
      SortRefines(s[1..], o, orders);
      assert s == [s[0]] + s[1..];
      forall y | y in StableSort(s[1..], o) ensures Before(orders, s[0], y) {
        assert y in multiset(StableSort(s[1..], o));
        var k :| 0 <= k < |s[1..]| && s[1..][k] == y;
        assert s[k + 1] == y;
      }
      InsertKeeps(s[0], StableSort(s[1..], o), o, orders);
    }
  }

  // ----- what the strategy picks

  /** What `candidates` returns: the eligible proxies, best weighted score first, then lowest latency. */
  function Ranked(f: Fleet, input: Input, now: int): seq<Candidate> {
    StableSort(EligibleUpto(f, input, now, |f.proxies|), WeightThenLatency)
  }

  function Resort(strategy: Strategy, ranked: seq<Candidate>): (r: seq<Candidate>)
    ensures |r| == |ranked|
  {
    match strategy
    case LowestLatency => StableSort(ranked, LatencyOnly)
    case LeastLoaded => StableSort(ranked, LoadOnly)
    case RoundRobin => ranked
    case ByWeight => StableSort(ranked, Weight)
    case OtherStrategy => ranked
  }

  /** x is at least as good as y: the strategy's own criterion first, then the tie-breaks, at last the table row. */
  predicate AtLeastAsGood(strategy: Strategy, x: Candidate, y: Candidate) {
    match strategy
    case LowestLatency =>
      || x.quality.latencyMs < y.quality.latencyMs
      || (x.quality.latencyMs == y.quality.latencyMs &&
          (x.weighted > y.weighted || (x.weighted == y.weighted && x.row <= y.row)))
    case LeastLoaded =>
      || x.load < y.load
      || (x.load == y.load &&
          (x.weighted > y.weighted ||
           (x.weighted == y.weighted &&
            (x.quality.latencyMs < y.quality.latencyMs ||
                (x.quality.latencyMs == y.quality.latencyMs && x.row <= y.row)))))
    case _ =>
      || x.weighted > y.weighted
      || (x.weighted == y.weighted &&
          (x.quality.latencyMs < y.quality.latencyMs || (x.quality.latencyMs == y.quality.latencyMs && x.row <= y.row)))
  }

  lemma {:induction false} EligibleInTableOrder(f: Fleet, input: Input, now: int, n: nat)
    requires n <= |f.proxies|
    ensures SortedBy([], EligibleUpto(f, input, now, n))
  {
    if n > 0 {
      EligibleInTableOrder(f, input, now, n - 1);
      forall c | c in EligibleUpto(f, input, now, n - 1) ensures c.row < n - 1 {
        EligibleMembers(f, input, now, n - 1, c);
      }
    }
  }

  lemma SamePlaces(s: seq<Candidate>, t: seq<Candidate>)
    requires multiset(s) == multiset(t)
    ensures |s| == |t| && forall c :: c in s <==> c in t
  {
    assert |multiset(s)| == |s| && |multiset(t)| == |t|;
    forall c ensures c in s <==> c in t {
      assert c in s <==> c in multiset(s);
      assert c in t <==> c in multiset(t);
    }
  }

  lemma RankedIsSorted(f: Fleet, input: Input, now: int)
    ensures SortedBy([WeightThenLatency], Ranked(f, input, now))
    ensures multiset(Ranked(f, input, now)) == multiset(EligibleUpto(f, input, now, |f.proxies|))
  {
    EligibleInTableOrder(f, input, now, |f.proxies|);
    SortRefines(EligibleUpto(f, input, now, |f.proxies|), WeightThenLatency, []);
    assert [WeightThenLatency] + [] == [WeightThenLatency];
  }

  /** The two sorts in a row order the eligible candidates by the strategy, then by weight and latency, then by row. */
  lemma ResortIsLexicographic(f: Fleet, input: Input, now: int)
    ensures var s := Resort(input.strategy, Ranked(f, input, now));
            && SortedBy(OrdersOf(input.strategy), s)
            && multiset(s) == multiset(EligibleUpto(f, input, now, |f.proxies|))
  {
    RankedIsSorted(f, input, now);
    var ranked := Ranked(f, input, now);
    match input.strategy
    case LowestLatency => SortRefines(ranked, LatencyOnly, [WeightThenLatency]);
    case LeastLoaded => SortRefines(ranked, LoadOnly, [WeightThenLatency]);
    case ByWeight => SortRefines(ranked, Weight, [WeightThenLatency]);
    case _ =>
  }

  function OrdersOf(strategy: Strategy): seq<Order> {
    match strategy
    case LowestLatency => [LatencyOnly] + [WeightThenLatency]
    case LeastLoaded => [LoadOnly] + [WeightThenLatency]
    case ByWeight => [Weight] + [WeightThenLatency]
    case _ => [WeightThenLatency]
  }

  lemma TieBreakMeans(x: Candidate, y: Candidate)
    ensures Before([WeightThenLatency], x, y) <==>
            || x.weighted > y.weighted
            || (x.weighted == y.weighted &&
                (x.quality.latencyMs < y.quality.latencyMs ||
                    (x.quality.latencyMs == y.quality.latencyMs && x.row < y.row)))
  {
    var orders := [WeightThenLatency];
    assert orders[0] == WeightThenLatency && orders[1..] == [];
  }

  lemma BeforeMeans(strategy: Strategy, x: Candidate, y: Candidate)
    requires Before(OrdersOf(strategy), x, y) || x == y
    ensures AtLeastAsGood(strategy, x, y)
  {
    if x != y {
      TieBreakMeans(x, y);
      var orders := OrdersOf(strategy);
      if |orders| == 2 {
        assert orders[1..] == [WeightThenLatency];
      }
    }
  }

  /** There is nothing to choose from exactly when no row passes every filter; otherwise the first element is
      eligible and at least as good as every eligible candidate. */
  lemma FirstIsBest(f: Fleet, input: Input, now: int)
    ensures var s := Resort(input.strategy, Ranked(f, input, now));
            && (s == [] <==> forall row :: 0 <= row < |f.proxies| ==>
                !Eligible(f, input, now, CandidateAt(f, row, input)))
            && (s != [] ==>
                  && s[0].row < |f.proxies| && s[0] == CandidateAt(f, s[0].row, input) && Eligible(f, input, now, s[0])
                  && forall row :: 0 <= row < |f.proxies| && Eligible(f, input, now, CandidateAt(f, row, input)) ==>
                       AtLeastAsGood(input.strategy, s[0], CandidateAt(f, row, input)))
  {
    var s := Resort(input.strategy, Ranked(f, input, now));
    var all := EligibleUpto(f, input, now, |f.proxies|);
    ResortIsLexicographic(f, input, now);
    SamePlaces(s, all);
    forall row | 0 <= row < |f.proxies| && Eligible(f, input, now, CandidateAt(f, row, input))
      ensures s != [] && AtLeastAsGood(input.strategy, s[0], CandidateAt(f, row, input))
    {
      var c := CandidateAt(f, row, input);
      EligibleMembers(f, input, now, |f.proxies|, c);
      assert c in s;
      var i :| 0 <= i < |s| && s[i] == c;
      BeforeMeans(input.strategy, s[0], s[i]);
    }
    if s != [] {
      assert s[0] in s;
      EligibleMembers(f, input, now, |f.proxies|, s[0]);
    }
  }
}
