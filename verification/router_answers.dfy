/** What a selection returns and what a proxy's score is made of, said of the rows, the request and the clock alone. */
module RouterAnswers {
  import opened Wrappers
  import opened Quality
  import opened Selection
  import opened Router

  // ----- the score

  function PositiveSum(metrics: seq<Metric>): nat {
    if metrics == [] then 0
    else (if metrics[0].latencyMs > 0 then metrics[0].latencyMs else 0) + PositiveSum(metrics[1..])
  }

  lemma {:induction false} SumFromTheFront(metrics: seq<Metric>, n: nat)
    requires n <= |metrics|
    ensures TotalLatency(metrics, n) + PositiveSum(metrics[n..]) == PositiveSum(metrics)
  {
    if n > 0 {
      SumFromTheFront(metrics, n - 1);
      assert metrics[n - 1..][1..] == metrics[n..];
    } else {
      assert metrics[0..] == metrics;
    }
  }

  lemma {:induction false} FailuresAreCounted(metrics: seq<Metric>, n: nat)
    requires n <= |metrics|
    ensures Failures(metrics, n) ==
            |set i | 0 <= i < n && metrics[i].status != "online" && metrics[i].status != "healthy"|
  {
    if n > 0 {
      FailuresAreCounted(metrics, n - 1);
      var before := set i | 0 <= i < n - 1 && metrics[i].status != "online" && metrics[i].status != "healthy";
      var after := set i | 0 <= i < n && metrics[i].status != "online" && metrics[i].status != "healthy";
      assert after == if metrics[n - 1].status != "online" && metrics[n - 1].status != "healthy" then before + {n - 1}
                      else before;
    }
  }

  /** Latency is the average of the positive latencies over all metrics, rounded down, and 300 without metrics. */
  lemma LatencyIsTheAverage(metrics: seq<Metric>)
    ensures metrics == [] ==> Latency(metrics) == 300
    ensures metrics != [] ==>
              Latency(metrics) * |metrics| <= PositiveSum(metrics) < (Latency(metrics) + 1) * |metrics|
  {
    SumFromTheFront(metrics, |metrics|);
    assert metrics[|metrics|..] == [];
    if metrics != [] {
      QuotientIs(PositiveSum(metrics), |metrics|);
    }
  }

  lemma QuotientIs(sum: nat, n: nat)
    requires n > 0
    ensures sum / n * n <= sum < (sum / n + 1) * n
  {
    var q := sum / n;
    assert sum == q * n + sum % n;
    assert (q + 1) * n == q * n + n;
  }

  /** From 100, a failed metric takes 8, every full ten milliseconds one up to 30, error and stopped 45, an agent
      that is offline 35, and each active allocation 3; the score stays between 0 and 100. */
  lemma ScoreIs(h: Health, load: nat, failed: nat, latency: nat)
    requires failed ==
             |set i | 0 <= i < |h.metrics| && h.metrics[i].status != "online" && h.metrics[i].status != "healthy"|
    requires if h.metrics == [] then latency == 300
             else latency * |h.metrics| <= PositiveSum(h.metrics) < (latency + 1) * |h.metrics|
    ensures var slow := if latency >= 300 then 30 else latency / 10;
            var down := if h.status == Errored || h.status == Stopped then 45 else 0;
            var score := 100 - slow - 8 * failed - down - (if h.agentOffline then 35 else 0) - 3 * load;
            && Score(h, load) == (if score < 0 then 0 else if score > 100 then 100 else score)
            && Weighted(h, load) == Score(h, load) - 3 * load
  {
    FailuresAreCounted(h.metrics, |h.metrics|);
    LatencyIsTheAverage(h.metrics);
    if h.metrics != [] {
      SameAverage(|h.metrics|, PositiveSum(h.metrics), latency, Latency(h.metrics));
    }
  }

  lemma SameAverage(n: nat, sum: nat, a: nat, b: nat)
    requires n > 0 && a * n <= sum < (a + 1) * n && b * n <= sum < (b + 1) * n
    ensures a == b
  {
    if a < b {
      ProductsGrow(n, a + 1, b);
    } else if b < a {
      ProductsGrow(n, b + 1, a);
    }
  }

  lemma ProductsGrow(n: nat, a: nat, b: nat)
    requires a <= b
    ensures a * n <= b * n
  {
  }

  lemma GradesAre(score: int)
    ensures GradeOf(score) == APlus <==> score >= 95
    ensures GradeOf(score) == A <==> 85 <= score < 95
    ensures GradeOf(score) == B <==> 70 <= score < 85
    ensures GradeOf(score) == C <==> 40 <= score < 70
    ensures GradeOf(score) == Dead <==> score < 40
  {
  }

  /** A proxy's score is made of its twenty latest metrics, its status, whether its agent is known to be offline,
      and its load. */
  lemma HealthIsRead(f: Fleet, row: nat, input: Input)
    requires row < |f.proxies|
    ensures var p, h := f.proxies[row], HealthOf(f, f.proxies[row]);
            && h.status == p.status && (h.agentOffline <==> p.agent != "" && p.agent in f.offline)
            && (p.id !in f.metrics ==> h.metrics == [])
            && (p.id in f.metrics ==>
                  |h.metrics| == (if |f.metrics[p.id]| > 20 then 20 else |f.metrics[p.id]|) &&
                  h.metrics <= f.metrics[p.id])
    ensures var p, c := f.proxies[row], CandidateAt(f, row, input);
            var load := if p.id in f.loads then f.loads[p.id] else 0;
            && c.proxy == p && c.row == row && c.load == load && c.weighted == c.quality.score - 3 * load
            && c.quality.score == Score(HealthOf(f, p), load)
            && c.quality.latencyMs == Latency(HealthOf(f, p).metrics)
            && (c.quality.grade == Dead <==> c.quality.score < 40)
  {
  }

  // ----- what a request asks of a row

  predicate SameLetter(a: char, b: char) {
    a == b || ('A' <= a <= 'Z' && b == a - 'A' + 'a') || ('A' <= b <= 'Z' && a == b - 'A' + 'a')
  }

  predicate SameText(a: string, b: string) {
    |a| == |b| && forall i :: 0 <= i < |a| ==> SameLetter(a[i], b[i])
  }

  lemma LowerIsSameLetter(a: char, b: char)
    ensures LowerChar(a) == LowerChar(b) <==> SameLetter(a, b)
  {
  }

  lemma FoldingIsSameText(a: string, b: string)
    ensures EqualFold(a, b) <==> SameText(a, b)
  {
    if |a| == |b| {
      forall i | 0 <= i < |a| ensures Lower(a)[i] == Lower(b)[i] <==> SameLetter(a[i], b[i]) {
        LowerIsSameLetter(a[i], b[i]);
      }
    } else {
      assert |Lower(a)| != |Lower(b)|;
    }
  }

  predicate StandsAt(s: string, part: string, i: int) {
    0 <= i && i + |part| <= |s| && SameText(s[i..i + |part|], part)
  }

  /** The part stands in s somewhere, case apart. */
  ghost predicate Within(s: string, part: string) {
    exists i :: StandsAt(s, part, i)
  }

  lemma LoweredPiece(s: string, part: string, i: nat)
    requires i <= |s|
    ensures Lower(part) <= Lower(s)[i..] <==> StandsAt(s, part, i)
  {
    if i + |part| <= |s| {
      FoldingIsSameText(s[i..i + |part|], part);
      assert Lower(s[i..i + |part|]) == Lower(s)[i..][..|part|];
    }
  }

  lemma ContainingIsWithin(s: string, part: string)
    ensures Contains(Lower(s), Lower(part)) <==> Within(s, part)
  {
    if Contains(Lower(s), Lower(part)) {
      var i :| 0 <= i <= |Lower(s)| && Lower(part) <= Lower(s)[i..];
      LoweredPiece(s, part, i);
    }
    if Within(s, part) {
      var i :| StandsAt(s, part, i);
      LoweredPiece(s, part, i);
      assert Lower(part) <= Lower(s)[i..];
    }
  }

  predicate Holds(r: Reservation, customer: string, now: int) {
    && r.active && r.startsAt <= now && (r.permanent || r.expiresAt == None || r.expiresAt.value > now)
    && (customer == "" || r.customer == customer)
  }

  predicate IsFor(r: Reservation, p: Proxy, pool: Option<string>) {
    || (r.target.ToProxy? && r.proxy == p.id)
    || (r.target.ToPool? && (Some(r.pool) == pool || SameText(r.country, p.country)))
    || (r.target.ToAgent? && r.agent == p.agent)
  }

  /** The row is of the kind, country, region, provider, network and carrier asked for, reserved to nobody else, neither
      in error nor dead, and not on an agent that is offline. */
  ghost predicate Usable(f: Fleet, input: Input, now: int, row: nat)
    requires row < |f.proxies|
  {
    var p := f.proxies[row];
    var country := if p.country != "" then p.country else if input.country != "" then input.country else "Unassigned";
    var pool := if country in f.pools then Some(f.pools[country]) else None;
    var node := if p.node in f.nodes then f.nodes[p.node] else Node("", "", "");
    var region := if input.region != "" then input.region else input.targetRegion;
    && p.status != Errored && p.agent !in f.offline
    && Score(HealthOf(f, p), if p.id in f.loads then f.loads[p.id] else 0) >= 40
    && (input.kind != "" ==> p.kind == input.kind)
    && (input.country != "" ==> p.country == input.country)
    && (region != "" ==> p.region == region)
    && ((exists r :: r in f.reservations && Holds(r, input.customer, now)) ==>
          exists r :: r in f.reservations && Holds(r, input.customer, now) && IsFor(r, p, pool))
    && (input.provider != "" ==> SameText(node.provider, input.provider))
    && (input.asn != "" ==> SameText(node.asn, input.asn))
    && (input.isp != "" ==> Within(node.isp, input.isp))
  }

  lemma GrantsIsFor(r: Reservation, p: Proxy, pool: Option<string>)
    ensures Grants(r, p, pool) <==> IsFor(r, p, pool)
  {
    FoldingIsSameText(r.country, p.country);
  }

  lemma ReservationsMean(f: Fleet, input: Input, now: int, row: nat)
    requires row < |f.proxies|
    ensures var c := CandidateAt(f, row, input);
            ReservationAllows(f, input, now, c) <==>
            ((exists r :: r in f.reservations && Holds(r, input.customer, now)) ==>
               exists r :: r in f.reservations && Holds(r, input.customer, now) && IsFor(r, c.proxy, c.pool))
  {
    var c := CandidateAt(f, row, input);
    forall r ensures InForce(r, input.customer, now) <==> Holds(r, input.customer, now) {}
    forall r ensures Grants(r, c.proxy, c.pool) <==> IsFor(r, c.proxy, c.pool) {
      GrantsIsFor(r, c.proxy, c.pool);
    }
  }

  lemma EligibleIsUsable(f: Fleet, input: Input, now: int, row: nat)
    requires row < |f.proxies|
    ensures Eligible(f, input, now, CandidateAt(f, row, input)) <==> Usable(f, input, now, row)
  {
    var c := CandidateAt(f, row, input);
    ReservationsMean(f, input, now, row);
    FoldingIsSameText(c.node.provider, input.provider);
    FoldingIsSameText(c.node.asn, input.asn);
    ContainingIsWithin(c.node.isp, input.isp);
  }

  // ----- the answer

  predicate Sticky(input: Input) {
    && input.customer != "" && input.sessionKey != ""
    && (input.mode == "sticky_30m" || input.mode == "sticky_6h" || input.mode == "sticky_24h")
  }

  /** The first rows of the strategies: least latency, least load, or the highest score less the load counted again. */
  predicate NoBetter(f: Fleet, input: Input, row: nat, other: nat)
    requires row < |f.proxies| && other < |f.proxies|
  {
    var c, d := CandidateAt(f, row, input), CandidateAt(f, other, input);
    && (input.strategy == LowestLatency ==> c.quality.latencyMs <= d.quality.latencyMs)
    && (input.strategy == LeastLoaded ==> c.load <= d.load)
    && (input.strategy == ByWeight || input.strategy == OtherStrategy ==>
          c.quality.score - 3 * c.load >= d.quality.score - 3 * d.load)
  }

  lemma BestIsNotBeaten(f: Fleet, input: Input, row: nat, other: nat)
    requires row < |f.proxies| && other < |f.proxies|
    requires input.strategy != RoundRobin ==>
               AtLeastAsGood(input.strategy, CandidateAt(f, row, input), CandidateAt(f, other, input))
    ensures NoBetter(f, input, row, other)
  {
  }

  /** A request that is not sticky is answered exactly when some row is usable for it, and then with a usable row
      that no usable row beats by the strategy. */
  lemma SelectionFits(f: Fleet, input: Input, now: int, st: State)
    requires !Sticky(input)
    ensures var picked := Picked(f, input, now, st);
            && (picked.Some? <==> exists row :: 0 <= row < |f.proxies| && Usable(f, input, now, row))
            && (picked.Some? ==>
                  && picked.value.row < |f.proxies| && picked.value.proxy == f.proxies[picked.value.row]
                  && Usable(f, input, now, picked.value.row)
                  && forall row :: 0 <= row < |f.proxies| && Usable(f, input, now, row) ==>
                       NoBetter(f, input, picked.value.row, row))
  {
    SelectionIsExact(f, input, now, st);
    forall row | 0 <= row < |f.proxies|
      ensures Eligible(f, input, now, CandidateAt(f, row, input)) <==> Usable(f, input, now, row)
    {
      EligibleIsUsable(f, input, now, row);
    }
    var picked := Picked(f, input, now, st);
    if picked.Some? {
      forall row | 0 <= row < |f.proxies| && Usable(f, input, now, row)
        ensures NoBetter(f, input, picked.value.row, row)
      {
        BestIsNotBeaten(f, input, picked.value.row, row);
      }
    }
  }

  // ----- sticky sessions

  /** The row's proxy is not graded dead. */
  predicate Alive(f: Fleet, row: nat)
    requires row < |f.proxies|
  {
    var p := f.proxies[row];
    Score(HealthOf(f, p), if p.id in f.loads then f.loads[p.id] else 0) >= 40
  }

  function Minutes(mode: string): int {
    if mode == "sticky_6h" then 360 else if mode == "sticky_24h" then 1440 else 30
  }

  /** The session found is of the request's customer, session and country, live, and none of theirs lives longer. */
  lemma SessionFound(input: Input, now: int, st: State)
    requires Sticky(input)
    ensures var key, rows := Key(input.customer, input.sessionKey, input.country), st.sticky;
            var found := Newest(rows, KeyOf(input), now, |rows|);
            && (found.Some? ==> found.value in rows && found.value.key == key && now < found.value.expiresAt)
            && (forall i :: 0 <= i < |rows| && rows[i].key == key && now < rows[i].expiresAt ==>
                  found.Some? && rows[i].expiresAt <= found.value.expiresAt)
  {
    NewestLivesLongest(st.sticky, KeyOf(input), now, |st.sticky|);
  }

  /** A sticky request is answered by its live session as long as the proxy is there and alive, and then nothing is
      written; in every other case no session answers. */
  lemma SessionAnswers(f: Fleet, input: Input, now: int, st: State)
    requires DistinctIds(f)
    ensures var found := Newest(st.sticky, Key(input.customer, input.sessionKey, input.country), now, |st.sticky|);
            var hit := StickyHit(f, input, now, st);
            && (hit.Some? <==>
                  && Sticky(input) && found.Some?
                  && exists row :: 0 <= row < |f.proxies| && f.proxies[row].id == found.value.proxy && Alive(f, row))
            && (hit.Some? ==>
                  && hit.value.row < |f.proxies| && f.proxies[hit.value.row].id == found.value.proxy
                  && Picked(f, input, now, st) == hit && StateAfterPick(f, input, now, st) == st)
  {
    if Sticky(input) {
      var found := Newest(st.sticky, KeyOf(input), now, |st.sticky|);
      if found.Some? && RowOf(f, found.value.proxy, |f.proxies|).Some? {
        var row := RowOf(f, found.value.proxy, |f.proxies|).value;
        forall k | 0 <= k < |f.proxies| && f.proxies[k].id == found.value.proxy ensures k == row {
          RowOfIsRow(f, k);
        }
      }
    }
  }

  /** Otherwise a sticky request is answered like any other, and its session from then on names that proxy for half an
      hour, six hours or a day; sessions of others stay as they are. */
  lemma SessionIsSaved(f: Fleet, input: Input, now: int, st: State)
    requires Sticky(input) && StickyHit(f, input, now, st).None?
    ensures var picked, after := Picked(f, input, now, st), StateAfterPick(f, input, now, st).sticky;
            var key := Key(input.customer, input.sessionKey, input.country);
            if picked.None? then after == st.sticky
            else
              forall s :: s in after <==>
                || (s in st.sticky && s.key != key)
                || s == StickySession(key, picked.value.proxy.id, input.mode,
                                      now + Minutes(input.mode) * 60_000_000_000)
  {
    var picked := Picked(f, input, now, st);
    if picked.Some? {
      forall s ensures s in Without(st.sticky, KeyOf(input), |st.sticky|) <==> s in st.sticky && s.key != KeyOf(input) {
        WithoutMembers(st.sticky, KeyOf(input), |st.sticky|, s);
      }
    }
  }

  /** Requests that are not sticky, or that their session answers, leave the sessions alone. */
  lemma SessionsStay(f: Fleet, input: Input, now: int, st: State)
    requires input.sessionKey == "" || input.mode !in {"sticky_30m", "sticky_6h", "sticky_24h"} ||
             StickyHit(f, input, now, st).Some?
    ensures StateAfterPick(f, input, now, st).sticky == st.sticky
  {
  }

  // ----- turns

  /** Round robin goes by the country's own counter, one for all requests without a country, and only it moves it. */
  lemma TurnIsTaken(f: Fleet, input: Input, now: int, st: State)
    requires !Sticky(input) && Picked(f, input, now, st).Some?
    ensures var key := if input.country == "" then "global" else input.country;
            var count := if key in st.turns then st.turns[key] else 0;
            var ranked := Ranked(f, input, now);
            if input.strategy == RoundRobin
            then ranked != [] && Picked(f, input, now, st) == Some(ranked[count % |ranked|]) &&
                 StateAfterPick(f, input, now, st).turns == st.turns[key := count + 1]
            else StateAfterPick(f, input, now, st).turns == st.turns
  {
  }
}
