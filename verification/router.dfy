/** Choosing a proxy: sticky sessions first, then the ranked candidates and the strategy. */
module Router {
  import opened Wrappers
  import opened Quality
  import opened Selection

  const MINUTE := 60_000_000_000
  const HOUR := 60 * MINUTE

  datatype Key = Key(customer: string, session: string, country: string)

  datatype StickySession = StickySession(key: Key, proxy: string, mode: string, expiresAt: int)

  /** Selections taken so far per round-robin key, and the sticky session table. */
  datatype State = State(turns: map<string, nat>, sticky: seq<StickySession>)

  // ----- sticky sessions

  predicate IsSticky(mode: string) {
    mode == "sticky_30m" || mode == "sticky_6h" || mode == "sticky_24h"
  }

  function StickyDuration(mode: string): int {
    if mode == "sticky_6h" then 6 * HOUR else if mode == "sticky_24h" then 24 * HOUR else 30 * MINUTE
  }

  function KeyOf(input: Input): Key {
    Key(input.customer, input.sessionKey, input.country)
  }

  predicate WantsSticky(input: Input) {
    input.sessionKey != "" && IsSticky(input.mode)
  }

  /** The unexpired session of that key that expires last, among the first n rows. */
  function Newest(rows: seq<StickySession>, key: Key, now: int, n: nat): Option<StickySession>
    requires n <= |rows|
  {
    if n == 0 then None
    else
      var best, row := Newest(rows, key, now, n - 1), rows[n - 1];
      if row.key == key && row.expiresAt > now && (best.None? || row.expiresAt > best.value.expiresAt) then Some(row)
          else best
  }

  /** The first n rows without those of that key. */
  function Without(rows: seq<StickySession>, key: Key, n: nat): seq<StickySession>
    requires n <= |rows|
  {
    if n == 0 then []
    else if rows[n - 1].key == key then Without(rows, key, n - 1)
    else Without(rows, key, n - 1) + [rows[n - 1]]
  }

  function NewSession(input: Input, proxy: string, now: int): StickySession {
    StickySession(KeyOf(input), proxy, input.mode, now + StickyDuration(input.mode))
  }

  function Saved(rows: seq<StickySession>, input: Input, proxy: string, now: int): seq<StickySession> {
    Without(rows, KeyOf(input), |rows|) + [NewSession(input, proxy, now)]
  }

  ghost predicate OneRowPerKey(rows: seq<StickySession>) {
    forall i, j :: 0 <= i < j < |rows| ==> rows[i].key != rows[j].key
  }

  // ----- one selection

  predicate DistinctIds(f: Fleet) {
    forall i, j :: 0 <= i < j < |f.proxies| ==> f.proxies[i].id != f.proxies[j].id
  }

  function RowOf(f: Fleet, id: string, n: nat): (row: Option<nat>)
    requires n <= |f.proxies|
    ensures row.Some? ==> row.value < n && f.proxies[row.value].id == id
    ensures row.None? ==> forall i :: 0 <= i < n ==> f.proxies[i].id != id
  {
    if n == 0 then None
    else if RowOf(f, id, n - 1).Some? then RowOf(f, id, n - 1)
    else if f.proxies[n - 1].id == id then Some(n - 1)
    else None
  }

  function CandidateFor(f: Fleet, id: string, input: Input): Option<Candidate> {
    var row := RowOf(f, id, |f.proxies|);
    if row.None? then None else Some(CandidateAt(f, row.value, input))
  }

  /** The candidate a sticky session leads to; it passes no filter but the grade. */
  function StickyHit(f: Fleet, input: Input, now: int, st: State): Option<Candidate> {
    if input.customer == "" || !WantsSticky(input) then None
    else
      var session := Newest(st.sticky, KeyOf(input), now, |st.sticky|);
      if session.None? then None
      else
        var c := CandidateFor(f, session.value.proxy, input);
        if c.Some? && c.value.quality.grade != Dead then c else None
  }

  function TurnKey(input: Input): string {
    if input.country == "" then "global" else input.country
  }

  function Turn(turns: map<string, nat>, key: string): nat {
    if key in turns then turns[key] else 0
  }

  function Chosen(input: Input, ranked: seq<Candidate>, turns: map<string, nat>): Candidate
    requires ranked != []
  {
    if input.strategy == RoundRobin then ranked[Turn(turns, TurnKey(input)) % |ranked|]
        else Resort(input.strategy, ranked)[0]
  }

  function TurnsAfter(input: Input, turns: map<string, nat>): map<string, nat> {
    if input.strategy == RoundRobin then turns[TurnKey(input) := Turn(turns, TurnKey(input)) + 1] else turns
  }

  function Picked(f: Fleet, input: Input, now: int, st: State): Option<Candidate> {
    if StickyHit(f, input, now, st).Some? then StickyHit(f, input, now, st)
    else if Ranked(f, input, now) == [] then None
    else Some(Chosen(input, Ranked(f, input, now), st.turns))
  }

  function StateAfterPick(f: Fleet, input: Input, now: int, st: State): State {
    if StickyHit(f, input, now, st).Some? || Ranked(f, input, now) == [] then st
    else
      var c := Chosen(input, Ranked(f, input, now), st.turns);
      State(TurnsAfter(input, st.turns), if WantsSticky(input) then Saved(st.sticky, input, c.proxy.id, now)
          else st.sticky)
  }

  lemma RowOfIsRow(f: Fleet, row: nat)
    requires DistinctIds(f) && row < |f.proxies|
    ensures RowOf(f, f.proxies[row].id, |f.proxies|) == Some(row)
  {
    var found := RowOf(f, f.proxies[row].id, |f.proxies|);
    assert found.Some? && f.proxies[found.value].id == f.proxies[row].id;
  }

  class Service {
    var turns: map<string, nat>
    var sticky: seq<StickySession>

    ghost function View(): State
      reads this
    {
      State(turns, sticky)
    }

    constructor ()
      ensures View() == State(map[], [])
    {
      turns, sticky := map[], [];
    }

    method CandidateForProxy(f: Fleet, id: string, input: Input) returns (c: Option<Candidate>)
      ensures c == CandidateFor(f, id, input)
    {
      var row := RowOf(f, id, |f.proxies|);
      if row.None? {
        return None;
      }
      var p := f.proxies[row.value];
      var country := p.country;
      if country == "" {
        country := input.country;
      }
      if country == "" {
        country := "Unassigned";
      }
      var pool := if country in f.pools then Some(f.pools[country]) else None;
      var load := Load(f, id);
      var quality := CalculateQuality(HealthOf(f, p), load);
      var node := if p.node in f.nodes then f.nodes[p.node] else Node("", "", "");
      c := Some(Candidate(row.value, p, pool, quality, node, load, quality.score - load * 3));
    }

    method ActiveReservations(f: Fleet, customer: string, now: int) returns (rows: seq<Reservation>)
      ensures forall r :: r in rows <==> r in f.reservations && InForce(r, customer, now)
    {
      rows := [];
      for i := 0 to |f.reservations|
        invariant forall r :: r in rows <==> r in f.reservations[..i] && InForce(r, customer, now)
      {
        assert f.reservations[..i + 1] == f.reservations[..i] + [f.reservations[i]];
        if InForce(f.reservations[i], customer, now) {
          rows := rows + [f.reservations[i]];
        }
      }
      assert f.reservations[..|f.reservations|] == f.reservations;
    }

    method ReservationAllowed(rows: seq<Reservation>, p: Proxy, pool: Option<string>) returns (ok: bool)
      ensures ok <==> rows == [] || exists r :: r in rows && Grants(r, p, pool)
    {
      if |rows| == 0 {
        return true;
      }
      for i := 0 to |rows|
        invariant forall k :: 0 <= k < i ==> !Grants(rows[k], p, pool)
      {
        assert rows[i] in rows;
        match rows[i].target
        case ToProxy =>
          if rows[i].proxy == p.id {
            return true;
          }
        case ToPool =>
          if Some(rows[i].pool) == pool || EqualFold(rows[i].country, p.country) {
            return true;
          }
        case ToAgent =>
          if rows[i].agent == p.agent {
            return true;
          }
        case ToOther =>
      }
      return false;
    }

    method Candidates(f: Fleet, input: Input, now: int) returns (out: seq<Candidate>)
      requires DistinctIds(f)
      ensures out == Ranked(f, input, now)
    {
      out := [];
      var region := input.region;
      if region == "" {
        region := input.targetRegion;
      }
      var reserved := ActiveReservations(f, input.customer, now);
      for row := 0 to |f.proxies|
        invariant out == EligibleUpto(f, input, now, row)
      {
        var p := f.proxies[row];
        if p.status == Errored || (input.kind != "" && p.kind != input.kind) ||
            (input.country != "" && p.country != input.country)
           || (region != "" && p.region != region) {
          continue;
        }
        RowOfIsRow(f, row);
        var found := CandidateForProxy(f, p.id, input);
        var c := found.value;
        var allowed := ReservationAllowed(reserved, p, c.pool);
        AllowedMeans(f, input, now, c, reserved);
        if !allowed {
          continue;
        }
        if input.provider != "" && !EqualFold(c.node.provider, input.provider) {
          continue;
        }
        if input.asn != "" && !EqualFold(c.node.asn, input.asn) {
          continue;
        }
        if input.isp != "" && !Contains(Lower(c.node.isp), Lower(input.isp)) {
          continue;
        }
        if c.quality.grade == Dead || p.agent in f.offline {
          continue;
        }
        out := out + [c];
      }
      out := StableSort(out, WeightThenLatency);
    }

    method Balance(input: Input, candidates: seq<Candidate>) returns (c: Candidate)
      requires candidates != []
      modifies this`turns
      ensures c == Chosen(input, candidates, old(turns)) && turns == TurnsAfter(input, old(turns))
    {
      match input.strategy
      case LowestLatency =>
        var sorted := StableSort(candidates, LatencyOnly);
        c := sorted[0];
      case LeastLoaded =>
        var sorted := StableSort(candidates, LoadOnly);
        c := sorted[0];
      case RoundRobin =>
        var key := input.country;
        if key == "" {
          key := "global";
        }
        var count := if key in turns then turns[key] else 0;
        turns := turns[key := count + 1];
        c := candidates[count % |candidates|];
      case ByWeight =>
        var sorted := StableSort(candidates, Weight);
        c := sorted[0];
      case OtherStrategy =>
        c := candidates[0];
    }

    method FindSticky(input: Input, now: int) returns (session: Option<StickySession>)
      ensures session == if input.customer == "" || !WantsSticky(input) then None
              else Newest(sticky, KeyOf(input), now, |sticky|)
    {
      session := None;
      if input.customer == "" || input.sessionKey == "" || !IsSticky(input.mode) {
        return;
      }
      for i := 0 to |sticky|
        invariant session == Newest(sticky, KeyOf(input), now, i)
      {
        var row := sticky[i];
        if row.key == KeyOf(input) && row.expiresAt > now &&
            (session.None? || row.expiresAt > session.value.expiresAt) {
          session := Some(row);
        }
      }
    }

    method SaveSticky(input: Input, proxy: string, now: int)
      modifies this`sticky
      ensures sticky == Saved(old(sticky), input, proxy, now)
    {
      var kept := [];
      for i := 0 to |sticky|
        invariant kept == Without(sticky, KeyOf(input), i)
      {
        if sticky[i].key != KeyOf(input) {
          kept := kept + [sticky[i]];
        }
      }
      sticky := kept + [StickySession(KeyOf(input), proxy, input.mode, now + StickyDuration(input.mode))];
    }

    method SelectProxy(f: Fleet, input: Input, now: int) returns (picked: Option<Candidate>)
      requires DistinctIds(f)
      modifies this
      ensures picked == Picked(f, input, now, old(View())) && View() == StateAfterPick(f, input, now, old(View()))
    {
      var session := FindSticky(input, now);
      if session.Some? {
        var c := CandidateForProxy(f, session.value.proxy, input);
        if c.Some? && c.value.quality.grade != Dead {
          return c;
        }
      }
      var candidates := Candidates(f, input, now);
      if |candidates| == 0 {
        return None;
      }
      var chosen := Balance(input, candidates);
      if input.sessionKey != "" && IsSticky(input.mode) {
        SaveSticky(input, chosen.proxy.id, now);
      }
      picked := Some(chosen);
    }
  }

  lemma AllowedMeans(f: Fleet, input: Input, now: int, c: Candidate, reserved: seq<Reservation>)
    requires forall r :: r in reserved <==> r in f.reservations && InForce(r, input.customer, now)
    ensures ReservationAllows(f, input, now, c) <==>
            reserved == [] || exists r :: r in reserved && Grants(r, c.proxy, c.pool)
  {
    if reserved != [] {
      assert reserved[0] in reserved;
    }
  }

  // ----- what a selection returns

  /** Off the sticky path, selecting fails exactly when no proxy passes every filter. Otherwise the proxy passes
      them all and, unless the strategy is round robin, no eligible proxy is better by the strategy and its tie-
      breaks. */
  lemma SelectionIsExact(f: Fleet, input: Input, now: int, st: State)
    requires StickyHit(f, input, now, st).None?
    ensures var picked := Picked(f, input, now, st);
            && (picked.None? <==> forall row :: 0 <= row < |f.proxies| ==>
                !Eligible(f, input, now, CandidateAt(f, row, input)))
            && (picked.Some? ==>
                  var c := picked.value;
                  && c.row < |f.proxies| && c == CandidateAt(f, c.row, input) && Eligible(f, input, now, c)
                  && (input.strategy != RoundRobin ==>
                        forall row :: 0 <= row < |f.proxies| && Eligible(f, input, now, CandidateAt(f, row, input)) ==>
                          AtLeastAsGood(input.strategy, c, CandidateAt(f, row, input))))
  {
    FirstIsBest(f, input, now);
    if input.strategy == RoundRobin && Picked(f, input, now, st).Some? {
      var ranked := Ranked(f, input, now);
      ResortIsLexicographic(f, input, now);
      SamePlaces(ranked, EligibleUpto(f, input, now, |f.proxies|));
      var c := Picked(f, input, now, st).value;
      assert c in ranked;
      EligibleMembers(f, input, now, |f.proxies|, c);
    }
  }

  // ----- runs of selections, by any customers, over changing fleets

  datatype Call = Call(fleet: Fleet, input: Input, now: int)

  function After(st: State, calls: seq<Call>, n: nat): State
    requires n <= |calls|
  {
    if n == 0 then st
    else StateAfterPick(calls[n - 1].fleet, calls[n - 1].input, calls[n - 1].now, After(st, calls, n - 1))
  }

  function Outcome(st: State, calls: seq<Call>, i: nat): Option<Candidate>
    requires i < |calls|
  {
    Picked(calls[i].fleet, calls[i].input, calls[i].now, After(st, calls, i))
  }

  // ----- sticky sessions over runs

  lemma {:induction false} WithoutMembers(rows: seq<StickySession>, key: Key, n: nat, row: StickySession)
    requires n <= |rows|
    ensures row in Without(rows, key, n) <==> row.key != key && exists i :: 0 <= i < n && rows[i] == row
  {
    if n > 0 {
      WithoutMembers(rows, key, n - 1, row);
    }
  }

  lemma {:induction false} WithoutKeepsOneRow(rows: seq<StickySession>, key: Key, n: nat)
    requires n <= |rows| && OneRowPerKey(rows)
    ensures OneRowPerKey(Without(rows, key, n))
  {
    if n > 0 {
      WithoutKeepsOneRow(rows, key, n - 1);
      var kept := Without(rows, key, n - 1);
      forall i | 0 <= i < |kept| ensures kept[i].key != rows[n - 1].key {
        WithoutMembers(rows, key, n - 1, kept[i]);
        assert kept[i] in kept;
      }
    }
  }

  lemma {:induction false} NewestIsTheRow(rows: seq<StickySession>, now: int, n: nat, i: nat)
    requires OneRowPerKey(rows) && n <= |rows| && i < |rows| && rows[i].expiresAt > now
    ensures Newest(rows, rows[i].key, now, n) == if i < n then Some(rows[i]) else None
  {
    if n > 0 {
      NewestIsTheRow(rows, now, n - 1, i);
      assert n - 1 == i || rows[n - 1].key != rows[i].key;
    }
  }

  /** The session used is a live one of the key, and none of the key's lives longer. */
  lemma {:induction false} NewestLivesLongest(rows: seq<StickySession>, key: Key, now: int, n: nat)
    requires n <= |rows|
    ensures var best := Newest(rows, key, now, n);
            && (best.Some? ==> best.value in rows && best.value.key == key && best.value.expiresAt > now)
            && (forall i :: 0 <= i < n && rows[i].key == key && rows[i].expiresAt > now ==>
                  best.Some? && rows[i].expiresAt <= best.value.expiresAt)
  {
    if n > 0 {
      NewestLivesLongest(rows, key, now, n - 1);
    }
  }

  /** A selection writes the session table exactly when it asks for a sticky session, finds none that serves, and
      some proxy is eligible. It then replaces that key's rows by one naming the proxy it returned; there is never
      more than one a key. */
  lemma SelectionWritesSessions(f: Fleet, input: Input, now: int, st: State)
    requires OneRowPerKey(st.sticky)
    ensures var after, picked := StateAfterPick(f, input, now, st).sticky, Picked(f, input, now, st);
            && OneRowPerKey(after)
            && (if WantsSticky(input) && picked.Some? && StickyHit(f, input, now, st).None?
                then forall row :: row in after <==>
                       || (row in st.sticky && row.key != KeyOf(input))
                       || row == NewSession(input, picked.value.proxy.id, now)
                else after == st.sticky)
  {
    var picked := Picked(f, input, now, st);
    var rows := st.sticky;
    if WantsSticky(input) && picked.Some? && StickyHit(f, input, now, st).None? {
      WithoutKeepsOneRow(rows, KeyOf(input), |rows|);
      var kept := Without(rows, KeyOf(input), |rows|);
      forall row ensures row in kept <==> row in rows && row.key != KeyOf(input) {
        WithoutMembers(rows, KeyOf(input), |rows|, row);
      }
      assert forall i :: 0 <= i < |kept| ==> kept[i] in kept;
    }
  }

  predicate Serves(call: Call, proxy: string) {
    var c := CandidateFor(call.fleet, proxy, call.input);
    c.Some? && c.value.quality.grade != Dead
  }

  predicate AsksFor(call: Call, key: Key) {
    WantsSticky(call.input) && KeyOf(call.input) == key
  }

  lemma SessionServes(call: Call, st: State, session: StickySession)
    requires OneRowPerKey(st.sticky) && session in st.sticky && session.key.customer != ""
    requires call.now < session.expiresAt && (AsksFor(call, session.key) ==> Serves(call, session.proxy))
    ensures var after := StateAfterPick(call.fleet, call.input, call.now, st);
            OneRowPerKey(after.sticky) && session in after.sticky
    ensures AsksFor(call, session.key) ==>
              var picked := Picked(call.fleet, call.input, call.now, st);
              picked.Some? && picked.value.proxy.id == session.proxy
  {
    SelectionWritesSessions(call.fleet, call.input, call.now, st);
    if AsksFor(call, session.key) {
      var i :| 0 <= i < |st.sticky| && st.sticky[i] == session;
      NewestIsTheRow(st.sticky, call.now, |st.sticky|, i);
    }
  }

  ghost predicate Undisturbed(calls: seq<Call>, n: nat, session: StickySession)
    requires n <= |calls|
  {
    forall i :: 0 <= i < n ==>
      calls[i].now < session.expiresAt && (AsksFor(calls[i], session.key) ==> Serves(calls[i], session.proxy))
  }

  lemma {:induction false} SessionStays(st: State, calls: seq<Call>, n: nat, session: StickySession)
    requires n <= |calls| && OneRowPerKey(st.sticky) && session in st.sticky && session.key.customer != ""
    requires Undisturbed(calls, n, session)
    ensures OneRowPerKey(After(st, calls, n).sticky) && session in After(st, calls, n).sticky
  {
    if n > 0 {
      SessionStays(st, calls, n - 1, session);
      var before, call := After(st, calls, n - 1), calls[n - 1];
      assert After(st, calls, n) == StateAfterPick(call.fleet, call.input, call.now, before);
      SessionServes(call, before, session);
    }
  }

  /** Over any run that ends before the session expires, during which its proxy exists and is not dead whenever
      asked for, the session stays in the table unchanged and every request for its key gets its proxy. */
  lemma StickyUntilExpiry(st: State, calls: seq<Call>, i: nat, session: StickySession)
    requires i < |calls| && OneRowPerKey(st.sticky) && session in st.sticky && session.key.customer != ""
    requires Undisturbed(calls, i + 1, session)
    ensures session in After(st, calls, i + 1).sticky && OneRowPerKey(After(st, calls, i + 1).sticky)
    ensures AsksFor(calls[i], session.key) ==>
              Outcome(st, calls, i).Some? && Outcome(st, calls, i).value.proxy.id == session.proxy
  {
    SessionStays(st, calls, i, session);
    SessionServes(calls[i], After(st, calls, i), session);
  }

  /** Over every run from an empty table, whatever fleets and requests it sees, no key ever has two session rows. */
  lemma {:induction false} OneSessionRowAlways(calls: seq<Call>, n: nat)
    requires n <= |calls|
    ensures OneRowPerKey(After(State(map[], []), calls, n).sticky)
  {
    if n > 0 {
      OneSessionRowAlways(calls, n - 1);
      var before, call := After(State(map[], []), calls, n - 1), calls[n - 1];
      assert After(State(map[], []), calls, n) == StateAfterPick(call.fleet, call.input, call.now, before);
      SelectionWritesSessions(call.fleet, call.input, call.now, before);
    }
  }

  // ----- round-robin turns over runs

  /** The call takes a turn of that key. */
  predicate TakesTurn(st: State, call: Call, key: string) {
    && call.input.strategy == RoundRobin && TurnKey(call.input) == key
    && StickyHit(call.fleet, call.input, call.now, st).None? && Ranked(call.fleet, call.input, call.now) != []
  }

  /** Which calls took a turn of that key, and which of those turns went to c. */
  function Took(st: State, calls: seq<Call>, key: string): seq<bool> {
    seq(|calls|, k requires 0 <= k < |calls| => TakesTurn(After(st, calls, k), calls[k], key))
  }

  function Won(st: State, calls: seq<Call>, key: string, c: Candidate): seq<bool> {
    seq(|calls|, k requires 0 <= k < |calls| =>
      TakesTurn(After(st, calls, k), calls[k], key) && Outcome(st, calls, k) == Some(c))
  }

  function HowMany(flags: seq<bool>, n: nat): nat
    requires n <= |flags|
  {
    if n == 0 then 0 else HowMany(flags, n - 1) + (if flags[n - 1] then 1 else 0)
  }

  /** How many of 0 .. x - 1 leave remainder i. */
  function Hits(x: nat, size: nat, i: nat): nat
    requires i < size
  {
    if x == 0 then 0 else Hits(x - 1, size, i) + (if (x - 1) % size == i then 1 else 0)
  }

  lemma LessByFactor(size: nat, a: int, b: int)
    requires size > 0 && size * a < size * b
    ensures a < b
  {
  }

  lemma DivisionIs(x: nat, size: nat, q: int, r: int)
    requires 0 <= r < size && x == size * q + r
    ensures x / size == q && x % size == r
  {
    var q1, r1 := x / size, x % size;
    assert x == size * q1 + r1;
    assert size * (q + 1) == size * q + size && size * (q1 + 1) == size * q1 + size;
    LessByFactor(size, q, q1 + 1);
    LessByFactor(size, q1, q + 1);
  }

  lemma NextRemainder(x: nat, size: nat)
    requires size > 0
    ensures if x % size + 1 == size then (x + 1) / size == x / size + 1 && (x + 1) % size == 0
            else (x + 1) / size == x / size && (x + 1) % size == x % size + 1
  {
    var q, r := x / size, x % size;
    assert x == size * q + r;
    if r + 1 == size {
      assert x + 1 == size * (q + 1);
      DivisionIs(x + 1, size, q + 1, 0);
    } else {
      DivisionIs(x + 1, size, q, r + 1);
    }
  }

  lemma {:induction false} HitsAre(x: nat, size: nat, i: nat)
    requires i < size
    ensures Hits(x, size, i) == x / size + (if x % size > i then 1 else 0)
  {
    if x > 0 {
      HitsAre(x - 1, size, i);
      NextRemainder(x - 1, size);
      OneHit((x - 1) / size, (x - 1) % size, x / size, x % size, size, i);
    }
  }

  /** What the next number adds, in terms of quotients and remainders alone. */
  lemma OneHit(q: int, r: int, q1: int, r1: int, size: nat, i: nat)
    requires i < size && 0 <= r < size
    requires if r + 1 == size then q1 == q + 1 && r1 == 0 else q1 == q && r1 == r + 1
    ensures q1 + (if r1 > i then 1 else 0) == q + (if r > i then 1 else 0) + (if r == i then 1 else 0)
  {
  }

  lemma HitsAreEven(from: nat, turns: nat, size: nat, i: nat)
    requires i < size
    ensures turns / size <= Hits(from + turns, size, i) - Hits(from, size, i) <= (turns + size - 1) / size
  {
    HitsAre(from, size, i);
    HitsAre(from + turns, size, i);
    var d := Hits(from + turns, size, i) - Hits(from, size, i);
    SpreadBounds(from, turns, size, i, d);
    QuotientBounds(turns, size, d);
  }

  lemma SpreadBounds(from: nat, turns: nat, size: nat, i: nat, d: int)
    requires i < size
    requires d == (from + turns) / size + (if (from + turns) % size > i then 1
             else 0) - from / size - (if from % size > i then 1 else 0)
    ensures turns - size < size * d < turns + size
  {
    var q0, r0, q1, r1 := from / size, from % size, (from + turns) / size, (from + turns) % size;
    assert from == size * q0 + r0 && from + turns == size * q1 + r1;
    var e: int := (if r1 > i then 1 else 0) - (if r0 > i then 1 else 0);
    assert size * d == size * q1 - size * q0 + size * e;
    assert size * d == turns - r1 + r0 + size * e;
    assert e == 1 ==> size * e == size;
    assert e == -1 ==> size * e == 0 - size;
  }

  lemma QuotientBounds(turns: nat, size: nat, d: int)
    requires size > 0 && turns - size < size * d < turns + size
    ensures turns / size <= d <= (turns + size - 1) / size
  {
    var q, r := turns / size, turns % size;
    assert turns == size * q + r;
    assert size * (q - 1) == size * q - size;
    LessByFactor(size, q - 1, d);
    var q1 := (turns + size - 1) / size;
    assert turns + size - 1 == size * q1 + (turns + size - 1) % size;
    assert size * (q1 + 1) == size * q1 + size;
    LessByFactor(size, d, q1 + 1);
  }

  lemma {:induction false} NeverBeforeItself(orders: seq<Order>, x: Candidate)
    ensures !Before(orders, x, x)
    decreases |orders|
  {
    if orders != [] {
      NeverBeforeItself(orders[1..], x);
    }
  }

  lemma RankedIsDistinct(f: Fleet, input: Input, now: int, i: nat, j: nat)
    requires i < |Ranked(f, input, now)| && j < |Ranked(f, input, now)| && i != j
    ensures Ranked(f, input, now)[i] != Ranked(f, input, now)[j]
  {
    RankedIsSorted(f, input, now);
    var ranked := Ranked(f, input, now);
    NeverBeforeItself([WeightThenLatency], ranked[i]);
    if i < j {
      assert Before([WeightThenLatency], ranked[i], ranked[j]);
    } else {
      assert Before([WeightThenLatency], ranked[j], ranked[i]);
    }
  }

  ghost predicate RankingStays(st: State, calls: seq<Call>, key: string, ranked: seq<Candidate>) {
    forall k :: 0 <= k < |calls| && TakesTurn(After(st, calls, k), calls[k], key) ==>
      Ranked(calls[k].fleet, calls[k].input, calls[k].now) == ranked
  }

  lemma OneTurn(before: State, call: Call, key: string, ranked: seq<Candidate>, i: nat)
    requires i < |ranked| && (TakesTurn(before, call, key) ==> Ranked(call.fleet, call.input, call.now) == ranked)
    ensures var after := StateAfterPick(call.fleet, call.input, call.now, before);
            var picked := Picked(call.fleet, call.input, call.now, before);
            if TakesTurn(before, call, key)
            then Turn(after.turns, key) == Turn(before.turns, key) + 1 &&
                 (picked == Some(ranked[i]) <==> Turn(before.turns, key) % |ranked| == i)
            else Turn(after.turns, key) == Turn(before.turns, key)
  {
    if TakesTurn(before, call, key) {
      var at := Turn(before.turns, key) % |ranked|;
      if at != i {
        RankedIsDistinct(call.fleet, call.input, call.now, at, i);
      }
    }
  }

  /** The counter moves by one at a turn, which is won when it stood at remainder i. */
  predicate CountedAt(before: nat, after: nat, took: bool, won: bool, size: nat, i: nat)
    requires i < size
  {
    after == before + (if took then 1 else 0) && (won <==> took && before % size == i)
  }

  ghost predicate Counted(counter: seq<nat>, took: seq<bool>, won: seq<bool>, size: nat, i: nat)
    requires i < size
  {
    && |counter| == |took| + 1 && |won| == |took|
    && forall k :: 0 <= k < |took| ==> CountedAt(counter[k], counter[k + 1], took[k], won[k], size, i)
  }

  lemma {:induction false} WinsAreHits(counter: seq<nat>, took: seq<bool>, won: seq<bool>, size: nat, i: nat, n: nat)
    requires i < size && Counted(counter, took, won, size, i) && n <= |took|
    ensures counter[n] == counter[0] + HowMany(took, n)
    ensures HowMany(won, n) == Hits(counter[n], size, i) - Hits(counter[0], size, i)
  {
    if n > 0 {
      WinsAreHits(counter, took, won, size, i, n - 1);
      assert CountedAt(counter[n - 1], counter[n - 1 + 1], took[n - 1], won[n - 1], size, i);
    }
  }

  predicate EvenShare(wins: nat, turns: nat, size: nat)
    requires size > 0
  {
    turns / size <= wins <= (turns + size - 1) / size
  }

  lemma CountedIsEven(counter: seq<nat>, took: seq<bool>, won: seq<bool>, size: nat, i: nat)
    requires i < size && Counted(counter, took, won, size, i)
    ensures EvenShare(HowMany(won, |won|), HowMany(took, |took|), size)
  {
    WinsAreHits(counter, took, won, size, i, |took|);
    HitsAreEven(counter[0], HowMany(took, |took|), size, i);
  }

  function Counters(st: State, calls: seq<Call>, key: string): seq<nat> {
    seq(|calls| + 1, k requires 0 <= k <= |calls| => Turn(After(st, calls, k).turns, key))
  }

  lemma CallCounts(st: State, calls: seq<Call>, key: string, ranked: seq<Candidate>, i: nat, k: nat)
    requires i < |ranked| && RankingStays(st, calls, key, ranked) && k < |calls|
    ensures CountedAt(Counters(st, calls, key)[k], Counters(st, calls, key)[k + 1],
                      Took(st, calls, key)[k], Won(st, calls, key, ranked[i])[k], |ranked|, i)
  {
    var before, call := After(st, calls, k), calls[k];
    assert After(st, calls, k + 1) == StateAfterPick(call.fleet, call.input, call.now, before);
    OneTurn(before, call, key, ranked, i);
  }

  lemma RunIsCounted(st: State, calls: seq<Call>, key: string, ranked: seq<Candidate>, i: nat)
    requires i < |ranked| && RankingStays(st, calls, key, ranked)
    ensures Counted(Counters(st, calls, key), Took(st, calls, key), Won(st, calls, key, ranked[i]), |ranked|, i)
  {
    forall k | 0 <= k < |calls|
      ensures CountedAt(Counters(st, calls, key)[k], Counters(st, calls, key)[k + 1],
                        Took(st, calls, key)[k], Won(st, calls, key, ranked[i])[k], |ranked|, i)
    {
      CallCounts(st, calls, key, ranked, i, k);
    }
  }

  /** However selections for other keys, by other strategies or through sticky sessions come between, each of the
      proxies in an unchanging ranking gets an even share of the turns, rounded down or up, from any starting
      counter. */
  lemma RoundRobinIsFair(st: State, calls: seq<Call>, key: string, ranked: seq<Candidate>, i: nat)
    requires i < |ranked| && RankingStays(st, calls, key, ranked)
    ensures var took, won := Took(st, calls, key), Won(st, calls, key, ranked[i]);
            EvenShare(HowMany(won, |won|), HowMany(took, |took|), |ranked|)
  {
    RunIsCounted(st, calls, key, ranked, i);
    CountedIsEven(Counters(st, calls, key), Took(st, calls, key), Won(st, calls, key, ranked[i]), |ranked|, i);
  }
}
