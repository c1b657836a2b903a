/** What holds of the command bus under every interleaving of its goroutines. */
module CommandBusSafety {
  import opened Wrappers
  import opened CommandBus

  /** A goroutine's copy may be stale, but never about whose command it is or how often it may be tried. */
  predicate Faithful(w: World, k: Command) {
    k.id in w.rows && w.rows[k.id].agent == k.agent && w.rows[k.id].maxAttempts == k.maxAttempts
  }

  function Bound(w: World, c: Id): int
    requires c in w.rows
  {
    (if c in w.limits then w.limits[c] else 0) + CountOf(w.reverts, c)
  }

  predicate Below(w: World, k: Command) {
    Faithful(w, k) && k.attempts < Bound(w, k.id)
  }

  predicate Within(w: World, k: Command) {
    Faithful(w, k) && k.attempts <= Bound(w, k.id)
  }

  /** Copies that can still start an attempt are strictly below the bound; all others are within it. */
  predicate ThreadBounded(w: World, th: Thread) {
    match th
    case Spawning(cmd) => Below(w, cmd)
    case Attempting(phase, cmd, _, rest) =>
      (if phase == Start then Below(w, cmd) else Within(w, cmd)) && forall i :: 0 <= i < |rest| ==> Below(w, rest[i])
    case Reporting(cmd, _) => Within(w, cmd)
    case Sweeping(_, todo) => forall i :: 0 <= i < |todo| ==> Within(w, todo[i])
    case Listing(_) => true
    case Message(c, _) => c in w.rows
    case Running(c, _, _, _) => c in w.rows
  }

  predicate RowBounded(w: World, c: Id)
    requires c in w.rows
  {
    && w.rows[c].id == c && c in w.limits && w.rows[c].maxAttempts <= w.limits[c]
    && Within(w, w.rows[c])
    && (w.rows[c].status == Pending ==> Below(w, w.rows[c]))
  }

  predicate ThreadOk(w: World, th: Thread) {
    && ThreadBounded(w, th)
    && (th.Reporting? ==> !th.report.SaysOther?)
    && (th.Attempting? && th.phase == Loaded ==> th.cmd.status == Dispatched)
    && (th.Attempting? && th.phase == Reverting ==> th.cmd.status == Pending)
  }

  predicate Among(cs: seq<Command>, c: Id) {
    exists i :: 0 <= i < |cs| && cs[i].id == c
  }

  /** The goroutine has still to write c as dispatched, or is about to start the attempt that will. */
  predicate Outstanding(th: Thread, c: Id) {
    || (th.Spawning? && th.cmd.id == c)
    || (th.Attempting? && (((th.phase == Start || th.phase == Loaded) && th.cmd.id == c) || Among(th.rest, c)))
  }

  ghost predicate Covered(w: World, c: Id)
    requires c in w.rows
  {
    || c in w.reverted
    || (exists t :: t in w.threads && Outstanding(w.threads[t], c))
    || (exists t :: t in w.threads && w.threads[t] == Listing(w.rows[c].agent))
  }

  ghost predicate NothingMissed(w: World) {
    forall c :: c in w.rows && w.rows[c].status == Pending && w.rows[c].agent in w.registry ==> Covered(w, c)
  }

  ghost predicate Bounded(w: World) {
    && (forall c :: c in w.rows ==> RowBounded(w, c))
    && (forall t :: t in w.threads ==> ThreadOk(w, w.threads[t]))
    && (forall c :: c in w.executions ==> c in w.rows)
  }

  ghost predicate Inv(w: World) {
    Bounded(w) && NothingMissed(w)
  }

  // ----- one step

  /** w1 has every row of w, under the same owner and limit and with at least the same bound. */
  ghost predicate Grows(w: World, w1: World) {
    forall c :: c in w.rows ==>
      && c in w1.rows && w1.rows[c].agent == w.rows[c].agent && w1.rows[c].maxAttempts == w.rows[c].maxAttempts
      && Bound(w1, c) >= Bound(w, c)
  }

  lemma GrowsKeepsThread(w: World, w1: World, th: Thread)
    requires Grows(w, w1) && ThreadOk(w, th)
    ensures ThreadOk(w1, th)
  {
  }

  /** The effect stores only a row, and leaves only goroutines, that keep the bounds. */
  ghost predicate Sound(w: World, e: Effect) {
    && (e.write.Some? ==>
          var k := e.write.value;
          k.id in w.rows ==> Within(w, k) && (k.status == Pending && !e.putBack ==> Below(w, k)))
    && (forall t :: t in e.threads ==>
          ThreadOk(w, e.threads[t]) || (e.write.Some? && e.write.value.id !in w.rows &&
              e.threads[t] == Spawning(e.write.value)))
    && (e.started.Some? ==> e.started.value in w.rows)
  }

  predicate Witness(th: Thread, c: Id, agent: Id) {
    Outstanding(th, c) || th == Listing(agent)
  }

  /** Whatever covered a pending row the effect does not write covers it still. */
  ghost predicate Carries(w: World, e: Effect) {
    forall t, c ::
      t in w.threads && (t in e.ended || t in e.threads) && c in w.rows && Witness(w.threads[t], c, w.rows[c].agent) &&
      w.rows[c].status == Pending && w.rows[c].agent in w.registry && !(e.write.Some? && e.write.value.id == c) ==>
        t in e.threads && Witness(e.threads[t], c, w.rows[c].agent)
  }

  /** A row the effect leaves pending, and an agent it connects, get a goroutine of their own. */
  ghost predicate Provides(w: World, e: Effect) {
    && (e.write.Some? && e.write.value.status == Pending ==>
          e.putBack || exists t :: t in e.threads && Outstanding(e.threads[t], e.write.value.id))
    && (forall a :: (a in e.registry && a !in w.registry) || e.scans == Some(a) ==>
          exists t :: t in e.threads && e.threads[t] == Listing(a))
  }

  ghost predicate Fine(w: World, e: Effect) {
    Sound(w, e) && Carries(w, e) && Provides(w, e)
  }

  lemma SoundKeepsBounds(w: World, e: Effect)
    requires Bounded(w) && Sound(w, e)
    ensures Bounded(Commit(w, e))
  {
    var w1 := Commit(w, e);
    assert Grows(w, w1);
    forall t | t in w1.threads ensures ThreadOk(w1, w1.threads[t]) {
      if t !in e.threads {
        GrowsKeepsThread(w, w1, w.threads[t]);
      } else if ThreadOk(w, e.threads[t]) {
        GrowsKeepsThread(w, w1, e.threads[t]);
      }
    }
    forall c | c in w1.rows ensures RowBounded(w1, c) {
      assert c in w.rows ==> RowBounded(w, c);
    }
  }

  lemma WitnessCovers(w: World, t: nat, c: Id)
    requires c in w.rows && t in w.threads && Witness(w.threads[t], c, w.rows[c].agent)
    ensures Covered(w, c)
  {
  }

  lemma WrittenIsCovered(w: World, e: Effect)
    requires Provides(w, e) && e.write.Some? && e.write.value.status == Pending
    ensures Covered(Commit(w, e), e.write.value.id)
  {
    if !e.putBack {
      var t :| t in e.threads && Outstanding(e.threads[t], e.write.value.id);
      WitnessCovers(Commit(w, e), t, e.write.value.id);
    }
  }

  lemma UnwrittenIsCovered(w: World, e: Effect, c: Id)
    requires NothingMissed(w) && Carries(w, e) && Provides(w, e)
    requires c in w.rows && w.rows[c].status == Pending && w.rows[c].agent in e.registry
    requires !(e.write.Some? && e.write.value.id == c)
    ensures Covered(Commit(w, e), c)
  {
    var w1 := Commit(w, e);
    assert w1.rows[c] == w.rows[c];
    if w.rows[c].agent !in w.registry || e.scans == Some(w.rows[c].agent) {
      var t :| t in e.threads && e.threads[t] == Listing(w.rows[c].agent);
      WitnessCovers(w1, t, c);
    } else if c !in w.reverted {
      assert Covered(w, c);
      var t :| t in w.threads && Witness(w.threads[t], c, w.rows[c].agent);
      if t in e.threads || t in e.ended {
        assert t in e.threads && Witness(e.threads[t], c, w.rows[c].agent) && w1.threads[t] == e.threads[t];
      } else {
        assert w1.threads[t] == w.threads[t];
      }
      WitnessCovers(w1, t, c);
    }
  }

  lemma FineKeepsInv(w: World, e: Effect)
    requires Inv(w) && Fine(w, e)
    ensures Inv(Commit(w, e))
  {
    var w1 := Commit(w, e);
    SoundKeepsBounds(w, e);
    forall c | c in w1.rows && w1.rows[c].status == Pending && w1.rows[c].agent in w1.registry ensures Covered(w1, c) {
      if e.write.Some? && e.write.value.id == c {
        WrittenIsCovered(w, e);
      } else {
        UnwrittenIsCovered(w, e, c);
      }
    }
  }

  // ----- the effects are fine

  lemma ScanKeeps(todo: seq<Command>, c: Id)
    requires Among(todo, c)
    ensures Scan(todo).Some? && Outstanding(Scan(todo).value, c)
  {
    var i :| 0 <= i < |todo| && todo[i].id == c;
    assert i > 0 ==> todo[1..][i - 1].id == c;
  }

  lemma ScansKeep(todo: seq<Command>)
    ensures forall c :: Among(todo, c) ==> Scan(todo).Some? && Outstanding(Scan(todo).value, c)
  {
    forall c | Among(todo, c) ensures Scan(todo).Some? && Outstanding(Scan(todo).value, c) {
      ScanKeeps(todo, c);
    }
  }

  lemma CreateIsFine(w: World, t: nat, cmd: Command, now: int)
    requires Bounded(w) && cmd.id !in w.rows && t !in w.threads
    ensures Fine(w, CreateEffect(w, t, cmd, now))
  {
    var e := CreateEffect(w, t, cmd, now);
    assert Outstanding(e.threads[t], cmd.id);
  }

  lemma SpawnIsFine(w: World, t: nat)
    requires Bounded(w) && t in w.threads && w.threads[t].Spawning?
    ensures Fine(w, SpawnEffect(w, t))
  {
    var e := SpawnEffect(w, t);
    assert ThreadOk(w, w.threads[t]);
  }

  lemma LoadIsFine(w: World, t: nat, now: int)
    requires Bounded(w) && AttemptIn(w, t, Start)
    ensures Fine(w, LoadEffect(w, t, now))
  {
    var e := LoadEffect(w, t, now);
    assert ThreadOk(w, w.threads[t]);
    ScansKeep(w.threads[t].rest);
  }

  lemma SaveIsFine(w: World, t: nat)
    requires Bounded(w) && AttemptIn(w, t, Loaded)
    ensures Fine(w, SaveEffect(w, t))
  {
    var e := SaveEffect(w, t);
    assert ThreadOk(w, w.threads[t]);
  }

  lemma SendIsFine(w: World, t: nat, m: nat)
    requires Bounded(w) && AttemptIn(w, t, Sending) && w.threads[t].chan in w.channels && m !in w.threads
    ensures Fine(w, SendEffect(w, t, m))
  {
    var th := w.threads[t];
    assert ThreadOk(w, th);
    if |w.channels[th.chan].buffer| < SEND_BUFFER {
      SendQueuesIsFine(w, t, m, SendEffect(w, t, m));
    } else {
      SendRevertsIsFine(w, t, Attempting(Reverting, th.cmd.(status := Pending), th.chan, th.rest));
    }
  }

  lemma SendRevertsIsFine(w: World, t: nat, next: Thread)
    requires AttemptIn(w, t, Sending) && ThreadOk(w, w.threads[t])
    requires next == w.threads[t].(phase := Reverting, cmd := w.threads[t].cmd.(status := Pending))
    ensures Fine(w, Becomes(Nothing(w), t, Some(next)))
  {
  }

  lemma SendQueuesIsFine(w: World, t: nat, m: nat, e: Effect)
    requires AttemptIn(w, t, Sending) && ThreadOk(w, w.threads[t]) && m !in w.threads
    requires e.write.None? && e.registry == w.registry
    requires Becomes(Becomes(Nothing(w), t, Scan(w.threads[t].rest)), m, Some(Message(w.threads[t].cmd.id, false))) ==
             e.(channels := w.channels)
    ensures Fine(w, e)
  {
    ScansKeep(w.threads[t].rest);
  }

  lemma PutBackIsFine(w: World, t: nat)
    requires Bounded(w) && AttemptIn(w, t, Reverting)
    ensures Fine(w, PutBackEffect(w, t))
  {
    var e := PutBackEffect(w, t);
    assert ThreadOk(w, w.threads[t]);
    ScansKeep(w.threads[t].rest);
  }

  lemma AnswerIsFine(w: World, t: nat, now: int)
    requires Bounded(w) && t in w.threads && w.threads[t].Reporting?
    ensures Fine(w, AnswerEffect(w, t, now))
  {
    var e := AnswerEffect(w, t, now);
    assert ThreadOk(w, w.threads[t]);
    assert t in e.threads ==> Outstanding(e.threads[t], e.write.value.id);
  }

  lemma SweepNextIsFine(w: World, t: nat)
    requires Bounded(w) && t in w.threads && w.threads[t].Sweeping? && w.threads[t].todo != []
    ensures Fine(w, SweepNextEffect(w, t))
  {
    var e := SweepNextEffect(w, t);
    assert ThreadOk(w, w.threads[t]);
  }

  lemma ConsumeIsFine(w: World, m: nat, t: nat)
    requires Bounded(w) && m in w.threads && w.threads[m].Running? && w.threads[m].outbox != [] && t !in w.threads
    ensures Fine(w, ConsumeEffect(w, m, t))
  {
    assert ThreadOk(w, w.threads[m]);
    var e := ConsumeEffect(w, m, t);
  }

  lemma RegisterIsFine(w: World, t: nat, agent: Id, chan: Id)
    requires t !in w.threads
    ensures Fine(w, RegisterEffect(w, t, agent, chan))
  {
    assert RegisterEffect(w, t, agent, chan).threads[t] == Listing(agent);
  }

  lemma ListIsFine(w: World, t: nat, listed: seq<Command>)
    requires Bounded(w)
    requires t in w.threads && w.threads[t].Listing? && ListsPending(w.rows, listed, w.threads[t].agent)
    ensures Fine(w, Becomes(Nothing(w), t, Scan(listed)))
  {
    forall i | 0 <= i < |listed| ensures Below(w, listed[i]) {
      assert RowBounded(w, listed[i].id);
    }
    forall c | c in w.rows && w.threads[t] == Listing(w.rows[c].agent) && w.rows[c].status == Pending
      ensures Scan(listed).Some? && Outstanding(Scan(listed).value, c)
    {
      assert w.rows[c] in listed && RowBounded(w, c);
      var i :| 0 <= i < |listed| && listed[i] == w.rows[c];
      ScanKeeps(listed, c);
    }
  }

  predicate OfAttempt(s: Step) {
    s.Spawn? || s.Load? || s.Save? || s.Send? || s.PutBack?
  }

  predicate OfHandler(s: Step) {
    s.Create? || s.Register? || s.List? || s.Answer? || s.SweepNext? || s.Consume?
  }

  lemma AttemptStepIsFine(w: World, s: Step)
    requires Bounded(w) && Enabled(w, s) && OfAttempt(s)
    ensures Fine(w, EffectOf(w, s))
  {
    match s
    case Spawn(t) => SpawnIsFine(w, t);
    case Load(t, now) => LoadIsFine(w, t, now);
    case Save(t) => SaveIsFine(w, t);
    case Send(t, m) => SendIsFine(w, t, m);
    case PutBack(t) => PutBackIsFine(w, t);
  }

  lemma HandlerStepIsFine(w: World, s: Step)
    requires Bounded(w) && Enabled(w, s) && OfHandler(s)
    ensures Fine(w, EffectOf(w, s))
  {
    match s
    case Create(t, cmd, now) => CreateIsFine(w, t, cmd, now);
    case Register(t, agent, chan) => RegisterIsFine(w, t, agent, chan);
    case List(t, listed) => ListIsFine(w, t, listed);
    case Answer(t, now) => AnswerIsFine(w, t, now);
    case SweepNext(t) => SweepNextIsFine(w, t);
    case Consume(m, t) => ConsumeIsFine(w, m, t);
  }

  /** Steps of a message or of the agent's execution touch neither rows nor attempts. */
  lemma MessageMoveIsFine(w: World, e: Effect, m: nat)
    requires m in w.threads && ThreadOk(w, w.threads[m]) && (w.threads[m].Message? || w.threads[m].Running?)
    requires e.write.None? && e.registry == w.registry && e.ended <= {m} && e.threads.Keys <= {m}
    requires m in e.threads ==>
               (e.threads[m].Message? || e.threads[m].Running?) && e.threads[m].about == w.threads[m].about
    requires e.scans.None? && (e.started.Some? ==> e.started.value == w.threads[m].about)
    ensures Fine(w, e)
  {
  }

  lemma AgentStepIsFine(w: World, s: Step)
    requires Bounded(w) && Enabled(w, s) && (s.Transmit? || s.Receive? || s.Lose? || s.Announce? || s.Finish?)
    ensures Fine(w, EffectOf(w, s))
  {
    MessageMoveIsFine(w, EffectOf(w, s), if s.Transmit? then w.channels[s.chan].buffer[0] else s.m);
  }

  lemma QuietStepIsFine(w: World, s: Step)
    requires Bounded(w) && Enabled(w, s) && (s.Unregister? || s.Close? || s.Read? || s.SweepList?)
    ensures Fine(w, EffectOf(w, s))
  {
    if s.Read? || s.SweepList? {
      forall c | c in w.rows ensures Within(w, w.rows[c]) {
        assert RowBounded(w, c);
      }
    }
  }

  lemma StepKeepsInv(w: World, s: Step)
    requires Inv(w) && Enabled(w, s)
    ensures Inv(Apply(w, s))
  {
    if OfAttempt(s) {
      AttemptStepIsFine(w, s);
    } else if OfHandler(s) {
      HandlerStepIsFine(w, s);
    } else if s.Unregister? || s.Close? || s.Read? || s.SweepList? {
      QuietStepIsFine(w, s);
    } else {
      AgentStepIsFine(w, s);
    }
    FineKeepsInv(w, EffectOf(w, s));
  }

  // ----- every run

  lemma RunFirst(w: World, s: Step, rest: seq<Step>)
    requires Enabled(w, s) && Runs(Apply(w, s), rest)
    ensures Runs(w, [s] + rest) && After(w, [s] + rest) == After(Apply(w, s), rest)
  {
    assert ([s] + rest)[1..] == rest;
  }

  lemma {:induction false} RunKeepsInv(w: World, steps: seq<Step>)
    requires Inv(w) && Runs(w, steps)
    ensures Inv(After(w, steps))
    decreases |steps|
  {
    if steps != [] {
      StepKeepsInv(w, steps[0]);
      RunKeepsInv(Apply(w, steps[0]), steps[1..]);
    }
  }

  /** After any interleaving, a row that is pending while its agent is connected still has a goroutine that
      will try it, or a scan that has not listed yet, or was last written by the full-buffer branch since the
      agent's latest connection: a reconnect takes up whatever was put back before it. */
  lemma NoCommandIsMissed(steps: seq<Step>)
    requires Runs(INITIAL, steps)
    ensures var w := After(INITIAL, steps);
            forall c :: c in w.rows && w.rows[c].status == Pending && w.rows[c].agent in w.registry ==>
              || c in w.reverted
              || (exists t :: t in w.threads && Outstanding(w.threads[t], c))
              || (exists t :: t in w.threads && w.threads[t] == Listing(w.rows[c].agent))
  {
    RunKeepsInv(INITIAL, steps);
    var w := After(INITIAL, steps);
    forall c | c in w.rows && w.rows[c].status == Pending && w.rows[c].agent in w.registry ensures Covered(w, c) {
    }
  }

  /** Once no attempt and no scan is left, a connected agent's pending rows are ones that the full buffer put back
      on its present connection. */
  lemma QuietMeansDelivered(steps: seq<Step>, agent: Id)
    requires Runs(INITIAL, steps)
    requires agent in After(INITIAL, steps).registry
    requires var w := After(INITIAL, steps);
             forall t :: t in w.threads ==>
               !w.threads[t].Spawning? && !w.threads[t].Attempting? && w.threads[t] != Listing(agent)
    ensures var w := After(INITIAL, steps);
            forall c :: c in w.rows && w.rows[c].agent == agent && w.rows[c].status == Pending ==> c in w.reverted
  {
    NoCommandIsMissed(steps);
  }

  // ----- attempts

  lemma OnlyCreateAddsRows(w: World, s: Step)
    requires Bounded(w) && Enabled(w, s) && !s.Create? && EffectOf(w, s).write.Some?
    ensures EffectOf(w, s).write.value.id in w.rows
  {
    assert s.Save? || s.PutBack? || s.Answer? || s.SweepNext?;
    assert ThreadOk(w, w.threads[s.t]);
  }

  lemma LimitsChange(w: World, s: Step)
    requires Bounded(w) && Enabled(w, s)
    ensures Apply(w, s).limits ==
            if s.Create? then w.limits[s.cmd.id := Limit(Accepted(s.cmd, s.now))] else w.limits
  {
    var e := EffectOf(w, s);
    if s.Create? {
      assert e.write == Some(Accepted(s.cmd, s.now));
    } else if e.write.Some? {
      OnlyCreateAddsRows(w, s);
    }
    assert Commit(w, e).limits == if e.write.Some? then Limited(w, e.write.value) else w.limits;
  }

  /** How often the command handed in may be attempted: its limit, three times without one, and once even if it
      comes with its attempts used up. */
  function Allowance(cmd: Command): int {
    var limit := if cmd.maxAttempts == 0 then 3 else cmd.maxAttempts;
    if limit > cmd.attempts then limit else cmd.attempts + 1
  }

  /** The step with which the run created c, and how often that lets it be attempted. */
  ghost predicate CreatedWith(steps: seq<Step>, c: Id, limit: int) {
    exists i :: 0 <= i < |steps| && steps[i].Create? && steps[i].cmd.id == c &&
                limit == Allowance(steps[i].cmd)
  }

  lemma {:induction false} LimitsComeFromCreation(w: World, steps: seq<Step>, c: Id)
    requires Inv(w) && Runs(w, steps) && c in After(w, steps).limits
    ensures (c in w.limits && After(w, steps).limits[c] == w.limits[c]) ||
            CreatedWith(steps, c, After(w, steps).limits[c])
    decreases |steps|
  {
    if steps != [] {
      StepKeepsInv(w, steps[0]);
      LimitsChange(w, steps[0]);
      LimitsComeFromCreation(Apply(w, steps[0]), steps[1..], c);
      var limit := After(w, steps).limits[c];
      if CreatedWith(steps[1..], c, limit) {
        var i :| && 0 <= i < |steps[1..]| && steps[1..][i].Create? && steps[1..][i].cmd.id == c
                 && limit == Allowance(steps[1..][i].cmd);
        assert steps[i + 1] == steps[1..][i];
      }
    }
  }

  ghost predicate AttemptedWithin(w: World, c: Id, limit: int)
    requires c in w.rows
  {
    var bound := limit + CountOf(w.reverts, c);
    && w.rows[c].attempts <= bound
    && (w.rows[c].status == Pending ==> w.rows[c].attempts < bound)
    && (forall t :: t in w.threads && w.threads[t].Spawning? && w.threads[t].cmd.id == c ==>
          w.threads[t].cmd.attempts < bound)
    && (forall t :: t in w.threads && AttemptIn(w, t, Start) && w.threads[t].cmd.id == c ==>
          w.threads[t].cmd.attempts < bound)
  }

  /** However the goroutines interleave and however stale their copies, no row is ever attempted more often than
      the command it was created with allows plus the times the full buffer put it back, and a pending row, or a
      copy about to be tried, strictly less. A new command with a positive limit allows just that many. */
  lemma AttemptsAreBounded(steps: seq<Step>, c: Id)
    requires Runs(INITIAL, steps) && c in After(INITIAL, steps).rows
    ensures exists limit :: CreatedWith(steps, c, limit) && AttemptedWithin(After(INITIAL, steps), c, limit)
  {
    RunKeepsInv(INITIAL, steps);
    var w := After(INITIAL, steps);
    assert RowBounded(w, c);
    assert forall t :: t in w.threads ==> ThreadOk(w, w.threads[t]);
    LimitsComeFromCreation(INITIAL, steps, c);
    assert CreatedWith(steps, c, w.limits[c]) && AttemptedWithin(w, c, w.limits[c]);
  }
}
