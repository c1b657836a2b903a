/** Terminal rows are not final under every interleaving: when they change, and when they never do. */
module CommandBusTerminal {
  import opened Wrappers
  import opened CommandBus
  import opened CommandBusSafety
  import opened CommandBusStable

  /** A goroutine that still has a copy of the row it may write. */
  predicate HoldsCopy(th: Thread, c: Id) {
    Mentions(th, c) && !th.Message? && !th.Running?
  }

  ghost predicate NoCopies(w: World, c: Id) {
    forall t :: t in w.threads ==> !HoldsCopy(w.threads[t], c)
  }

  /** Storing the answer to this report over a terminal row changes the row's status. */
  predicate AnswerRestates(row: Command, cmd: Command, report: Report) {
    match report
    case SaysExecuting => true
    case SaysCompleted(_) => row.status != Completed
    case SaysFailed(_) => cmd.attempts < cmd.maxAttempts || row.status != DeadLetter
    case SaysOther => false
  }

  /** Where it keeps the status, it still changes what the report brings, or a field in which the copy is out of
      date. */
  predicate AnswerRewrites(row: Command, cmd: Command, report: Report, now: int) {
    || AnswerRestates(row, cmd, report)
    || match report
       case SaysExecuting => false
       case SaysCompleted(result) =>
         || row.result != result || row.completedAt != Some(now)
         || row != cmd.(status := row.status, completedAt := row.completedAt, result := row.result)
       case SaysFailed(error) =>
         row.lastError != error || row != cmd.(status := row.status, lastError := row.lastError)
       case SaysOther => false
  }

  /** The same for the timeout monitor, which looks only at the copy it listed. */
  predicate TimeoutRewrites(row: Command, cmd: Command) {
    || row.status != Timeout || row.lastError != "execution timed out"
    || row != cmd.(status := row.status, lastError := row.lastError)
  }

  predicate Tries(w: World, t: nat, phase: Phase, c: Id) {
    AttemptIn(w, t, phase) && w.threads[t].cmd.id == c
  }

  predicate Reports(w: World, t: nat, c: Id) {
    t in w.threads && w.threads[t].Reporting? && w.threads[t].cmd.id == c
  }

  predicate SweepsOver(w: World, t: nat, c: Id) {
    && t in w.threads && w.threads[t].Sweeping? && w.threads[t].todo != [] && w.threads[t].todo[0].id == c
    && Overdue(w.threads[t].todo[0], w.threads[t].now)
  }

  /** The step stores an older copy of c under another status. */
  predicate Restates(w: World, s: Step, c: Id)
    requires c in w.rows
  {
    match s
    case Save(t) => Tries(w, t, Loaded, c)
    case PutBack(t) => Tries(w, t, Reverting, c)
    case Answer(t, _) => Reports(w, t, c) && AnswerRestates(w.rows[c], w.threads[t].cmd, w.threads[t].report)
    case SweepNext(t) => SweepsOver(w, t, c) && w.rows[c].status != Timeout
    case _ => false
  }

  /** The step stores an older copy of c that differs from the row in any way. */
  predicate Rewrites(w: World, s: Step, c: Id)
    requires c in w.rows
  {
    match s
    case Save(t) => Tries(w, t, Loaded, c)
    case PutBack(t) => Tries(w, t, Reverting, c)
    case Answer(t, now) => Reports(w, t, c) && AnswerRewrites(w.rows[c], w.threads[t].cmd, w.threads[t].report, now)
    case SweepNext(t) => SweepsOver(w, t, c) && TimeoutRewrites(w.rows[c], w.threads[t].todo[0])
    case _ => false
  }

  ghost predicate ChangesExactly(w: World, s: Step, c: Id)
    requires Enabled(w, s) && c in w.rows
  {
    var w1 := Apply(w, s);
    && c in w1.rows
    && (w1.rows[c] != w.rows[c] <==> Rewrites(w, s, c))
    && (w1.rows[c].status != w.rows[c].status <==> Restates(w, s, c))
  }

  lemma UnwrittenRowsStay(w: World, s: Step)
    requires Enabled(w, s) && !s.Create? && !s.Save? && !s.PutBack? && !s.Answer? && !s.SweepNext?
    ensures EffectOf(w, s).write.None?
  {
  }

  lemma AttemptRowChanges(w: World, s: Step, c: Id)
    requires Inv(w) && Enabled(w, s) && c in w.rows && Terminal(w.rows[c].status) && (s.Save? || s.PutBack?)
    ensures ChangesExactly(w, s, c)
  {
    assert ThreadOk(w, w.threads[s.t]);
  }

  lemma AnswerRowChanges(w: World, t: nat, now: int, c: Id)
    requires Inv(w) && Enabled(w, Answer(t, now)) && c in w.rows && Terminal(w.rows[c].status)
    ensures ChangesExactly(w, Answer(t, now), c)
  {
    assert ThreadOk(w, w.threads[t]);
    var cmd, report := w.threads[t].cmd, w.threads[t].report;
    assert Commit(w, AnswerEffect(w, t, now)).rows == w.rows[cmd.id := Answered(cmd, report, now)];
  }

  lemma SweepRowChanges(w: World, t: nat, c: Id)
    requires Enabled(w, SweepNext(t)) && c in w.rows
    ensures ChangesExactly(w, SweepNext(t), c)
  {
  }

  /** One step changes a terminal row exactly when it stores somebody's older copy that differs from it, and takes it
      out of its terminal status exactly when that copy is stored under another one. */
  lemma TerminalChangesExactly(w: World, s: Step, c: Id)
    requires Inv(w) && Enabled(w, s) && c in w.rows && Terminal(w.rows[c].status)
    ensures c in Apply(w, s).rows
    ensures Apply(w, s).rows[c] != w.rows[c] <==> Rewrites(w, s, c)
    ensures Apply(w, s).rows[c].status != w.rows[c].status <==> Restates(w, s, c)
  {
    if s.Save? || s.PutBack? {
      AttemptRowChanges(w, s, c);
    } else if s.Answer? {
      AnswerRowChanges(w, s.t, s.now, c);
    } else if s.SweepNext? {
      SweepRowChanges(w, s.t, c);
    } else if !s.Create? {
      UnwrittenRowsStay(w, s);
    }
  }

  // ----- with no copy left, terminal is final

  ghost predicate LeavesAlone(w: World, e: Effect, c: Id) {
    && (e.write.Some? ==> e.write.value.id != c)
    && (forall t :: t in e.threads ==> !HoldsCopy(e.threads[t], c))
  }

  lemma AttemptLeavesAlone(w: World, s: Step, c: Id)
    requires Enabled(w, s) && NoCopies(w, c) && OfAttempt(s)
    ensures LeavesAlone(w, EffectOf(w, s), c)
  {
    assert !HoldsCopy(w.threads[s.t], c);
    if !s.Spawn? {
      ScanMentions(w.threads[s.t].rest, c);
    }
  }

  lemma ScanLeavesAlone(w: World, t: nat, listed: seq<Command>, c: Id)
    requires Bounded(w) && c in w.rows && Terminal(w.rows[c].status)
    requires t in w.threads && w.threads[t].Listing? && ListsPending(w.rows, listed, w.threads[t].agent)
    ensures LeavesAlone(w, Becomes(Nothing(w), t, Scan(listed)), c)
  {
    assert !Among(listed, c);
    ScanMentions(listed, c);
  }

  lemma ConsumeLeavesAlone(w: World, m: nat, t: nat, c: Id)
    requires Bounded(w) && c in w.rows && Terminal(w.rows[c].status)
    requires m in w.threads && w.threads[m].Running? && w.threads[m].outbox != []
    ensures LeavesAlone(w, ConsumeEffect(w, m, t), c)
  {
    var th := w.threads[m];
    var e := ConsumeEffect(w, m, t);
    assert e.write.None? && e.threads.Keys <= {m, t};
    if Heeds(w, th.about, th.outbox[0]) {
      assert RowBounded(w, th.about);
      assert e.threads[t] == Reporting(w.rows[th.about], th.outbox[0]) && th.about != c;
    }
    assert t != m && m in e.threads ==> e.threads[m].Running?;
  }

  lemma SweepLeavesAlone(w: World, t: nat, c: Id)
    requires NoCopies(w, c) && t in w.threads && w.threads[t].Sweeping? && w.threads[t].todo != []
    ensures LeavesAlone(w, SweepNextEffect(w, t), c)
  {
    assert !HoldsCopy(w.threads[t], c);
    ScanMentions(w.threads[t].todo, c);
  }

  lemma HandlerLeavesAlone(w: World, s: Step, c: Id)
    requires Bounded(w) && Enabled(w, s) && NoCopies(w, c) && c in w.rows && Terminal(w.rows[c].status)
    requires s.List? || s.SweepNext? || s.Consume?
    ensures LeavesAlone(w, EffectOf(w, s), c)
  {
    match s
    case List(t, listed) => ScanLeavesAlone(w, t, listed, c);
    case SweepNext(t) => SweepLeavesAlone(w, t, c);
    case Consume(m, t) => ConsumeLeavesAlone(w, m, t, c);
  }

  lemma TableLeavesAlone(w: World, s: Step, c: Id)
    requires Enabled(w, s) && NoCopies(w, c) && c in w.rows && (s.Create? || s.Answer?)
    ensures LeavesAlone(w, EffectOf(w, s), c)
  {
    assert s.Answer? ==> !HoldsCopy(w.threads[s.t], c);
  }

  lemma QuietLeavesAlone(w: World, s: Step, c: Id)
    requires Bounded(w) && Enabled(w, s) && c in w.rows && Terminal(w.rows[c].status)
    requires !OfAttempt(s) && !s.Create? && !s.List? && !s.Answer? && !s.SweepNext? && !s.Consume?
    ensures LeavesAlone(w, EffectOf(w, s), c)
  {
    if s.Read? {
      assert RowBounded(w, s.about);
    } else if s.SweepList? {
      assert !Among(s.active, c);
    }
  }

  lemma StepLeavesAlone(w: World, s: Step, c: Id)
    requires Bounded(w) && Enabled(w, s) && NoCopies(w, c) && c in w.rows && Terminal(w.rows[c].status)
    ensures NoCopies(Apply(w, s), c) && c in Apply(w, s).rows && Apply(w, s).rows[c] == w.rows[c]
  {
    if OfAttempt(s) {
      AttemptLeavesAlone(w, s, c);
    } else if s.List? || s.SweepNext? || s.Consume? {
      HandlerLeavesAlone(w, s, c);
    } else if s.Create? || s.Answer? {
      TableLeavesAlone(w, s, c);
    } else {
      QuietLeavesAlone(w, s, c);
    }
    CommitLeavesAlone(w, EffectOf(w, s), c);
  }

  lemma CommitLeavesAlone(w: World, e: Effect, c: Id)
    requires NoCopies(w, c) && c in w.rows && LeavesAlone(w, e, c)
    ensures NoCopies(Commit(w, e), c) && c in Commit(w, e).rows && Commit(w, e).rows[c] == w.rows[c]
  {
  }

  /** A terminal row of which no goroutine has a copy never changes again, whatever anybody does. */
  lemma {:induction false} TerminalWithoutCopiesIsFinal(w: World, steps: seq<Step>, c: Id)
    requires Inv(w) && Runs(w, steps) && NoCopies(w, c) && c in w.rows && Terminal(w.rows[c].status)
    ensures c in After(w, steps).rows && After(w, steps).rows[c] == w.rows[c]
    decreases |steps|
  {
    if steps != [] {
      StepKeepsInv(w, steps[0]);
      StepLeavesAlone(w, steps[0], c);
      TerminalWithoutCopiesIsFinal(Apply(w, steps[0]), steps[1..], c);
    }
  }

  // ----- with a copy left, it is not

  ghost predicate Reachable(w: World) {
    exists steps :: Runs(INITIAL, steps) && After(INITIAL, steps) == w
  }

  lemma {:induction false} RunLast(w: World, steps: seq<Step>, s: Step)
    requires Runs(w, steps) && Enabled(After(w, steps), s)
    ensures Runs(w, steps + [s]) && After(w, steps + [s]) == Apply(After(w, steps), s)
    decreases |steps|
  {
    if steps == [] {
      RunFirst(w, s, []);
      assert steps + [s] == [s] + [];
    } else {
      var w1 := Apply(w, steps[0]);
      RunLast(w1, steps[1..], s);
      RunFirst(w, steps[0], steps[1..] + [s]);
      assert steps + [s] == [steps[0]] + (steps[1..] + [s]);
    }
  }

  ghost predicate Alike(w: World, w1: World) {
    && w.rows == w1.rows && w.registry == w1.registry && w.channels == w1.channels && w.threads == w1.threads
    && w.reverts == w1.reverts && w.reverted == w1.reverted && w.executions == w1.executions && w.limits == w1.limits
  }

  ghost predicate Leads(w: World, s: Step, w1: World) {
    Enabled(w, s) && Apply(w, s) == w1
  }

  lemma Reach(w: World, s: Step, w1: World)
    requires Reachable(w) && Leads(w, s, w1)
    ensures Reachable(w1)
  {
    var steps :| Runs(INITIAL, steps) && After(INITIAL, steps) == w;
    RunLast(INITIAL, steps, s);
  }

  const LATE := 200 * SECOND
  const JOB := Command("c", "a", "", "", Pending, 120, 0, 3, 0, None, None, None, "", "")
  const SENT_JOB := JOB.(status := Dispatched, dispatchedAt := Some(0), attempts := 1)

  function Trying(phase: Phase): Thread {
    match phase
    case Start => Attempting(Start, JOB, "", [])
    case _ => Attempting(phase, SENT_JOB, "ch", [])
  }

  /** One agent on one connection, at most one command, nothing sent yet. */
  function Early(row: Option<Command>, threads: map<nat, Thread>): World {
    World(if row.Some? then map["c" := row.value] else map[], map["a" := "ch"], map["ch" := Channel([], false)],
          threads, map[], {}, map[], if row.Some? then map["c" := 3] else map[])
  }

  const W1 := Early(None, map[0 := Listing("a")])
  const W2 := Early(Some(JOB), map[0 := Listing("a"), 1 := Spawning(JOB)])
  const W3 := Early(Some(JOB), map[0 := Trying(Start), 1 := Spawning(JOB)])
  const W4 := Early(Some(JOB), map[0 := Trying(Start), 1 := Trying(Start)])
  const W5 := Early(Some(JOB), map[0 := Trying(Loaded), 1 := Trying(Start)])
  const W6 := Early(Some(JOB), map[0 := Trying(Loaded), 1 := Trying(Loaded)])
  const W7 := Early(Some(SENT_JOB), map[0 := Trying(Sending), 1 := Trying(Loaded)])
  const W8 := Early(Some(SENT_JOB), map[0 := Trying(Sending), 1 := Trying(Loaded), 2 := Sweeping(LATE, [SENT_JOB])])
  const W9 := Early(Some(TimedOut(SENT_JOB)), map[0 := Trying(Sending), 1 := Trying(Loaded)])

  lemma Connects()
    ensures Leads(INITIAL, Register(0, "a", "ch"), W1)
  {
    assert Alike(Commit(INITIAL, EffectOf(INITIAL, Register(0, "a", "ch"))), W1);
  }

  lemma Stores()
    ensures Leads(W1, Create(1, JOB, 0), W2)
  {
    assert Alike(Commit(W1, EffectOf(W1, Create(1, JOB, 0))), W2);
  }

  lemma Scans()
    ensures Leads(W2, List(0, [JOB]), W3)
  {
    assert [JOB][1..] == [];
    assert Alike(Commit(W2, EffectOf(W2, List(0, [JOB]))), W3);
  }

  lemma Spawns()
    ensures Leads(W3, Spawn(1), W4)
  {
    assert Alike(Commit(W3, EffectOf(W3, Spawn(1))), W4);
  }

  lemma ScanLoads()
    ensures Leads(W4, Load(0, 0), W5)
  {
    assert Alike(Commit(W4, EffectOf(W4, Load(0, 0))), W5);
  }

  lemma DispatchLoads()
    ensures Leads(W5, Load(1, 0), W6)
  {
    assert Alike(Commit(W5, EffectOf(W5, Load(1, 0))), W6);
  }

  lemma ScanSaves()
    ensures Leads(W6, Save(0), W7)
  {
    assert Alike(Commit(W6, EffectOf(W6, Save(0))), W7);
  }

  lemma MonitorLists()
    ensures Leads(W7, SweepList(2, LATE, [SENT_JOB]), W8)
  {
    assert Alike(Commit(W7, EffectOf(W7, SweepList(2, LATE, [SENT_JOB]))), W8);
  }

  lemma MonitorWrites()
    ensures Leads(W8, SweepNext(2), W9)
  {
    assert [SENT_JOB][1..] == [];
    assert Overdue(SENT_JOB, LATE);
    assert Alike(Commit(W8, EffectOf(W8, SweepNext(2))), W9);
  }

  /** The agent connects just before the command is stored, so its scan and Dispatch both try it; the scan's
      attempt is sent and times out while the other one has looked up the registry and not written yet. */
  lemma TimedOutIsReachable()
    ensures Reachable(W9)
  {
    assert Runs(INITIAL, []) && After(INITIAL, []) == INITIAL;
    Connects(); Reach(INITIAL, Register(0, "a", "ch"), W1);
    Stores(); Reach(W1, Create(1, JOB, 0), W2);
    Scans(); Reach(W2, List(0, [JOB]), W3);
    Spawns(); Reach(W3, Spawn(1), W4);
    ScanLoads(); Reach(W4, Load(0, 0), W5);
    DispatchLoads(); Reach(W5, Load(1, 0), W6);
    ScanSaves(); Reach(W6, Save(0), W7);
    MonitorLists(); Reach(W7, SweepList(2, LATE, [SENT_JOB]), W8);
    MonitorWrites(); Reach(W8, SweepNext(2), W9);
  }

  /** So terminal rows are not final in general: after this run the row is timed out, and the slower
      attempt's next step stores it as dispatched again. */
  lemma TimedOutCanBeDispatchedAgain()
    ensures exists steps :: Runs(INITIAL, steps) &&
              var w := After(INITIAL, steps);
              && Enabled(w, Save(1)) && "c" in w.rows && w.rows["c"].status == Timeout
              && Apply(w, Save(1)).rows["c"].status == Dispatched
  {
    TimedOutIsReachable();
    var steps :| Runs(INITIAL, steps) && After(INITIAL, steps) == W9;
    assert Apply(W9, Save(1)).rows["c"].status == Dispatched;
  }
}
