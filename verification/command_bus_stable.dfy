/**
 A command whose agent stays on one connection with room in the send buffer, while
 the bodies of HandleResult and of the timeout monitor run one at a time. All other
 commands and agents may take any step in between.
 */
module CommandBusStable {
  import opened Wrappers
  import opened CommandBus
  import opened CommandBusSafety

  /** The command followed, its agent, and the connection the agent stays on. */
  datatype Focus = Focus(id: Id, agent: Id, chan: Id)

  predicate Mentions(th: Thread, c: Id) {
    match th
    case Spawning(cmd) => cmd.id == c
    case Attempting(_, cmd, _, rest) => cmd.id == c || Among(rest, c)
    case Listing(_) => false
    case Reporting(cmd, _) => cmd.id == c
    case Sweeping(_, todo) => Among(todo, c)
    case Message(about, _) => about == c
    case Running(about, _, _, _) => about == c
  }

  predicate OutboxOk(th: Thread)
    requires th.Running?
  {
    if th.finished then
      th.announced && (th.outbox == [] || (|th.outbox| == 1 && Final(th.outbox[0])) ||
                       (|th.outbox| == 2 && th.outbox[0] == SaysExecuting && Final(th.outbox[1]))) && th.outbox != []
    else
      th.outbox == [] || (th.announced && th.outbox == [SaysExecuting])
  }

  /** What the command's one baton must look like, given its row. */
  predicate BatonOk(w: World, th: Thread, f: Focus)
    requires f.id in w.rows
  {
    var row := w.rows[f.id];
    match th
    case Spawning(cmd) => cmd == row && row.status == Pending && CountOf(w.executions, f.id) == row.attempts
    case Attempting(phase, cmd, chan, rest) =>
      && rest == []
      && match phase {
           case Start => cmd == row && row.status == Pending && CountOf(w.executions, f.id) == row.attempts
           case Loaded => cmd.(status := Pending, attempts := row.attempts, dispatchedAt := row.dispatchedAt) ==
             row && chan == f.chan &&
                          cmd.status == Dispatched && cmd.attempts == row.attempts + 1 && row.status == Pending &&
                          CountOf(w.executions, f.id) == row.attempts
           case Sending => cmd.id == f.id && row.status != Pending && chan == f.chan &&
             CountOf(w.executions, f.id) == row.attempts - 1
           case Reverting => false
         }
    case Message(_, _) => row.status != Pending && CountOf(w.executions, f.id) == row.attempts - 1
    case Running(_, _, _, _) => row.status != Pending && OutboxOk(th) && CountOf(w.executions, f.id) == row.attempts
    case _ => false
  }

  ghost predicate Connected(w: World, f: Focus) {
    && f.id in w.rows && w.rows[f.id].agent == f.agent
    && f.agent in w.registry && w.registry[f.agent] == f.chan
    && f.chan in w.channels && !w.channels[f.chan].closed
    && (forall t :: t in w.threads ==> w.threads[t] != Listing(f.agent))
  }

  ghost predicate Counted(w: World, f: Focus)
    requires f.id in w.rows
  {
    && CountOf(w.executions, f.id) <= w.rows[f.id].attempts <= w.rows[f.id].maxAttempts
    && (w.rows[f.id].status == Pending ==> w.rows[f.id].attempts < w.rows[f.id].maxAttempts)
  }

  /** b is the one goroutine or message that mentions the command; unless the row is terminal there is one. */
  ghost predicate StableAt(w: World, f: Focus, b: Option<nat>) {
    && Inv(w) && Connected(w, f) && Counted(w, f)
    && (b.Some? ==> b.value in w.threads && Mentions(w.threads[b.value], f.id) && BatonOk(w, w.threads[b.value], f))
    && (forall u :: u in w.threads && Mentions(w.threads[u], f.id) ==> b == Some(u))
    && (b.None? ==> Terminal(w.rows[f.id].status))
  }

  // ----- how far the command still has to go

  function Stage(th: Thread): nat {
    match th
    case Message(_, wired) => if wired then 8 else 9
    case Running(_, announced, finished, outbox) => 3 + (if announced then 0 else 2) + (if finished then 0 else 2)
      + |outbox|
    case Spawning(_) => 3
    case Attempting(phase, _, _, _) =>
      (match phase
       case Start => 2
       case Loaded => 1
       case Sending => 10
       case Reverting => 0)
    case _ => 0
  }

  function Rank(w: World, f: Focus, b: Option<nat>): int
    requires f.id in w.rows && (b.Some? ==> b.value in w.threads)
  {
    var row := w.rows[f.id];
    var stage := if b.Some? then Stage(w.threads[b.value]) else 0;
    if Terminal(row.status) then stage else (row.maxAttempts - row.attempts) * 11 + stage + 1
  }

  // ----- steps of others

  ghost predicate Ignores(w: World, e: Effect, f: Focus) {
    && (e.write.Some? ==> e.write.value.id != f.id)
    && (forall t :: t in w.threads && (t in e.ended || t in e.threads) ==> !Mentions(w.threads[t], f.id))
    && (forall t :: t in e.threads ==> !Mentions(e.threads[t], f.id) && e.threads[t] != Listing(f.agent))
    && f.agent in e.registry && e.registry[f.agent] == f.chan
    && f.chan in e.channels && !e.channels[f.chan].closed
    && e.started != Some(f.id)
  }

  lemma OthersKeep(w: World, e: Effect, f: Focus, b: Option<nat>)
    requires StableAt(w, f, b) && Inv(Commit(w, e)) && Ignores(w, e, f)
    ensures StableAt(Commit(w, e), f, b)
    ensures Commit(w, e).rows[f.id] == w.rows[f.id]
    ensures b.Some? ==> Commit(w, e).threads[b.value] == w.threads[b.value]
  {
    var w1 := Commit(w, e);
    assert CountOf(w1.executions, f.id) == CountOf(w.executions, f.id);
    if b.Some? {
      assert w1.threads[b.value] == w.threads[b.value];
    }
    forall u | u in w1.threads ensures (Mentions(w1.threads[u], f.id) ==> b == Some(u)) &&
        w1.threads[u] != Listing(f.agent) {
      if u !in e.threads {
        assert w1.threads[u] == w.threads[u];
      }
    }
  }

  predicate MentionedIn(w: World, t: nat, c: Id) {
    t in w.threads && Mentions(w.threads[t], c)
  }

  /** The step reads or writes the command's row or connection, or moves a goroutine or message about it. */
  predicate Concerns(w: World, s: Step, f: Focus) {
    match s
    case Create(_, cmd, _) => cmd.id == f.id
    case Spawn(t) => MentionedIn(w, t, f.id)
    case Load(t, _) => MentionedIn(w, t, f.id)
    case Save(t) => MentionedIn(w, t, f.id)
    case Send(t, _) => MentionedIn(w, t, f.id)
    case PutBack(t) => MentionedIn(w, t, f.id)
    case Register(_, agent, _) => agent == f.agent
    case List(_, _) => false
    case Unregister(agent) => agent == f.agent
    case Close(chan) => chan == f.chan
    case Read(_, about, _) => about == f.id
    case Answer(t, _) => MentionedIn(w, t, f.id)
    case SweepList(_, _, _) => true
    case SweepNext(t) => MentionedIn(w, t, f.id)
    case Transmit(chan) =>
      chan in w.channels && w.channels[chan].buffer != [] && MentionedIn(w, w.channels[chan].buffer[0], f.id)
    case Receive(m) => MentionedIn(w, m, f.id)
    case Lose(m) => MentionedIn(w, m, f.id)
    case Announce(m) => MentionedIn(w, m, f.id)
    case Finish(m, _) => MentionedIn(w, m, f.id)
    case Consume(m, _) => MentionedIn(w, m, f.id)
  }

  lemma ScanMentions(todo: seq<Command>, c: Id)
    requires !Among(todo, c)
    ensures Scan(todo).Some? ==> !Mentions(Scan(todo).value, c)
    ensures todo != [] ==> !Among(todo[1..], c)
  {
    if todo != [] {
      assert todo[0].id != c;
      forall i | 0 <= i < |todo| - 1 ensures todo[1..][i].id != c {
        assert todo[1..][i] == todo[i + 1];
      }
    }
  }

  lemma WriteIgnores(w: World, s: Step, f: Focus)
    requires Connected(w, f) && Enabled(w, s) && (s.Save? || s.Send?) && !Concerns(w, s, f)
    ensures Ignores(w, EffectOf(w, s), f)
  {
    ScanMentions(w.threads[s.t].rest, f.id);
  }

  lemma AttemptStepIgnores(w: World, s: Step, f: Focus)
    requires Bounded(w) && Connected(w, f) && Enabled(w, s) && OfAttempt(s) && !Concerns(w, s, f)
    ensures Ignores(w, EffectOf(w, s), f)
  {
    if s.Save? || s.Send? {
      WriteIgnores(w, s, f);
    } else if !s.Spawn? {
      ScanMentions(w.threads[s.t].rest, f.id);
    }
  }

  lemma ListIgnores(w: World, t: nat, listed: seq<Command>, f: Focus)
    requires Bounded(w) && Connected(w, f) && t in w.threads && w.threads[t].Listing?
    requires ListsPending(w.rows, listed, w.threads[t].agent)
    ensures Ignores(w, Becomes(Nothing(w), t, Scan(listed)), f)
  {
    assert RowBounded(w, f.id);
    assert !Among(listed, f.id);
    ScanMentions(listed, f.id);
  }

  lemma SweepNextIgnores(w: World, t: nat, f: Focus)
    requires Connected(w, f) && t in w.threads && w.threads[t].Sweeping? && w.threads[t].todo != []
    requires !Mentions(w.threads[t], f.id)
    ensures Ignores(w, SweepNextEffect(w, t), f)
  {
    ScanMentions(w.threads[t].todo, f.id);
  }

  lemma ConsumeIgnores(w: World, m: nat, t: nat, f: Focus)
    requires Bounded(w) && Connected(w, f) && m in w.threads && w.threads[m].Running? && w.threads[m].outbox != []
    requires !Mentions(w.threads[m], f.id) && t !in w.threads
    ensures Ignores(w, ConsumeEffect(w, m, t), f)
  {
    assert w.threads[m].about in w.rows ==> RowBounded(w, w.threads[m].about);
  }

  lemma HandlerStepIgnores(w: World, s: Step, f: Focus)
    requires Bounded(w) && Connected(w, f) && Enabled(w, s) && !Concerns(w, s, f)
    requires s.List? || s.SweepNext? || s.Consume?
    ensures Ignores(w, EffectOf(w, s), f)
  {
    match s
    case List(t, listed) => ListIgnores(w, t, listed, f);
    case SweepNext(t) => SweepNextIgnores(w, t, f);
    case Consume(m, t) => ConsumeIgnores(w, m, t, f);
  }

  lemma TableStepIgnores(w: World, s: Step, f: Focus)
    requires Connected(w, f) && Enabled(w, s) && !Concerns(w, s, f)
    requires s.Create? || s.Register? || s.Answer?
    ensures Ignores(w, EffectOf(w, s), f)
  {
  }

  lemma QuietStepIgnores(w: World, s: Step, f: Focus)
    requires Bounded(w) && Connected(w, f) && Enabled(w, s) && (s.Unregister? || s.Close? || s.Read?)
    requires !Concerns(w, s, f)
    ensures Ignores(w, EffectOf(w, s), f)
  {
    if s.Read? {
      assert RowBounded(w, s.about);
    }
  }

  lemma AgentStepIgnores(w: World, s: Step, f: Focus)
    requires Connected(w, f) && Enabled(w, s) && (s.Transmit? || s.Receive? || s.Lose? || s.Announce? || s.Finish?)
    requires !Concerns(w, s, f)
    ensures Ignores(w, EffectOf(w, s), f)
  {
  }

  lemma OtherStepIgnores(w: World, s: Step, f: Focus)
    requires Bounded(w) && Connected(w, f) && Enabled(w, s) && !Concerns(w, s, f)
    ensures Ignores(w, EffectOf(w, s), f)
  {
    if OfAttempt(s) {
      AttemptStepIgnores(w, s, f);
    } else if s.List? || s.SweepNext? || s.Consume? {
      HandlerStepIgnores(w, s, f);
    } else if s.Create? || s.Register? || s.Answer? {
      TableStepIgnores(w, s, f);
    } else if s.Unregister? || s.Close? || s.Read? {
      QuietStepIgnores(w, s, f);
    } else {
      AgentStepIgnores(w, s, f);
    }
  }

  lemma OtherStepKeeps(w: World, s: Step, f: Focus, b: Option<nat>)
    requires StableAt(w, f, b) && Enabled(w, s) && !Concerns(w, s, f)
    ensures StableAt(Apply(w, s), f, b) && Apply(w, s).rows[f.id] == w.rows[f.id]
    ensures Rank(Apply(w, s), f, b) == Rank(w, f, b)
  {
    StepKeepsInv(w, s);
    OtherStepIgnores(w, s, f);
    OthersKeep(w, EffectOf(w, s), f, b);
  }

  // ----- the command's own steps

  /** The sole baton t gives way to t2, and nothing else mentions the command. */
  lemma BatonMoves(w: World, e: Effect, f: Focus, t: nat, t2: nat)
    requires StableAt(w, f, Some(t)) && Inv(Commit(w, e)) && Connected(Commit(w, e), f) && Counted(Commit(w, e), f)
    requires t2 in e.threads && e.threads.Keys == {t2} && (t == t2 || t in e.ended)
    requires Mentions(e.threads[t2], f.id) && BatonOk(Commit(w, e), e.threads[t2], f)
    ensures StableAt(Commit(w, e), f, Some(t2))
  {
  }

  /** An effect that leaves the registry, the command's row and its channel's state alone keeps the connection. */
  lemma StaysConnected(w: World, e: Effect, f: Focus)
    requires Connected(w, f) && e.registry == w.registry && e.write.None?
    requires f.chan in e.channels && e.channels[f.chan].closed == w.channels[f.chan].closed
    requires forall u :: u in e.threads ==> !e.threads[u].Listing?
    ensures Connected(Commit(w, e), f)
  {
  }

  lemma LoadMoves(w: World, t: nat, now: int, f: Focus)
    requires StableAt(w, f, Some(t)) && AttemptIn(w, t, Start) && Inv(Commit(w, LoadEffect(w, t, now)))
    ensures StableAt(Commit(w, LoadEffect(w, t, now)), f, Some(t))
    ensures Rank(Commit(w, LoadEffect(w, t, now)), f, Some(t)) < Rank(w, f, Some(t))
    ensures Commit(w, LoadEffect(w, t, now)).rows == w.rows
  {
    BatonMoves(w, LoadEffect(w, t, now), f, t, t);
  }

  lemma SaveMoves(w: World, t: nat, f: Focus)
    requires StableAt(w, f, Some(t)) && AttemptIn(w, t, Loaded) && Inv(Commit(w, SaveEffect(w, t)))
    ensures StableAt(Commit(w, SaveEffect(w, t)), f, Some(t))
    ensures Rank(Commit(w, SaveEffect(w, t)), f, Some(t)) < Rank(w, f, Some(t))
    ensures w.rows[f.id].status == Pending
  {
    BatonMoves(w, SaveEffect(w, t), f, t, t);
  }

  lemma SendMoves(w: World, t: nat, m: nat, f: Focus)
    requires StableAt(w, f, Some(t)) && AttemptIn(w, t, Sending) && m !in w.threads
    requires |w.channels[f.chan].buffer| < SEND_BUFFER
    requires Inv(Commit(w, SendEffect(w, t, m)))
    ensures StableAt(Commit(w, SendEffect(w, t, m)), f, Some(m))
    ensures Rank(Commit(w, SendEffect(w, t, m)), f, Some(m)) < Rank(w, f, Some(t))
    ensures Commit(w, SendEffect(w, t, m)).rows == w.rows
  {
    StaysConnected(w, SendEffect(w, t, m), f);
    BatonMoves(w, SendEffect(w, t, m), f, t, m);
  }

  lemma SpawnMoves(w: World, t: nat, f: Focus)
    requires StableAt(w, f, Some(t)) && w.threads[t].Spawning? && Inv(Commit(w, SpawnEffect(w, t)))
    ensures StableAt(Commit(w, SpawnEffect(w, t)), f, Some(t))
    ensures Rank(Commit(w, SpawnEffect(w, t)), f, Some(t)) < Rank(w, f, Some(t))
  {
    BatonMoves(w, SpawnEffect(w, t), f, t, t);
  }

  /** The steps that carry the command itself on, the send finding room. */
  predicate OwnStep(w: World, s: Step, f: Focus) {
    && Concerns(w, s, f)
    && (s.Spawn? || s.Load? || s.Save? || s.Send? || s.Transmit? || s.Receive? || s.Announce? || s.Finish?)
    && (s.Send? ==> f.chan in w.channels && |w.channels[f.chan].buffer| < SEND_BUFFER)
  }

  lemma TransmitMoves(w: World, chan: Id, f: Focus, t: nat)
    requires StableAt(w, f, Some(t)) && Enabled(w, Transmit(chan)) && Concerns(w, Transmit(chan), f)
    requires Inv(Commit(w, TransmitEffect(w, chan)))
    ensures StableAt(Commit(w, TransmitEffect(w, chan)), f, Some(t))
    ensures Stage(Commit(w, TransmitEffect(w, chan)).threads[t]) < Stage(w.threads[t])
  {
    assert w.channels[chan].buffer[0] == t;
    StaysConnected(w, TransmitEffect(w, chan), f);
    BatonMoves(w, TransmitEffect(w, chan), f, t, t);
  }

  lemma ReceiveMoves(w: World, f: Focus, t: nat)
    requires StableAt(w, f, Some(t)) && w.threads[t].Message? && w.threads[t].wired
    requires Inv(Commit(w, ReceiveEffect(w, t)))
    ensures StableAt(Commit(w, ReceiveEffect(w, t)), f, Some(t))
    ensures Stage(Commit(w, ReceiveEffect(w, t)).threads[t]) < Stage(w.threads[t])
  {
    BatonMoves(w, ReceiveEffect(w, t), f, t, t);
  }

  lemma ReportMoves(w: World, report: Report, f: Focus, t: nat)
    requires StableAt(w, f, Some(t)) && w.threads[t].Running? && !w.threads[t].finished
    requires if w.threads[t].announced then Final(report) else report == SaysExecuting
    requires Inv(Commit(w, AgentEffect(w, t, report)))
    ensures StableAt(Commit(w, AgentEffect(w, t, report)), f, Some(t))
    ensures Stage(Commit(w, AgentEffect(w, t, report)).threads[t]) < Stage(w.threads[t])
  {
    BatonMoves(w, AgentEffect(w, t, report), f, t, t);
  }

  lemma LookUpStepMoves(w: World, s: Step, f: Focus, t: nat)
    requires StableAt(w, f, Some(t)) && Enabled(w, s) && OwnStep(w, s, f) && Inv(Apply(w, s)) && (s.Spawn? || s.Load?)
    ensures StableAt(Apply(w, s), f, Some(t)) && Rank(Apply(w, s), f, Some(t)) < Rank(w, f, Some(t))
    ensures Apply(w, s).rows[f.id] == w.rows[f.id]
  {
    match s
    case Spawn(_) => SpawnMoves(w, t, f);
    case Load(_, now) => LoadMoves(w, t, now, f);
  }

  lemma DispatchStepMoves(w: World, s: Step, f: Focus, t: nat)
    requires StableAt(w, f, Some(t)) && Enabled(w, s) && OwnStep(w, s, f) && Inv(Apply(w, s)) && (s.Save? || s.Send?)
    ensures var t1 := if s.Send? then s.m else t;
            StableAt(Apply(w, s), f, Some(t1)) && Rank(Apply(w, s), f, Some(t1)) < Rank(w, f, Some(t))
    ensures Terminal(w.rows[f.id].status) ==> Apply(w, s).rows[f.id] == w.rows[f.id]
  {
    match s
    case Save(_) => SaveMoves(w, t, f);
    case Send(_, m) => SendMoves(w, t, m, f);
  }

  lemma AgentStepMoves(w: World, s: Step, f: Focus, t: nat)
    requires StableAt(w, f, Some(t)) && Enabled(w, s) && OwnStep(w, s, f) && Inv(Apply(w, s)) && !OfAttempt(s)
    ensures StableAt(Apply(w, s), f, Some(t)) && Rank(Apply(w, s), f, Some(t)) < Rank(w, f, Some(t))
    ensures Apply(w, s).rows[f.id] == w.rows[f.id]
  {
    if s.Transmit? {
      TransmitMoves(w, s.chan, f, t);
    } else if s.Receive? {
      ReceiveMoves(w, f, t);
    } else {
      ReportMoves(w, if s.Announce? then SaysExecuting else s.report, f, t);
    }
  }

  lemma OwnStepMoves(w: World, s: Step, f: Focus, t: nat) returns (t1: nat)
    requires StableAt(w, f, Some(t)) && Enabled(w, s) && OwnStep(w, s, f)
    ensures StableAt(Apply(w, s), f, Some(t1)) && Rank(Apply(w, s), f, Some(t1)) < Rank(w, f, Some(t))
    ensures Terminal(w.rows[f.id].status) ==> Apply(w, s).rows[f.id] == w.rows[f.id]
  {
    StepKeepsInv(w, s);
    t1 := if s.Send? then s.m else t;
    if s.Spawn? || s.Load? {
      LookUpStepMoves(w, s, f, t);
    } else if s.Save? || s.Send? {
      DispatchStepMoves(w, s, f, t);
    } else {
      AgentStepMoves(w, s, f, t);
    }
  }

  // ----- HandleResult, its body running alone

  /** HandleResult on the execution's oldest report, its read and its write with nothing in between. */
  function HandleSteps(w: World, m: nat, t: nat, now: int): seq<Step>
    requires m in w.threads && w.threads[m].Running? && w.threads[m].outbox != []
  {
    if Heeds(w, w.threads[m].about, w.threads[m].outbox[0]) then [Consume(m, t), Answer(t, now)] else [Consume(m, t)]
  }

  /** Every thread of w2 but b was one of w's, and not the baton m. */
  lemma BatonReplaced(w: World, w2: World, f: Focus, m: nat, b: Option<nat>)
    requires StableAt(w, f, Some(m)) && Inv(w2)
    requires w2.registry == w.registry && w2.channels == w.channels
    requires f.id in w2.rows && w2.rows[f.id].agent == f.agent && Counted(w2, f)
    requires forall u :: u in w2.threads && b != Some(u) ==> u != m && u in w.threads && w2.threads[u] == w.threads[u]
    requires b.Some? ==>
               b.value in w2.threads && Mentions(w2.threads[b.value], f.id) && BatonOk(w2, w2.threads[b.value], f)
    requires b.None? ==> Terminal(w2.rows[f.id].status)
    ensures StableAt(w2, f, b)
  {
  }

  lemma HandleIgnored(w: World, m: nat, t: nat, f: Focus) returns (b: Option<nat>)
    requires StableAt(w, f, Some(m)) && w.threads[m].Running? && w.threads[m].outbox != [] && t !in w.threads
    requires Terminal(w.rows[f.id].status) && Inv(Commit(w, ConsumeEffect(w, m, t)))
    ensures var w1 := Commit(w, ConsumeEffect(w, m, t));
            w1.rows == w.rows && StableAt(w1, f, b) && Rank(w1, f, b) < Rank(w, f, Some(m))
  {
    var w1 := Commit(w, ConsumeEffect(w, m, t));
    b := if m in w1.threads then Some(m) else None;
    BatonReplaced(w, w1, f, m, b);
  }

  /** The threads once the execution's oldest report is taken. */
  function Taken(w: World, m: nat): map<nat, Thread>
    requires m in w.threads && w.threads[m].Running? && w.threads[m].outbox != []
  {
    var th := w.threads[m];
    if th.finished && |th.outbox| == 1 then w.threads - {m}
    else w.threads[m := Running(th.about, th.announced, th.finished, th.outbox[1..])]
  }

  /** The world HandleResult leaves when it answers the report, t being gone or holding the retry. */
  function Handled(w: World, m: nat, t: nat, now: int): World
    requires m in w.threads && w.threads[m].Running? && w.threads[m].outbox != [] && w.threads[m].about in w.rows
  {
    var c := w.threads[m].about;
    var report := w.threads[m].outbox[0];
    var k := Answered(w.rows[c], report, now);
    w.(rows := w.rows[c := k], reverted := w.reverted - {c},
       threads := if Retries(w.rows[c], report) then Taken(w, m)[t := Spawning(k)] else Taken(w, m))
  }

  lemma ConsumeTakes(w: World, m: nat, t: nat)
    requires m in w.threads && w.threads[m].Running? && w.threads[m].outbox != [] && t !in w.threads
    requires Heeds(w, w.threads[m].about, w.threads[m].outbox[0])
    ensures Commit(w, ConsumeEffect(w, m, t)) ==
            w.(threads := Taken(w, m)[t := Reporting(w.rows[w.threads[m].about], w.threads[m].outbox[0])])
  {
    var e := ConsumeEffect(w, m, t);
    var threads := Taken(w, m)[t := Reporting(w.rows[w.threads[m].about], w.threads[m].outbox[0])];
    assert (w.threads - e.ended) + e.threads == threads;
    QuietCommit(w, e, threads);
  }

  lemma AnswerSettles(w: World, threads: map<nat, Thread>, t: nat, cmd: Command, report: Report, now: int)
    requires t !in threads && cmd.id in w.rows
    ensures var w1 := w.(threads := threads[t := Reporting(cmd, report)]);
            var k := Answered(cmd, report, now);
            Commit(w1, AnswerEffect(w1, t, now)) ==
            w.(rows := w.rows[cmd.id := k], reverted := w.reverted - {cmd.id},
               threads := if Retries(cmd, report) then threads[t := Spawning(k)] else threads)
  {
    var w1 := w.(threads := threads[t := Reporting(cmd, report)]);
    var k := Answered(cmd, report, now);
    var left := if Retries(cmd, report) then threads[t := Spawning(k)] else threads;
    var e := Becomes(Nothing(w1), t, if Retries(cmd, report) then Some(Spawning(k)) else None);
    assert (w1.threads - e.ended) + e.threads == left;
    WritingCommit(w1, e, k, left);
  }

  lemma HandleIsHandled(w: World, m: nat, t: nat, now: int)
    requires Bounded(w) && m in w.threads && w.threads[m].Running? && w.threads[m].outbox != [] && t !in w.threads
    requires Heeds(w, w.threads[m].about, w.threads[m].outbox[0])
    ensures var w1 := Commit(w, ConsumeEffect(w, m, t));
            t in w1.threads && w1.threads[t].Reporting? && Commit(w1, AnswerEffect(w1, t, now)) == Handled(w, m, t, now)
  {
    assert RowBounded(w, w.threads[m].about);
    ConsumeTakes(w, m, t);
    AnswerSettles(w, Taken(w, m), t, w.rows[w.threads[m].about], w.threads[m].outbox[0], now);
  }

  /** What is left of the command's goroutines after its report: its execution, or the retry, or nothing. */
  lemma HandledThreads(w: World, m: nat, t: nat, now: int, f: Focus) returns (b: Option<nat>)
    requires StableAt(w, f, Some(m)) && w.threads[m].Running? && w.threads[m].outbox != [] && t !in w.threads
    ensures var th, w2 := w.threads[m], Handled(w, m, t, now);
            && (b == if !th.finished || |th.outbox| > 1 then Some(m)
                     else if Retries(w.rows[f.id], th.outbox[0]) then Some(t) else None)
            && (forall u :: u in w2.threads && b != Some(u) ==>
                  u != m && u in w.threads && w2.threads[u] == w.threads[u])
            && (b == Some(m) ==>
                  m in w2.threads && w2.threads[m] == Running(f.id, th.announced, th.finished, th.outbox[1..]))
            && (b == Some(t) ==> t in w2.threads && w2.threads[t] == Spawning(w2.rows[f.id]))
  {
    var th := w.threads[m];
    b := if !th.finished || |th.outbox| > 1 then Some(m)
         else if Retries(w.rows[f.id], th.outbox[0]) then Some(t) else None;
  }

  lemma HandleHeeded(w: World, m: nat, t: nat, now: int, f: Focus) returns (b: Option<nat>)
    requires StableAt(w, f, Some(m)) && w.threads[m].Running? && w.threads[m].outbox != [] && t !in w.threads
    requires !Terminal(w.rows[f.id].status) && Inv(Handled(w, m, t, now))
    ensures StableAt(Handled(w, m, t, now), f, b) && Rank(Handled(w, m, t, now), f, b) < Rank(w, f, Some(m))
  {
    var w2 := Handled(w, m, t, now);
    b := HandledThreads(w, m, t, now, f);
    assert RowBounded(w, f.id);
    BatonReplaced(w, w2, f, m, b);
  }

  // ----- the timeout monitor, its pass running alone

  function SweepSteps(t: nat, n: nat): seq<Step> {
    if n == 0 then [] else [SweepNext(t)] + SweepSteps(t, n - 1)
  }

  /** checkCommandTimeouts: the list is read, then each overdue command on it is written. */
  function MonitorSteps(t: nat, now: int, active: seq<Command>): seq<Step> {
    [SweepList(t, now, active)] + SweepSteps(t, |active|)
  }

  function InSweep(w: World, t: nat, now: int, todo: seq<Command>): World {
    if todo == [] then w else w.(threads := w.threads[t := Sweeping(now, todo)])
  }

  function SweptOne(w: World, k: Command, now: int): World {
    if Overdue(k, now)
    then w.(rows := w.rows[k.id := TimedOut(k)], reverted := w.reverted - {k.id}, limits := Limited(w, TimedOut(k)))
    else w
  }

  /** The world after the listed commands: every overdue one is written as timed out. */
  function Swept(w: World, todo: seq<Command>, now: int): (w1: World)
    ensures w1 == w.(rows := w1.rows, reverted := w1.reverted, limits := w1.limits)
    decreases |todo|
  {
    if todo == [] then w else Swept(SweptOne(w, todo[0], now), todo[1..], now)
  }

  lemma SweepThreads(threads: map<nat, Thread>, t: nat, th: Thread, next: Option<Thread>, e: Effect)
    requires t !in threads
    ensures var e := Becomes(e.(ended := {}, threads := map[]), t, next);
            (threads[t := th] - e.ended) + e.threads == if next.Some? then threads[t := next.value] else threads
  {
  }

  /** SweepNext as an effect that ends or keeps the monitor, with or without a write. */
  lemma SweepEffect(v: World, t: nat, now: int, todo: seq<Command>)
    requires todo != [] && t in v.threads && v.threads[t] == Sweeping(now, todo)
    ensures SweepNextEffect(v, t) ==
            Becomes(Nothing(v), t, Sweep(now, todo[1..]))
            .(write := if Overdue(todo[0], now) then Some(TimedOut(todo[0])) else None)
  {
  }

  lemma SweepStep(w: World, t: nat, now: int, todo: seq<Command>)
    requires t !in w.threads && todo != []
    ensures Enabled(InSweep(w, t, now, todo), SweepNext(t))
    ensures Apply(InSweep(w, t, now, todo), SweepNext(t)) == InSweep(SweptOne(w, todo[0], now), t, now, todo[1..])
  {
    var v, left := w.(threads := w.threads[t := Sweeping(now, todo)]), InSweep(w, t, now, todo[1..]).threads;
    var e := Becomes(Nothing(v), t, Sweep(now, todo[1..]));
    SweepThreads(w.threads, t, Sweeping(now, todo), Sweep(now, todo[1..]), Nothing(v));
    SweepEffect(v, t, now, todo);
    if Overdue(todo[0], now) {
      WritingCommit(v, e, TimedOut(todo[0]), left);
    } else {
      QuietCommit(v, e, left);
    }
  }

  lemma {:induction false} SweepRuns(w: World, t: nat, now: int, todo: seq<Command>)
    requires t !in w.threads
    ensures Runs(InSweep(w, t, now, todo), SweepSteps(t, |todo|))
    ensures After(InSweep(w, t, now, todo), SweepSteps(t, |todo|)) == Swept(w, todo, now)
    decreases |todo|
  {
    if todo != [] {
      SweepStep(w, t, now, todo);
      SweepRuns(SweptOne(w, todo[0], now), t, now, todo[1..]);
      RunFirst(InSweep(w, t, now, todo), SweepNext(t), SweepSteps(t, |todo| - 1));
    }
  }

  lemma LaterAmong(todo: seq<Command>, c: Id)
    requires todo != []
    ensures Among(todo, c) <==> todo[0].id == c || Among(todo[1..], c)
  {
    assert forall i :: 0 < i < |todo| ==> todo[i] == todo[1..][i - 1];
    if Among(todo[1..], c) {
      var i :| 0 <= i < |todo[1..]| && todo[1..][i].id == c;
      assert todo[i + 1].id == c;
    }
  }

  ghost predicate ListedOnce(w: World, todo: seq<Command>) {
    && (forall i :: 0 <= i < |todo| ==> todo[i].id in w.rows && w.rows[todo[i].id] == todo[i])
    && (forall i, j :: 0 <= i < j < |todo| ==> todo[i].id != todo[j].id)
  }

  lemma RestIsListedOnce(w: World, todo: seq<Command>, now: int)
    requires todo != [] && ListedOnce(w, todo)
    ensures ListedOnce(SweptOne(w, todo[0], now), todo[1..]) && !Among(todo[1..], todo[0].id)
  {
    assert forall i :: 0 <= i < |todo[1..]| ==> todo[1..][i] == todo[i + 1];
  }

  /** Exactly the listed commands that are overdue are timed out. */
  lemma {:induction false} SweptRow(w: World, todo: seq<Command>, now: int, c: Id)
    requires c in w.rows && ListedOnce(w, todo)
    ensures c in Swept(w, todo, now).rows
    ensures Swept(w, todo, now).rows[c] ==
            if Among(todo, c) && Overdue(w.rows[c], now) then TimedOut(w.rows[c]) else w.rows[c]
    decreases |todo|
  {
    if todo != [] {
      RestIsListedOnce(w, todo, now);
      LaterAmong(todo, c);
      SweptRow(SweptOne(w, todo[0], now), todo[1..], now, c);
    }
  }

  lemma SweepStarts(w: World, t: nat, now: int, active: seq<Command>)
    requires t !in w.threads
    ensures Commit(w, Becomes(Nothing(w), t, Sweep(now, active))) == InSweep(w, t, now, active)
  {
    assert active == [] ==> w.threads - {t} == w.threads;
  }

  lemma MonitorRuns(w: World, t: nat, now: int, active: seq<Command>)
    requires t !in w.threads && ListsActive(w.rows, active)
    ensures Runs(w, MonitorSteps(t, now, active))
    ensures After(w, MonitorSteps(t, now, active)) == Swept(w, active, now)
  {
    SweepRuns(w, t, now, active);
    SweepStarts(w, t, now, active);
    RunFirst(w, SweepList(t, now, active), SweepSteps(t, |active|));
  }

  /** What a sweep does to one row, and that it touches nothing a command's stability looks at besides. */
  lemma SweepMoves(w: World, now: int, active: seq<Command>, f: Focus, b: Option<nat>)
    requires StableAt(w, f, b) && ListsActive(w.rows, active) && Inv(Swept(w, active, now))
    ensures var w1 := Swept(w, active, now);
            && StableAt(w1, f, b)
            && (w1.rows[f.id] == w.rows[f.id] || (!Terminal(w.rows[f.id].status) && Rank(w1, f, b) < Rank(w, f, b)))
  {
    SweptRow(w, active, now, f.id);
    assert RowBounded(w, f.id);
    if Among(active, f.id) {
      assert w.rows[f.id] in active;
    }
  }

  lemma MonitorMoves(w: World, t: nat, now: int, active: seq<Command>, f: Focus, b: Option<nat>)
    requires StableAt(w, f, b) && t !in w.threads && ListsActive(w.rows, active)
    ensures Runs(w, MonitorSteps(t, now, active))
    ensures var w1 := After(w, MonitorSteps(t, now, active));
            && StableAt(w1, f, b)
            && (w1.rows[f.id] == w.rows[f.id] || (!Terminal(w.rows[f.id].status) && Rank(w1, f, b) < Rank(w, f, b)))
            && w1.threads == w.threads
  {
    MonitorRuns(w, t, now, active);
    RunKeepsInv(w, MonitorSteps(t, now, active));
    SweepMoves(w, now, active, f, b);
  }

  // ----- whole runs

  /** One event of a session: a step of others, the command's own next step, or one of the two bodies. */
  datatype Event =
    | Single(s: Step)
    | Handle(m: nat, t: nat, now: int)
    | Monitor(t: nat, now: int, active: seq<Command>)

  ghost predicate Allowed(w: World, ev: Event, f: Focus) {
    match ev
    case Single(s) => !Concerns(w, s, f) || OwnStep(w, s, f)
    case Handle(m, t, _) => m in w.threads && w.threads[m].Running? && w.threads[m].about == f.id &&
      w.threads[m].outbox != [] && t !in w.threads
    case Monitor(t, _, active) => t !in w.threads && ListsActive(w.rows, active)
  }

  ghost function StepsOf(w: World, ev: Event, f: Focus): seq<Step>
    requires Allowed(w, ev, f)
  {
    match ev
    case Single(s) => [s]
    case Handle(m, t, now) => HandleSteps(w, m, t, now)
    case Monitor(t, now, active) => MonitorSteps(t, now, active)
  }

  ghost predicate Session(w: World, evs: seq<Event>, f: Focus)
    decreases |evs|
  {
    evs == [] ||
    (Allowed(w, evs[0], f) && Runs(w, StepsOf(w, evs[0], f)) && Session(After(w, StepsOf(w, evs[0], f)), evs[1..], f))
  }

  ghost function AfterSession(w: World, evs: seq<Event>, f: Focus): World
    requires Session(w, evs, f)
    decreases |evs|
  {
    if evs == [] then w else AfterSession(After(w, StepsOf(w, evs[0], f)), evs[1..], f)
  }

  /** How many events of the session moved the command or its baton. */
  ghost function Moves(w: World, evs: seq<Event>, f: Focus): nat
    requires Session(w, evs, f)
    decreases |evs|
  {
    if evs == [] then 0
    else
      var w1 := After(w, StepsOf(w, evs[0], f));
      (if Moved(w, evs[0], f) then 1 else 0) + Moves(w1, evs[1..], f)
  }

  ghost predicate Moved(w: World, ev: Event, f: Focus)
    requires Allowed(w, ev, f) && Runs(w, StepsOf(w, ev, f))
  {
    match ev
    case Single(s) => Concerns(w, s, f)
    case Handle(_, _, _) => true
    case Monitor(_, _, _) =>
      var w1 := After(w, StepsOf(w, ev, f));
      f.id in w.rows && f.id in w1.rows && w1.rows[f.id] != w.rows[f.id]
  }

  lemma HandleRuns(w: World, m: nat, t: nat, now: int)
    requires Inv(w) && m in w.threads && w.threads[m].Running? && w.threads[m].outbox != [] && t !in w.threads
    requires Heeds(w, w.threads[m].about, w.threads[m].outbox[0])
    ensures Runs(w, HandleSteps(w, m, t, now)) && After(w, HandleSteps(w, m, t, now)) == Handled(w, m, t, now)
  {
    var w1 := Apply(w, Consume(m, t));
    HandleIsHandled(w, m, t, now);
    assert Enabled(w1, Answer(t, now));
    RunFirst(w1, Answer(t, now), []);
    RunFirst(w, Consume(m, t), [Answer(t, now)]);
    assert [Answer(t, now)] + [] == [Answer(t, now)];
    assert [Consume(m, t)] + [Answer(t, now)] == HandleSteps(w, m, t, now);
  }

  lemma HandleSkips(w: World, m: nat, t: nat, now: int, f: Focus) returns (b1: Option<nat>)
    requires StableAt(w, f, Some(m)) && Allowed(w, Handle(m, t, now), f)
    requires !Heeds(w, f.id, w.threads[m].outbox[0])
    ensures Runs(w, HandleSteps(w, m, t, now))
    ensures var w1 := After(w, HandleSteps(w, m, t, now));
            StableAt(w1, f, b1) && Rank(w1, f, b1) < Rank(w, f, Some(m)) && w1.rows == w.rows
  {
    StepKeepsInv(w, Consume(m, t));
    RunFirst(w, Consume(m, t), []);
    b1 := HandleIgnored(w, m, t, f);
  }

  lemma HandleMoves(w: World, m: nat, t: nat, now: int, f: Focus) returns (b1: Option<nat>)
    requires StableAt(w, f, Some(m)) && Allowed(w, Handle(m, t, now), f)
    ensures Runs(w, HandleSteps(w, m, t, now))
    ensures var w1 := After(w, HandleSteps(w, m, t, now));
            && StableAt(w1, f, b1) && Rank(w1, f, b1) < Rank(w, f, Some(m))
            && (Terminal(w.rows[f.id].status) ==> w1.rows[f.id] == w.rows[f.id])
  {
    if Heeds(w, f.id, w.threads[m].outbox[0]) {
      HandleRuns(w, m, t, now);
      RunKeepsInv(w, HandleSteps(w, m, t, now));
      b1 := HandleHeeded(w, m, t, now, f);
    } else {
      b1 := HandleSkips(w, m, t, now, f);
    }
  }

  lemma SingleMoves(w: World, s: Step, f: Focus, b: Option<nat>) returns (b1: Option<nat>)
    requires StableAt(w, f, b) && Enabled(w, s) && (!Concerns(w, s, f) || OwnStep(w, s, f))
    ensures StableAt(Apply(w, s), f, b1) && Rank(Apply(w, s), f, b1) <= Rank(w, f, b)
    ensures Terminal(w.rows[f.id].status) ==> Apply(w, s).rows[f.id] == w.rows[f.id]
    ensures Concerns(w, s, f) ==> Rank(Apply(w, s), f, b1) < Rank(w, f, b)
  {
    if Concerns(w, s, f) {
      var t := OwnStepMoves(w, s, f, b.value);
      b1 := Some(t);
    } else {
      OtherStepKeeps(w, s, f, b);
      b1 := b;
    }
  }

  /** Every event keeps the one baton and never touches a terminal row; if it moves the command, its rank falls. */
  lemma EventMoves(w: World, ev: Event, f: Focus, b: Option<nat>) returns (b1: Option<nat>)
    requires StableAt(w, f, b) && Allowed(w, ev, f) && Runs(w, StepsOf(w, ev, f))
    ensures var w1 := After(w, StepsOf(w, ev, f));
            && StableAt(w1, f, b1)
            && (Terminal(w.rows[f.id].status) ==> w1.rows[f.id] == w.rows[f.id])
            && Rank(w1, f, b1) <= Rank(w, f, b)
            && (Moved(w, ev, f) ==> Rank(w1, f, b1) < Rank(w, f, b))
  {
    match ev
    case Single(s) =>
      RunFirst(w, s, []);
      b1 := SingleMoves(w, s, f, b);
    case Handle(m, t, now) =>
      assert Mentions(w.threads[m], f.id);
      b1 := HandleMoves(w, m, t, now, f);
    case Monitor(t, now, active) =>
      MonitorMoves(w, t, now, active, f, b);
      b1 := b;
  }

  lemma {:induction false} SessionKeeps(w: World, evs: seq<Event>, f: Focus, b: Option<nat>) returns (b1: Option<nat>)
    requires StableAt(w, f, b) && Session(w, evs, f)
    ensures var w1 := AfterSession(w, evs, f);
            && StableAt(w1, f, b1)
            && (Terminal(w.rows[f.id].status) ==> w1.rows[f.id] == w.rows[f.id])
            && Moves(w, evs, f) + Rank(w1, f, b1) <= Rank(w, f, b)
    decreases |evs|
  {
    b1 := b;
    if evs != [] {
      b1 := EventMoves(w, evs[0], f, b);
      b1 := SessionKeeps(After(w, StepsOf(w, evs[0], f)), evs[1..], f, b1);
    }
  }

  lemma UnknownIsUnmentioned(w: World, c: Id)
    requires Bounded(w) && c !in w.rows
    ensures forall t :: t in w.threads ==> !Mentions(w.threads[t], c)
    ensures CountOf(w.executions, c) == 0
  {
    forall t | t in w.threads ensures !Mentions(w.threads[t], c) {
      assert ThreadOk(w, w.threads[t]);
    }
  }

  lemma CreateConnects(w: World, t: nat, cmd: Command, now: int, f: Focus)
    requires Enabled(w, Create(t, cmd, now)) && cmd.id == f.id && cmd.agent == f.agent
    requires f.agent in w.registry && w.registry[f.agent] == f.chan && f.chan in w.channels
    requires !w.channels[f.chan].closed
    requires forall u :: u in w.threads ==> w.threads[u] != Listing(f.agent)
    ensures Connected(Apply(w, Create(t, cmd, now)), f)
  {
  }

  lemma DispatchStarts(w: World, t: nat, cmd: Command, now: int, f: Focus)
    requires Inv(w) && Enabled(w, Create(t, cmd, now)) && cmd.id == f.id && cmd.agent == f.agent
    requires cmd.attempts == 0 && cmd.maxAttempts >= 0
    requires f.agent in w.registry && w.registry[f.agent] == f.chan && f.chan in w.channels
    requires !w.channels[f.chan].closed
    requires forall u :: u in w.threads ==> w.threads[u] != Listing(f.agent)
    ensures StableAt(Apply(w, Create(t, cmd, now)), f, Some(t))
    ensures Rank(Apply(w, Create(t, cmd, now)), f, Some(t)) == Accepted(cmd, now).maxAttempts * 11 + 4
  {
    StepKeepsInv(w, Create(t, cmd, now));
    UnknownIsUnmentioned(w, f.id);
    CreateConnects(w, t, cmd, now, f);
  }

  /** A command dispatched to an agent that stays on its connection: in every session there is exactly one baton
      until the row is terminal, the agent starts it at most as often as it may be attempted, and the command
      and its baton move only a bounded number of times. */
  lemma OneBatonUntilTerminal(w: World, t: nat, cmd: Command, now: int, evs: seq<Event>, f: Focus)
    requires Inv(w) && Enabled(w, Create(t, cmd, now)) && cmd.id == f.id && cmd.agent == f.agent
    requires cmd.attempts == 0 && cmd.maxAttempts >= 0
    requires f.agent in w.registry && w.registry[f.agent] == f.chan && f.chan in w.channels
    requires !w.channels[f.chan].closed
    requires forall u :: u in w.threads ==> w.threads[u] != Listing(f.agent)
    requires Session(Apply(w, Create(t, cmd, now)), evs, f)
    ensures var w0 := Apply(w, Create(t, cmd, now));
            var w1 := AfterSession(w0, evs, f);
            && f.id in w1.rows
            && (!Terminal(w1.rows[f.id].status) ==>
                  exists b :: b in w1.threads && Mentions(w1.threads[b], f.id) &&
                              forall u :: u in w1.threads && Mentions(w1.threads[u], f.id) ==> u == b)
            && CountOf(w1.executions, f.id) <= w1.rows[f.id].attempts <= w1.rows[f.id].maxAttempts
            && Moves(w0, evs, f) <= Accepted(cmd, now).maxAttempts * 11 + 4
  {
    DispatchStarts(w, t, cmd, now, f);
    var w0 := Apply(w, Create(t, cmd, now));
    var b := SessionKeeps(w0, evs, f, Some(t));
    RankIsNatural(AfterSession(w0, evs, f), f, b);
  }

  lemma RankIsNatural(w: World, f: Focus, b: Option<nat>)
    requires StableAt(w, f, b)
    ensures Rank(w, f, b) >= 0
  {
  }

  /** Completed, dead-lettered and timed-out rows are final: no later event of the session changes them. */
  lemma TerminalIsFinal(w: World, t: nat, cmd: Command, now: int, evs: seq<Event>, more: seq<Event>, f: Focus)
    requires Inv(w) && Enabled(w, Create(t, cmd, now)) && cmd.id == f.id && cmd.agent == f.agent
    requires cmd.attempts == 0 && cmd.maxAttempts >= 0
    requires f.agent in w.registry && w.registry[f.agent] == f.chan && f.chan in w.channels
    requires !w.channels[f.chan].closed
    requires forall u :: u in w.threads ==> w.threads[u] != Listing(f.agent)
    requires Session(Apply(w, Create(t, cmd, now)), evs, f)
    requires Session(AfterSession(Apply(w, Create(t, cmd, now)), evs, f), more, f)
    ensures var w1 := AfterSession(Apply(w, Create(t, cmd, now)), evs, f);
            f.id in w1.rows && f.id in AfterSession(w1, more, f).rows &&
            (Terminal(w1.rows[f.id].status) ==> AfterSession(w1, more, f).rows[f.id] == w1.rows[f.id])
  {
    DispatchStarts(w, t, cmd, now, f);
    var w0 := Apply(w, Create(t, cmd, now));
    var b := SessionKeeps(w0, evs, f, Some(t));
    b := SessionKeeps(AfterSession(w0, evs, f), more, f, b);
  }
}
