/** The stable sessions do not get stuck: as long as the command is not terminal, something in the session can carry it
    on, and some continuation brings it to a terminal row. */
module CommandBusProgress {
  import opened Wrappers
  import opened CommandBus
  import opened CommandBusSafety
  import opened CommandBusStable
  import Final = CommandBusFinal

  // ----- the buffers hold exactly the messages that are not on the wire

  function BufferOf(w: World, chan: Id): seq<nat> {
    if chan in w.channels then w.channels[chan].buffer else []
  }

  predicate Waiting(threads: map<nat, Thread>, m: nat) {
    m in threads && threads[m].Message? && !threads[m].wired
  }

  ghost predicate Queued(w: World, m: nat) {
    exists chan :: m in BufferOf(w, chan)
  }

  ghost predicate OnlyWaiting(w: World) {
    forall chan, m :: m in BufferOf(w, chan) ==> Waiting(w.threads, m)
  }

  predicate NoneTwice(buffer: seq<nat>) {
    forall i, j :: 0 <= i < j < |buffer| ==> buffer[i] != buffer[j]
  }

  ghost predicate OneBuffer(w: World) {
    forall chan, chan2, m :: m in BufferOf(w, chan) && m in BufferOf(w, chan2) ==> chan == chan2
  }

  ghost predicate AllQueued(w: World) {
    forall m :: Waiting(w.threads, m) ==> Queued(w, m)
  }

  /** Each waiting message is in one buffer, at one place, and nothing else is in a buffer. */
  ghost predicate Queues(w: World) {
    OnlyWaiting(w) && (forall chan :: NoneTwice(BufferOf(w, chan))) && OneBuffer(w) && AllQueued(w)
  }

  /** The effect changes no buffer and no waiting message. */
  ghost predicate LeavesQueues(w: World, e: Effect) {
    && (forall chan :: BufferOf(Commit(w, e), chan) == BufferOf(w, chan))
    && (forall t :: t in e.threads ==> !Waiting(w.threads, t) && !Waiting(e.threads, t))
    && (forall t :: t in e.ended ==> !Waiting(w.threads, t))
  }

  lemma LeavesQueuesKeeps(w: World, e: Effect)
    requires Queues(w) && LeavesQueues(w, e)
    ensures Queues(Commit(w, e))
  {
    var w1 := Commit(w, e);
    assert forall m :: Waiting(w1.threads, m) <==> Waiting(w.threads, m);
    forall m | Waiting(w1.threads, m) ensures Queued(w1, m) {
      var chan :| m in BufferOf(w, chan);
      assert m in BufferOf(w1, chan);
    }
  }

  lemma AttemptLeavesQueues(w: World, s: Step)
    requires Enabled(w, s) && (s.Spawn? || s.Load? || s.Save? || s.PutBack?)
    ensures LeavesQueues(w, EffectOf(w, s))
  {
  }

  lemma FullSendLeavesQueues(w: World, t: nat, m: nat)
    requires Enabled(w, Send(t, m)) && |w.channels[w.threads[t].chan].buffer| >= SEND_BUFFER
    ensures LeavesQueues(w, SendEffect(w, t, m))
  {
  }

  lemma TableLeavesQueues(w: World, s: Step)
    requires Enabled(w, s) && (s.Create? || s.List? || s.Read? || s.Answer?)
    ensures LeavesQueues(w, EffectOf(w, s))
  {
  }

  lemma SweepLeavesQueues(w: World, s: Step)
    requires Enabled(w, s) && (s.SweepList? || s.SweepNext?)
    ensures LeavesQueues(w, EffectOf(w, s))
  {
  }

  lemma ConnectionLeavesQueues(w: World, s: Step)
    requires Enabled(w, s) && (s.Register? || s.Unregister? || s.Close?)
    ensures LeavesQueues(w, EffectOf(w, s))
  {
  }

  lemma AgentLeavesQueues(w: World, s: Step)
    requires Enabled(w, s) && (s.Receive? || s.Lose? || s.Announce? || s.Finish?)
    ensures LeavesQueues(w, EffectOf(w, s))
  {
  }

  lemma ConsumeLeavesQueues(w: World, m: nat, t: nat)
    requires Enabled(w, Consume(m, t))
    ensures LeavesQueues(w, ConsumeEffect(w, m, t))
  {
  }

  lemma OtherLeavesQueues(w: World, s: Step)
    requires Enabled(w, s) && !s.Send? && !s.Transmit?
    ensures LeavesQueues(w, EffectOf(w, s))
  {
    if OfAttempt(s) {
      AttemptLeavesQueues(w, s);
    } else if s.Create? || s.List? || s.Read? || s.Answer? {
      TableLeavesQueues(w, s);
    } else if s.SweepList? || s.SweepNext? {
      SweepLeavesQueues(w, s);
    } else if s.Register? || s.Unregister? || s.Close? {
      ConnectionLeavesQueues(w, s);
    } else if s.Consume? {
      ConsumeLeavesQueues(w, s.m, s.t);
    } else {
      AgentLeavesQueues(w, s);
    }
  }

  /** The new message, and only it, joins one buffer at its end. */
  ghost predicate Joins(w: World, w1: World, chan: Id, m: nat) {
    && m !in w.threads && Waiting(w1.threads, m)
    && (forall u :: u != m ==> (Waiting(w1.threads, u) <==> Waiting(w.threads, u)))
    && (forall ch :: ch != chan ==> BufferOf(w1, ch) == BufferOf(w, ch))
    && BufferOf(w1, chan) == BufferOf(w, chan) + [m]
  }

  lemma JoiningAdds(w: World, w1: World, chan: Id, m: nat)
    requires Joins(w, w1, chan, m)
    ensures forall ch, u :: u in BufferOf(w1, ch) <==> u in BufferOf(w, ch) || (ch == chan && u == m)
  {
    forall ch, u ensures u in BufferOf(w1, ch) <==> u in BufferOf(w, ch) || (ch == chan && u == m) {
      if ch == chan {
        assert BufferOf(w1, ch) == BufferOf(w, ch) + [m];
      } else {
        assert BufferOf(w1, ch) == BufferOf(w, ch);
      }
    }
  }

  lemma JoiningKeepsQueues(w: World, w1: World, chan: Id, m: nat)
    requires Queues(w) && Joins(w, w1, chan, m)
    ensures Queues(w1)
  {
    JoiningAdds(w, w1, chan, m);
    forall ch, u | u in BufferOf(w, ch) ensures u in w.threads {
      assert Waiting(w.threads, u);
    }
    forall ch ensures NoneTwice(BufferOf(w1, ch)) {
      assert NoneTwice(BufferOf(w, ch));
      if ch == chan {
        assert forall i :: 0 <= i < |BufferOf(w, ch)| ==> BufferOf(w, ch)[i] in BufferOf(w, ch);
      }
    }
    assert AllQueued(w1) by {
      forall u | Waiting(w1.threads, u) ensures Queued(w1, u) {
        if u == m {
          assert m in BufferOf(w1, chan);
        } else {
          var ch :| u in BufferOf(w, ch);
          assert u in BufferOf(w1, ch);
        }
      }
    }
  }

  lemma RoomySendKeepsQueues(w: World, t: nat, m: nat)
    requires Queues(w) && Enabled(w, Send(t, m)) && |w.channels[w.threads[t].chan].buffer| < SEND_BUFFER
    ensures Queues(Commit(w, SendEffect(w, t, m)))
  {
    JoiningKeepsQueues(w, Commit(w, SendEffect(w, t, m)), w.threads[t].chan, m);
  }

  /** The oldest message leaves its buffer for the wire. */
  ghost predicate Leaves(w: World, w1: World, chan: Id) {
    && BufferOf(w, chan) != []
    && (forall u :: Waiting(w1.threads, u) <==> Waiting(w.threads, u) && u != BufferOf(w, chan)[0])
    && (forall ch :: ch != chan ==> BufferOf(w1, ch) == BufferOf(w, ch))
    && BufferOf(w1, chan) == BufferOf(w, chan)[1..]
  }

  lemma LeavingRemoves(w: World, w1: World, chan: Id)
    requires Queues(w) && Leaves(w, w1, chan)
    ensures forall ch, u :: u in BufferOf(w1, ch) <==> u in BufferOf(w, ch) && u != BufferOf(w, chan)[0]
  {
    var m := BufferOf(w, chan)[0];
    assert BufferOf(w, chan) == [m] + BufferOf(w1, chan);
    forall ch, u ensures u in BufferOf(w1, ch) <==> u in BufferOf(w, ch) && u != m {
      if ch == chan {
        assert NoneTwice(BufferOf(w, chan));
        assert m !in BufferOf(w, chan)[1..];
      } else {
        assert BufferOf(w1, ch) == BufferOf(w, ch);
        assert m in BufferOf(w, chan);
      }
    }
  }

  lemma LeavingKeepsQueues(w: World, w1: World, chan: Id)
    requires Queues(w) && Leaves(w, w1, chan)
    ensures Queues(w1)
  {
    LeavingRemoves(w, w1, chan);
    forall ch ensures NoneTwice(BufferOf(w1, ch)) {
      assert NoneTwice(BufferOf(w, ch));
    }
    assert AllQueued(w1) by {
      forall u | Waiting(w1.threads, u) ensures Queued(w1, u) {
        var ch :| u in BufferOf(w, ch);
        assert u in BufferOf(w1, ch);
      }
    }
  }

  lemma TransmitKeepsQueues(w: World, chan: Id)
    requires Queues(w) && Enabled(w, Transmit(chan))
    ensures Queues(Commit(w, TransmitEffect(w, chan)))
  {
    LeavingKeepsQueues(w, Commit(w, TransmitEffect(w, chan)), chan);
  }

  lemma StepKeepsQueues(w: World, s: Step)
    requires Queues(w) && Enabled(w, s)
    ensures Queues(Apply(w, s))
  {
    if s.Transmit? {
      TransmitKeepsQueues(w, s.chan);
    } else if s.Send? {
      if |w.channels[w.threads[s.t].chan].buffer| < SEND_BUFFER {
        RoomySendKeepsQueues(w, s.t, s.m);
      } else {
        FullSendLeavesQueues(w, s.t, s.m);
        LeavesQueuesKeeps(w, EffectOf(w, s));
      }
    } else {
      OtherLeavesQueues(w, s);
      LeavesQueuesKeeps(w, EffectOf(w, s));
    }
  }

  lemma {:induction false} RunKeepsQueues(w: World, steps: seq<Step>)
    requires Queues(w) && Runs(w, steps)
    ensures Queues(After(w, steps))
    decreases |steps|
  {
    if steps != [] {
      StepKeepsQueues(w, steps[0]);
      RunKeepsQueues(Apply(w, steps[0]), steps[1..]);
    }
  }

  // ----- what can happen next

  /** The command's message waits in the buffer, or the command waits for room in it. */
  ghost predicate InTheWay(w: World, chan: Id, f: Focus) {
    || (exists m :: m in BufferOf(w, chan) && MentionedIn(w, m, f.id))
    || (chan == f.chan && |BufferOf(w, chan)| >= SEND_BUFFER &&
        exists t :: AttemptIn(w, t, Sending) && w.threads[t].cmd.id == f.id)
  }

  /** The event can happen, and moves the command or takes a message out of the buffer the command waits for. */
  ghost predicate Advances(w: World, ev: Event, f: Focus) {
    && Allowed(w, ev, f) && Runs(w, StepsOf(w, ev, f))
    && (Moved(w, ev, f) || (ev.Single? && ev.s.Transmit? && InTheWay(w, ev.s.chan, f)))
  }

  /** The command waits for other messages to leave a buffer first. */
  ghost predicate HeldUp(w: World, f: Focus, t: nat)
    requires t in w.threads
  {
    || Waiting(w.threads, t)
    || (AttemptIn(w, t, Sending) && |BufferOf(w, f.chan)| >= SEND_BUFFER)
  }

  lemma SingleAdvances(w: World, s: Step, f: Focus)
    requires Enabled(w, s) && (OwnStep(w, s, f) || (s.Transmit? && !Concerns(w, s, f) && InTheWay(w, s.chan, f)))
    ensures Advances(w, Single(s), f) && After(w, StepsOf(w, Single(s), f)) == Apply(w, s)
  {
    assert Runs(Apply(w, s), []);
    RunFirst(w, s, []);
    assert [s] + [] == [s];
  }

  /** Whoever holds the baton and is not held up has a next event, which moves the command. */
  lemma NextMove(w: World, f: Focus, t: nat) returns (ev: Event)
    requires StableAt(w, f, Some(t)) && !HeldUp(w, f, t)
    ensures Advances(w, ev, f) && Moved(w, ev, f)
  {
    match w.threads[t]
    case Spawning(_) => ev := NextStep(w, Spawn(t), f);
    case Attempting(phase, _, _, _) => ev := NextOfAttempt(w, f, t);
    case Message(_, _) => ev := NextStep(w, Receive(t), f);
    case Running(_, _, _, _) => ev := NextOfExecution(w, f, t);
  }

  lemma NextStep(w: World, s: Step, f: Focus) returns (ev: Event)
    requires Enabled(w, s) && OwnStep(w, s, f)
    ensures Advances(w, ev, f) && Moved(w, ev, f)
  {
    ev := Single(s);
    SingleAdvances(w, s, f);
  }

  lemma NextOfAttempt(w: World, f: Focus, t: nat) returns (ev: Event)
    requires StableAt(w, f, Some(t)) && !HeldUp(w, f, t) && w.threads[t].Attempting?
    ensures Advances(w, ev, f) && Moved(w, ev, f)
  {
    match w.threads[t].phase
    case Start => ev := NextStep(w, Load(t, 0), f);
    case Loaded => ev := NextStep(w, Save(t), f);
    case Sending =>
      var m := Final.FreshNumber(w.threads.Keys);
      ev := NextStep(w, Send(t, m), f);
  }

  lemma NextOfExecution(w: World, f: Focus, t: nat) returns (ev: Event)
    requires StableAt(w, f, Some(t)) && w.threads[t].Running?
    ensures Advances(w, ev, f) && Moved(w, ev, f)
  {
    if w.threads[t].outbox != [] {
      var u := Final.FreshNumber(w.threads.Keys);
      ev := Handle(t, u, 0);
      var b := HandleMoves(w, t, u, 0, f);
    } else if w.threads[t].announced {
      ev := NextStep(w, Finish(t, SaysCompleted("")), f);
    } else {
      ev := NextStep(w, Announce(t), f);
    }
  }

  /** The buffer that holds the command up is not empty, and its oldest message can go. */
  lemma Transmits(w: World, chan: Id, f: Focus, t: nat)
    requires StableAt(w, f, Some(t)) && Queues(w) && BufferOf(w, chan) != []
    requires t in BufferOf(w, chan) || (chan == f.chan && HeldUp(w, f, t) && !Waiting(w.threads, t))
    ensures Enabled(w, Transmit(chan)) && Advances(w, Single(Transmit(chan)), f)
    ensures Concerns(w, Transmit(chan), f) <==> BufferOf(w, chan)[0] == t
    ensures BufferOf(Apply(w, Transmit(chan)), chan) == BufferOf(w, chan)[1..]
  {
    assert Waiting(w.threads, BufferOf(w, chan)[0]);
    assert InTheWay(w, chan, f) by {
      assert t in BufferOf(w, chan) ==> MentionedIn(w, t, f.id);
    }
    SingleAdvances(w, Transmit(chan), f);
  }

  /** As long as the command is not terminal, there is an event that moves it or clears its way. */
  lemma SomethingAdvances(w: World, f: Focus, b: Option<nat>) returns (ev: Event)
    requires StableAt(w, f, b) && Queues(w) && !Terminal(w.rows[f.id].status)
    ensures Advances(w, ev, f)
  {
    var t := b.value;
    if !HeldUp(w, f, t) {
      ev := NextMove(w, f, t);
    } else if Waiting(w.threads, t) {
      var chan :| t in BufferOf(w, chan);
      Transmits(w, chan, f, t);
      ev := Single(Transmit(chan));
    } else {
      Transmits(w, f.chan, f, t);
      ev := Single(Transmit(f.chan));
    }
  }

  // ----- some continuation brings the command to an end

  ghost predicate CanFinish(w: World, f: Focus) {
    exists evs :: FinishesBy(w, evs, f)
  }

  ghost predicate FinishesBy(w: World, evs: seq<Event>, f: Focus) {
    && Session(w, evs, f)
    && f.id in AfterSession(w, evs, f).rows && Terminal(AfterSession(w, evs, f).rows[f.id].status)
  }

  lemma EventAlong(w: World, ev: Event, f: Focus)
    requires Allowed(w, ev, f) && Runs(w, StepsOf(w, ev, f)) && CanFinish(After(w, StepsOf(w, ev, f)), f)
    ensures CanFinish(w, f)
  {
    var evs :| FinishesBy(After(w, StepsOf(w, ev, f)), evs, f);
    var all := [ev] + evs;
    assert all[0] == ev && all[1..] == evs;
    assert FinishesBy(w, all, f);
  }

  lemma {:induction false} Finishes(w: World, f: Focus, b: Option<nat>)
    requires StableAt(w, f, b) && Queues(w)
    ensures CanFinish(w, f)
    decreases Rank(w, f, b), 1, 0
  {
    RankIsNatural(w, f, b);
    if Terminal(w.rows[f.id].status) {
      assert FinishesBy(w, [], f);
    } else if !HeldUp(w, f, b.value) {
      var ev := NextMove(w, f, b.value);
      MoveFinishes(w, ev, f, b);
    } else if Waiting(w.threads, b.value) {
      var chan :| b.value in BufferOf(w, chan);
      Drains(w, chan, f, b.value);
    } else {
      Drains(w, f.chan, f, b.value);
    }
  }

  lemma {:induction false} MoveFinishes(w: World, ev: Event, f: Focus, b: Option<nat>)
    requires StableAt(w, f, b) && Queues(w) && Advances(w, ev, f) && Moved(w, ev, f)
    ensures CanFinish(w, f)
    decreases Rank(w, f, b), 0, 0
  {
    RankIsNatural(w, f, b);
    var b1 := EventMoves(w, ev, f, b);
    RunKeepsQueues(w, StepsOf(w, ev, f));
    Finishes(After(w, StepsOf(w, ev, f)), f, b1);
    EventAlong(w, ev, f);
  }

  /** The messages ahead leave the buffer one by one, until the command's own turn, or until there is room for it. */
  lemma {:induction false} Drains(w: World, chan: Id, f: Focus, t: nat)
    requires StableAt(w, f, Some(t)) && Queues(w) && HeldUp(w, f, t)
    requires if Waiting(w.threads, t) then t in BufferOf(w, chan) else chan == f.chan
    ensures CanFinish(w, f)
    decreases Rank(w, f, Some(t)), 0, |BufferOf(w, chan)| + 1
  {
    RankIsNatural(w, f, Some(t));
    var s := Transmit(chan);
    Transmits(w, chan, f, t);
    if Concerns(w, s, f) {
      MoveFinishes(w, Single(s), f, Some(t));
    } else {
      var w1 := Apply(w, s);
      OtherStepKeeps(w, s, f, Some(t));
      StepKeepsQueues(w, s);
      if HeldUp(w1, f, t) {
        Drains(w1, chan, f, t);
      } else {
        var ev := NextMove(w1, f, t);
        MoveFinishes(w1, ev, f, Some(t));
      }
      SingleAdvances(w, s, f);
      EventAlong(w, Single(s), f);
    }
  }

  /** A new command on a stable connection: whatever session it has been through, it can still be brought to a terminal
      row; and where nothing in the session can move it or clear its way any more, its row is terminal. */
  lemma SessionsEndTerminal(steps: seq<Step>, t: nat, cmd: Command, now: int, evs: seq<Event>, f: Focus)
    requires Runs(INITIAL, steps) && Enabled(After(INITIAL, steps), Create(t, cmd, now))
    requires cmd.id == f.id && cmd.agent == f.agent && cmd.attempts == 0 && cmd.maxAttempts >= 0
    requires var w := After(INITIAL, steps);
             && f.agent in w.registry && w.registry[f.agent] == f.chan && f.chan in w.channels
             && !w.channels[f.chan].closed && forall u :: u in w.threads ==> w.threads[u] != Listing(f.agent)
    requires Session(Apply(After(INITIAL, steps), Create(t, cmd, now)), evs, f)
    ensures var w1 := AfterSession(Apply(After(INITIAL, steps), Create(t, cmd, now)), evs, f);
            && f.id in w1.rows && CanFinish(w1, f)
            && ((forall ev :: !Advances(w1, ev, f)) ==> Terminal(w1.rows[f.id].status))
  {
    var w := After(INITIAL, steps);
    var w0 := Apply(w, Create(t, cmd, now));
    RunKeepsInv(INITIAL, steps);
    RunKeepsQueues(INITIAL, steps);
    DispatchStarts(w, t, cmd, now, f);
    StepKeepsQueues(w, Create(t, cmd, now));
    SessionKeepsQueues(w0, evs, f);
    var w1 := AfterSession(w0, evs, f);
    var b := SessionKeeps(w0, evs, f, Some(t));
    Finishes(w1, f, b);
    if !Terminal(w1.rows[f.id].status) {
      var ev := SomethingAdvances(w1, f, b);
    }
  }

  lemma {:induction false} SessionKeepsQueues(w: World, evs: seq<Event>, f: Focus)
    requires Queues(w) && Session(w, evs, f)
    ensures Queues(AfterSession(w, evs, f))
    decreases |evs|
  {
    if evs != [] {
      RunKeepsQueues(w, StepsOf(w, evs[0], f));
      SessionKeepsQueues(After(w, StepsOf(w, evs[0], f)), evs[1..], f);
    }
  }
}
