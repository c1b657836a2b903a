/**
 The at-least-once command bus between the control plane and its agents, as a
 transition system. A step is one access to the command table or to the
 connection registry (or one move of the agent), so that every interleaving of
 the goroutines is a sequence of steps. Each goroutine carries its own copy of
 a command row, which may be stale, and every write stores a whole row.
 */
module CommandBus {
  import opened Wrappers

  type Id = string

  const SEND_BUFFER := 100
  const SECOND := 1_000_000_000

  datatype Status = Pending | Dispatched | Executing | Completed | Failed | DeadLetter | Timeout

  predicate Terminal(s: Status) {
    s == Completed || s == Failed || s == DeadLetter || s == Timeout
  }

  datatype Command = Command(
    id: Id, agent: Id, body: string, key: string, status: Status,
    timeoutSeconds: int, attempts: int, maxAttempts: int,
    createdAt: int, dispatchedAt: Option<int>, executedAt: Option<int>, completedAt: Option<int>,
    result: string, lastError: string)

  datatype Report = SaysExecuting | SaysCompleted(result: string) | SaysFailed(error: string) | SaysOther

  predicate Final(r: Report) {
    r.SaysCompleted? || r.SaysFailed?
  }

  datatype Channel = Channel(buffer: seq<nat>, closed: bool)

  /** Where an attempt to dispatch one command stands: before the registry look-up,
      before the row is written, before the send, before the row is put back. */
  datatype Phase = Start | Loaded | Sending | Reverting

  datatype Thread =
    | Spawning(cmd: Command)                 // the row is written, `go attemptDispatch` is still to come
    | Attempting(phase: Phase, cmd: Command, chan: Id, rest: seq<Command>)  // rest: what a scan has still to try
    | Listing(agent: Id)                                            // a reconnect scan that has not read the table yet
    | Reporting(cmd: Command, report: Report)                       // HandleResult between its read and its write
    | Sweeping(now: int, todo: seq<Command>)                        // the timeout monitor working through its list
    | Message(about: Id, wired: bool)                               // a dispatched message, in the buffer or past it
    | Running(about: Id, announced: bool, finished: bool, outbox: seq<Report>)  // executeCommand on the agent

  /** The last four fields are history: how often a row was put back by the full-buffer branch; the rows
      whose latest write was such a put-back, made since their agent last connected; how often the agent
      started a command; and how often a command may be attempted, which is once even if it comes with its
      attempts used up. */
  datatype World = World(
    rows: map<Id, Command>, registry: map<Id, Id>, channels: map<Id, Channel>, threads: map<nat, Thread>,
    reverts: map<Id, nat>, reverted: set<Id>, executions: map<Id, nat>, limits: map<Id, int>)

  const INITIAL := World(map[], map[], map[], map[], map[], {}, map[], map[])

  function CountOf(m: map<Id, nat>, c: Id): nat {
    if c in m then m[c] else 0
  }

  // ----- what the bodies compute on one command

  function Accepted(cmd: Command, now: int): Command {
    cmd.(status := Pending, createdAt := now,
         maxAttempts := if cmd.maxAttempts == 0 then 3 else cmd.maxAttempts,
         timeoutSeconds := if cmd.timeoutSeconds == 0 then 120 else cmd.timeoutSeconds)
  }

  function Limit(cmd: Command): int {
    if cmd.maxAttempts > cmd.attempts then cmd.maxAttempts else cmd.attempts + 1
  }

  function Sent(cmd: Command, now: int): Command {
    cmd.(status := Dispatched, dispatchedAt := Some(now), attempts := cmd.attempts + 1)
  }

  predicate Retries(cmd: Command, report: Report) {
    report.SaysFailed? && cmd.attempts < cmd.maxAttempts
  }

  function Answered(cmd: Command, report: Report, now: int): Command {
    match report
    case SaysExecuting => cmd.(status := Executing, executedAt := Some(now))
    case SaysCompleted(result) => cmd.(status := Completed, completedAt := Some(now), result := result)
    case SaysFailed(error) =>
      cmd.(lastError := error, status := if cmd.attempts < cmd.maxAttempts then Pending else DeadLetter)
    case SaysOther => cmd
  }

  predicate Overdue(cmd: Command, now: int) {
    now - (if cmd.dispatchedAt.Some? then cmd.dispatchedAt.value else cmd.createdAt) > cmd.timeoutSeconds * SECOND
  }

  function TimedOut(cmd: Command): Command {
    cmd.(status := Timeout, lastError := "execution timed out")
  }

  // ----- what the table's queries return

  ghost predicate Lists(rows: map<Id, Command>, listed: seq<Command>, p: Command -> bool) {
    && (forall i :: 0 <= i < |listed| ==> listed[i].id in rows && rows[listed[i].id] == listed[i] && p(listed[i]))
    && (forall i, j :: 0 <= i < j < |listed| ==> listed[i].id != listed[j].id)
    && (forall c :: c in rows && p(rows[c]) ==> rows[c] in listed)
  }

  ghost predicate ListsPending(rows: map<Id, Command>, listed: seq<Command>, agent: Id) {
    && Lists(rows, listed, (k: Command) => k.status == Pending && k.agent == agent)
    && (forall i, j :: 0 <= i < j < |listed| ==> listed[i].createdAt <= listed[j].createdAt)
  }

  ghost predicate ListsActive(rows: map<Id, Command>, listed: seq<Command>) {
    Lists(rows, listed, (k: Command) => k.status == Dispatched || k.status == Executing)
  }

  // ----- steps

  datatype Step =
    | Create(t: nat, cmd: Command, now: int)      // Dispatch stores the row
    | Spawn(t: nat)                               // `go attemptDispatch`, or the retry timer fires
    | Load(t: nat, now: int)                      // the registry look-up
    | Save(t: nat)                                // the row is written as dispatched
    | Send(t: nat, m: nat)                        // the non-blocking send, m naming the message
    | PutBack(t: nat)                             // the row is written as pending again
    | Register(t: nat, agent: Id, chan: Id)       // the channel is stored, the scan is started
    | List(t: nat, listed: seq<Command>)          // the scan reads the pending rows
    | Unregister(agent: Id)
    | Close(chan: Id)
    | Read(t: nat, about: Id, report: Report)     // HandleResult reads a row that is not terminal
    | Answer(t: nat, now: int)                    // HandleResult writes it
    | SweepList(t: nat, now: int, active: seq<Command>)
    | SweepNext(t: nat)
    | Transmit(chan: Id)                          // the connection's writer takes the oldest message
    | Receive(m: nat)                             // the agent starts to execute it
    | Lose(m: nat)                                // it is lost on the wire
    | Announce(m: nat)                            // the agent sends its "executing" report
    | Finish(m: nat, report: Report)              // the agent sends its final report
    | Consume(m: nat, t: nat)                     // the server takes the execution's oldest report and reads the row

  ghost predicate Enabled(w: World, s: Step) {
    match s
    case Create(t, cmd, _) => t !in w.threads && cmd.id !in w.rows
    case Spawn(t) => t in w.threads && w.threads[t].Spawning?
    case Load(t, _) => AttemptIn(w, t, Start)
    case Save(t) => AttemptIn(w, t, Loaded)
    case Send(t, m) => AttemptIn(w, t, Sending) && m !in w.threads &&
                       w.threads[t].chan in w.channels && !w.channels[w.threads[t].chan].closed
    case PutBack(t) => AttemptIn(w, t, Reverting)
    case Register(t, _, chan) => t !in w.threads && chan !in w.channels
    case List(t, listed) => t in w.threads && w.threads[t].Listing? && ListsPending(w.rows, listed, w.threads[t].agent)
    case Unregister(_) => true
    case Close(chan) => chan in w.channels
    case Read(t, c, report) => t !in w.threads && Heeds(w, c, report)
    case Answer(t, _) => t in w.threads && w.threads[t].Reporting?
    case SweepList(t, _, active) => t !in w.threads && ListsActive(w.rows, active)
    case SweepNext(t) => t in w.threads && w.threads[t].Sweeping? && w.threads[t].todo != []
    case Transmit(chan) => chan in w.channels && w.channels[chan].buffer != [] &&
                           w.channels[chan].buffer[0] in w.threads && w.threads[w.channels[chan].buffer[0]].Message? &&
                           !w.threads[w.channels[chan].buffer[0]].wired
    case Receive(m) => m in w.threads && w.threads[m].Message? && w.threads[m].wired
    case Lose(m) => m in w.threads && w.threads[m].Message? && w.threads[m].wired
    case Announce(m) => m in w.threads && w.threads[m].Running? && !w.threads[m].announced
    case Finish(m, report) => m in w.threads && w.threads[m].Running? && w.threads[m].announced &&
      !w.threads[m].finished && Final(report)
    case Consume(m, t) => m in w.threads && w.threads[m].Running? && w.threads[m].outbox != [] && t !in w.threads
  }

  predicate AttemptIn(w: World, t: nat, phase: Phase) {
    t in w.threads && w.threads[t].Attempting? && w.threads[t].phase == phase
  }

  /** What one step does to the world: the row it stores (put back or not), the goroutines and messages it
      leaves in place of those it ends, the connections, the command an agent starts, and the agent for
      which a reconnect scan starts. */
  datatype Effect = Effect(
    write: Option<Command>, putBack: bool, ended: set<nat>, threads: map<nat, Thread>,
    registry: map<Id, Id>, channels: map<Id, Channel>, started: Option<Id>, scans: Option<Id>)

  function Nothing(w: World): Effect {
    Effect(None, false, {}, map[], w.registry, w.channels, None, None)
  }

  /** Thread t becomes th, or ends. */
  function Becomes(e: Effect, t: nat, th: Option<Thread>): Effect {
    if th.Some? then e.(threads := e.threads[t := th.value]) else e.(ended := e.ended + {t})
  }

  function Scan(todo: seq<Command>): Option<Thread> {
    if todo == [] then None else Some(Attempting(Start, todo[0], "", todo[1..]))
  }

  function Sweep(now: int, todo: seq<Command>): Option<Thread> {
    if todo == [] then None else Some(Sweeping(now, todo))
  }

  function CreateEffect(w: World, t: nat, cmd: Command, now: int): Effect {
    var k := Accepted(cmd, now);
    Becomes(Nothing(w), t, Some(Spawning(k))).(write := Some(k))
  }

  function SpawnEffect(w: World, t: nat): Effect
    requires t in w.threads && w.threads[t].Spawning?
  {
    Becomes(Nothing(w), t, Some(Attempting(Start, w.threads[t].cmd, "", [])))
  }

  function LoadEffect(w: World, t: nat, now: int): Effect
    requires AttemptIn(w, t, Start)
  {
    var th := w.threads[t];
    Becomes(Nothing(w), t,
            if th.cmd.agent in w.registry
            then Some(Attempting(Loaded, Sent(th.cmd, now), w.registry[th.cmd.agent], th.rest))
            else Scan(th.rest))
  }

  function SaveEffect(w: World, t: nat): Effect
    requires AttemptIn(w, t, Loaded)
  {
    var th := w.threads[t];
    Becomes(Nothing(w), t, Some(Attempting(Sending, th.cmd, th.chan, th.rest))).(write := Some(th.cmd))
  }

  function SendEffect(w: World, t: nat, m: nat): Effect
    requires AttemptIn(w, t, Sending) && w.threads[t].chan in w.channels
  {
    var th := w.threads[t];
    var ch := w.channels[th.chan];
    if |ch.buffer| < SEND_BUFFER
    then Becomes(Becomes(Nothing(w), t, Scan(th.rest)), m, Some(Message(th.cmd.id, false)))
         .(channels := w.channels[th.chan := ch.(buffer := ch.buffer + [m])])
    else Becomes(Nothing(w), t, Some(Attempting(Reverting, th.cmd.(status := Pending), th.chan, th.rest)))
  }

  function PutBackEffect(w: World, t: nat): Effect
    requires AttemptIn(w, t, Reverting)
  {
    Becomes(Nothing(w), t, Scan(w.threads[t].rest)).(write := Some(w.threads[t].cmd), putBack := true)
  }

  function RegisterEffect(w: World, t: nat, agent: Id, chan: Id): Effect {
    Becomes(Nothing(w), t, Some(Listing(agent)))
    .(registry := w.registry[agent := chan], channels := w.channels[chan := Channel([], false)], scans := Some(agent))
  }

  function AnswerEffect(w: World, t: nat, now: int): Effect
    requires t in w.threads && w.threads[t].Reporting?
  {
    var th := w.threads[t];
    var k := Answered(th.cmd, th.report, now);
    Becomes(Nothing(w), t, if Retries(th.cmd, th.report) then Some(Spawning(k)) else None).(write := Some(k))
  }

  function SweepNextEffect(w: World, t: nat): Effect
    requires t in w.threads && w.threads[t].Sweeping? && w.threads[t].todo != []
  {
    var th := w.threads[t];
    Becomes(Nothing(w), t, Sweep(th.now, th.todo[1..]))
    .(write := if Overdue(th.todo[0], th.now) then Some(TimedOut(th.todo[0])) else None)
  }

  function TransmitEffect(w: World, chan: Id): Effect
    requires chan in w.channels && w.channels[chan].buffer != []
    requires w.channels[chan].buffer[0] in w.threads && w.threads[w.channels[chan].buffer[0]].Message?
  {
    var ch := w.channels[chan];
    Becomes(Nothing(w), ch.buffer[0], Some(Message(w.threads[ch.buffer[0]].about, true)))
    .(channels := w.channels[chan := ch.(buffer := ch.buffer[1..])])
  }

  function ReceiveEffect(w: World, m: nat): Effect
    requires m in w.threads && w.threads[m].Message?
  {
    var c := w.threads[m].about;
    Becomes(Nothing(w), m, Some(Running(c, false, false, []))).(started := Some(c))
  }

  function AgentEffect(w: World, m: nat, report: Report): Effect
    requires m in w.threads && w.threads[m].Running?
  {
    var th := w.threads[m];
    Becomes(Nothing(w), m, Some(Running(th.about, true, th.announced, th.outbox + [report])))
  }

  /** HandleResult reads the row, and goes on only if it is there, not terminal, and the report is one it knows. */
  predicate Heeds(w: World, c: Id, report: Report) {
    c in w.rows && !Terminal(w.rows[c].status) && !report.SaysOther?
  }

  function ConsumeEffect(w: World, m: nat, t: nat): Effect
    requires m in w.threads && w.threads[m].Running? && w.threads[m].outbox != []
  {
    var th := w.threads[m];
    var left := th.outbox[1..];
    var e := Becomes(Nothing(w), m, if th.finished && left == [] then None
        else Some(Running(th.about, th.announced, th.finished, left)));
    if Heeds(w, th.about, th.outbox[0]) then Becomes(e, t, Some(Reporting(w.rows[th.about], th.outbox[0]))) else e
  }

  function EffectOf(w: World, s: Step): Effect
    requires Enabled(w, s)
  {
    match s
    case Create(t, cmd, now) => CreateEffect(w, t, cmd, now)
    case Spawn(t) => SpawnEffect(w, t)
    case Load(t, now) => LoadEffect(w, t, now)
    case Save(t) => SaveEffect(w, t)
    case Send(t, m) => SendEffect(w, t, m)
    case PutBack(t) => PutBackEffect(w, t)
    case Register(t, agent, chan) => RegisterEffect(w, t, agent, chan)
    case List(t, listed) => Becomes(Nothing(w), t, Scan(listed))
    case Unregister(agent) => Nothing(w).(registry := w.registry - {agent})
    case Close(chan) => Nothing(w).(channels := w.channels[chan := w.channels[chan].(closed := true)])
    case Read(t, c, report) => Becomes(Nothing(w), t, Some(Reporting(w.rows[c], report)))
    case Answer(t, now) => AnswerEffect(w, t, now)
    case SweepList(t, now, active) => Becomes(Nothing(w), t, Sweep(now, active))
    case SweepNext(t) => SweepNextEffect(w, t)
    case Transmit(chan) => TransmitEffect(w, chan)
    case Receive(m) => ReceiveEffect(w, m)
    case Lose(m) => Becomes(Nothing(w), m, None)
    case Announce(m) => AgentEffect(w, m, SaysExecuting)
    case Finish(m, report) => AgentEffect(w, m, report)
    case Consume(m, t) => ConsumeEffect(w, m, t)
  }

  /** The put-back rows that a scan for the agent, if one starts, will not find. */
  function StillReverted(w: World, scans: Option<Id>): set<Id> {
    if scans.None? then w.reverted
    else set c | c in w.reverted && !(c in w.rows && w.rows[c].agent == scans.value)
  }

  /** The limits once the row is stored: only a new row gets one. */
  function Limited(w: World, k: Command): map<Id, int> {
    if k.id in w.rows then w.limits else w.limits[k.id := Limit(k)]
  }

  function Commit(w: World, e: Effect): World {
    var reverted := StillReverted(w, e.scans);
    World(
      if e.write.Some? then w.rows[e.write.value.id := e.write.value] else w.rows,
      e.registry, e.channels, (w.threads - e.ended) + e.threads,
      if e.write.Some? && e.putBack then w.reverts[e.write.value.id := CountOf(w.reverts, e.write.value.id) + 1]
          else w.reverts,
      if e.write.None? then reverted
      else if e.putBack then reverted + {e.write.value.id} else reverted - {e.write.value.id},
      if e.started.Some? then w.executions[e.started.value := CountOf(w.executions, e.started.value) + 1]
          else w.executions,
      if e.write.Some? then Limited(w, e.write.value) else w.limits)
  }

  function Apply(w: World, s: Step): World
    requires Enabled(w, s)
  {
    Commit(w, EffectOf(w, s))
  }

  lemma QuietCommit(v: World, e: Effect, threads: map<nat, Thread>)
    requires e == Nothing(v).(ended := e.ended, threads := e.threads) && (v.threads - e.ended) + e.threads == threads
    ensures Commit(v, e) == v.(threads := threads)
  {
  }

  lemma WritingCommit(v: World, e: Effect, k: Command, threads: map<nat, Thread>)
    requires e == Nothing(v).(ended := e.ended, threads := e.threads) && (v.threads - e.ended) + e.threads == threads
    ensures Commit(v, e.(write := Some(k))) ==
            v.(rows := v.rows[k.id := k], reverted := v.reverted - {k.id}, limits := Limited(v, k), threads := threads)
  {
  }

  /** Worlds are alike field by field. */
  lemma Together(w: World, w1: World)
    requires w.rows == w1.rows && w.registry == w1.registry && w.channels == w1.channels && w.threads == w1.threads
    requires w.reverts == w1.reverts && w.reverted == w1.reverted && w.executions == w1.executions
    requires w.limits == w1.limits
    ensures w == w1
  {
  }

  // ----- runs

  ghost predicate Runs(w: World, steps: seq<Step>)
    decreases |steps|
  {
    steps == [] || (Enabled(w, steps[0]) && Runs(Apply(w, steps[0]), steps[1..]))
  }

  ghost function After(w: World, steps: seq<Step>): World
    requires Runs(w, steps)
    decreases |steps|
  {
    if steps == [] then w else After(Apply(w, steps[0]), steps[1..])
  }
}
