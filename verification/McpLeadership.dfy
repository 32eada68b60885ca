/**
 MCP leadership across workers: `_acquire_leadership`, `_start_transport`, `enable`, `disable`
 and `_stop_transport` of backend/mcp/mount.py, with backend/mcp/leader.py.

 A coroutine runs alone between two awaits, so a worker is a record of what its manager holds
 plus the await it is suspended at, and `Resume` is the code from that await to the next one.
 What the awaited calls answer is a parameter. A cluster interleaves the workers with the
 database that hands out the advisory lock; the class at the end is the manager itself, whose
 methods run one worker's steps from start to end.
 */
module McpLeadership {
  import opened Common
  import AuditQueue

  // ---------------------------------------------------------------------------------
  // One worker
  // ---------------------------------------------------------------------------------

  /** The leader object: its dedicated connection, named by a session number, and its flag. */
  datatype Handle = Handle(conn: Option<int>, isLeader: bool)

  datatype LastError = NoError | NotMcpLeader | StartFailed

  /** The await a worker is suspended at. */
  datatype Point =
    | Idle
    | Connecting | Locking | Rejecting
    | Recovering | Seeding | Entering
    | StopSweeps | StopSli | StopTransport | StopServer | StopWriter | Unlocking | Closing

  /** The task of an audit writer. If it is not alive, `left` is how many records its queue counts as
      unfinished: nobody will mark them done. */
  datatype Task = Unstarted(left: nat) | Alive | Ended(failed: bool, left: nat)

  /** `writer` is the audit writer, by the state of its task; `served` and `asgi` are the
      server and the transport published in `app.state`. */
  datatype Worker = Worker(
    at: Point,
    leader: Option<Handle>,
    dbFloor: bool,
    breaker: bool,
    sli: bool,
    sweeps: bool,
    writer: Option<Task>,
    transport: bool,
    server: bool,
    served: bool,
    asgi: bool,
    lastError: LastError)

  /** What the calls of a start or a stop answer. `session` is the connection that opens;
      `protection` counts the protections built before the first failure; `early` the records enqueued
      while a writer that then fails to start reads the tail of its chain. The cancel of the audit
      task lands in a write if `writing`, with `others` records in the queue, and `late` are
      enqueued after it. The rest say whether a call returned or raised. */
  datatype Answers = Answers(
    session: int,
    connects: bool,
    locks: bool,
    granted: bool,
    protection: int,
    early: nat,
    seeds: bool,
    constructs: bool,
    builds: bool,
    hasTransport: bool,
    enters: bool,
    writing: bool,
    others: nat,
    late: nat,
    unlocks: bool)

  const FRESH := Worker(Idle, None, false, false, false, false, None, false, false, false, false, NoError)

  /** The audit queue when the cancel lands. */
  function AtLanding(a: Answers): AuditQueue.Queue {
    var n := a.others + if a.writing then 1 else 0;
    AuditQueue.Queue(a.others, n, if a.writing then AuditQueue.Writing else AuditQueue.Getting, true,
                     AuditQueue.Awaiting, n)
  }

  /** `AuditWriter.shutdown`: a live task is drained, cancelled and awaited; one that has ended is
      awaited again, if the drain before that returns. */
  function Shutdown(t: Task, a: Answers): Task {
    if t != Alive then t
    else
      var q := AuditQueue.Landing(AtLanding(a));
      Ended(q.point == AuditQueue.Over(true), q.unfinished + a.late)
  }

  /** The drain of what no task will write waits for ever. */
  predicate Jams(t: Option<Task>) {
    t.Some? && t.value != Alive && t.value.left > 0
  }

  /** It raises exactly when it gets to await a failed task. */
  predicate ShutdownRaises(t: Task, a: Answers) {
    !Jams(Some(t)) && Shutdown(t, a).Ended? && Shutdown(t, a).failed
  }

  /** The session of the leader object. */
  function Conn(w: Worker): Option<int> {
    if w.leader.Some? then w.leader.value.conn else None
  }

  /** How far a call is from its end. */
  function Rank(p: Point): nat {
    match p
    case Idle => 0
    case Closing => 1
    case Unlocking => 2
    case StopWriter => 3
    case StopServer => 4
    case StopTransport => 5
    case StopSli => 6
    case StopSweeps => 7
    case Entering => 8
    case Seeding => 9
    case Recovering => 10
    case Rejecting => 11
    case Locking => 12
    case Connecting => 13
  }

  /** `WEB_CONCURRENCY`, absent if unset or empty, and whether `DATABASE_URL` is set. The number of
      worker processes there are is neither. */
  datatype Environment = Environment(webConcurrency: Option<int>, databaseUrl: bool)

  /** Whether starts go through the lock. */
  predicate Contended(env: Environment) {
    env.webConcurrency.Some? && env.webConcurrency.value > 1 && env.databaseUrl
  }

  function BeginStart(w: Worker, contended: bool, a: Answers): (r: Worker)
    ensures r.writer == w.writer
  {
    if (w.leader.Some? && w.leader.value.isLeader) || !contended then Protect(w, a)
    else w.(leader := Some(Handle(None, false)), at := Connecting)
  }

  /** From leadership to the await of the sweep recovery. */
  function Protect(w: Worker, a: Answers): (r: Worker)
    ensures r.at == Recovering && r.leader == w.leader && r.writer == w.writer
  {
    w.(dbFloor := w.dbFloor || a.protection >= 1,
       breaker := w.breaker || a.protection >= 2,
       sli := w.sli || a.protection >= 3,
       at := Recovering)
  }

  function Lost(w: Worker): (r: Worker)
    ensures r.at == Idle && r.leader.None? && r.writer == w.writer
  {
    w.(leader := None, lastError := NotMcpLeader, at := Idle)
  }

  /** From the seeded audit writer to the await of the transport, or to the end of the start. */
  function Build(w: Worker, a: Answers): (r: Worker)
    ensures Rank(r.at) <= 8
    ensures (r.leader == w.leader || r.leader.None?) && r.writer == w.writer
  {
    if !a.constructs then Failed(w)
    else
      var built := w.(server := true, served := true);
      if !a.builds then Failed(built)
      else if a.hasTransport then built.(transport := true, at := Entering)
      else Up(built)
  }

  function Up(w: Worker): Worker {
    w.(asgi := true, lastError := NoError, at := Idle)
  }

  function Failed(w: Worker): (r: Worker)
    ensures Rank(r.at) <= 7
    ensures (r.leader == w.leader || r.leader.None?) && r.writer == w.writer
  {
    BeginStop(w.(lastError := StartFailed))
  }

  function BeginStop(w: Worker): (r: Worker)
    ensures Rank(r.at) <= 7
    ensures (r.leader == w.leader || r.leader.None?) && r.writer == w.writer
  {
    var hidden := w.(served := false, asgi := false);
    if hidden.sweeps then hidden.(at := StopSweeps) else AfterSweeps(hidden)
  }

  function AfterSweeps(w: Worker): (r: Worker)
    ensures Rank(r.at) <= 6
    ensures (r.leader == w.leader || r.leader.None?) && r.writer == w.writer
  {
    if w.sli then w.(at := StopSli) else AfterSli(w)
  }

  function AfterSli(w: Worker): (r: Worker)
    ensures Rank(r.at) <= 5
    ensures (r.leader == w.leader || r.leader.None?) && r.writer == w.writer
  {
    var bare := w.(breaker := false, dbFloor := false);
    if bare.transport then bare.(at := StopTransport) else AfterTransport(bare)
  }

  function AfterTransport(w: Worker): (r: Worker)
    ensures Rank(r.at) <= 4
    ensures (r.leader == w.leader || r.leader.None?) && r.writer == w.writer
  {
    if w.server then w.(at := StopServer) else AfterServer(w)
  }

  function AfterServer(w: Worker): (r: Worker)
    ensures Rank(r.at) <= 3
    ensures (r.leader == w.leader || r.leader.None?) && r.writer == w.writer
  {
    if w.writer.Some? then w.(at := StopWriter) else AfterWriter(w)
  }

  function AfterWriter(w: Worker): (r: Worker)
    ensures Rank(r.at) <= 2
    ensures (r.leader == w.leader || r.leader.None?) && r.writer == w.writer
  {
    if Conn(w).Some? then w.(at := Unlocking) else w.(leader := None, at := Idle)
  }

  /** The server's shutdown is that of its audit writer, and raises if that does. */
  predicate Stuck(w: Worker, a: Answers) {
    w.server && w.writer.Some? && ShutdownRaises(w.writer.value, a)
  }

  function Ending(w: Worker, a: Answers): Option<Task> {
    if w.writer.Some? then Some(Shutdown(w.writer.value, a)) else None
  }

  /** Records for a queue that no task empties. */
  function Enqueued(w: Worker, n: nat): (r: Worker)
    ensures r == w.(writer := r.writer)
  {
    match w.writer
    case Some(Unstarted(left)) => w.(writer := Some(Unstarted(left + n)))
    case Some(Ended(failed, left)) => w.(writer := Some(Ended(failed, left + n)))
    case _ => w
  }

  /** The code from one await to the next. Shutting the server down ends the writer's task whether
      or not it raises; only when it returns is the server forgotten. */
  function Resume(w: Worker, a: Answers): Worker {
    match w.at
    case Idle => w
    case Connecting =>
      if a.connects then w.(leader := Some(Handle(Some(a.session), false)), at := Locking) else Lost(w)
    case Locking =>
      if a.locks && a.granted && w.leader.Some?
      then Protect(w.(leader := Some(Handle(Conn(w), true))), a)
      else w.(at := Rejecting)
    case Rejecting => Lost(w)
    case Recovering => w.(writer := Some(Unstarted(0)), at := Seeding)
    case Seeding => if a.seeds then Build(w.(writer := Some(Alive)), a) else Failed(Enqueued(w, a.early))
    case Entering => if a.enters then Up(w) else Failed(w)
    case StopSweeps => AfterSweeps(w.(sweeps := false))
    case StopSli => AfterSli(w.(sli := false))
    case StopTransport => AfterTransport(w.(transport := false))
    case StopServer =>
      if Jams(w.writer) then w
      else if Stuck(w, a) then w.(writer := Ending(w, a), at := Idle)
      else AfterServer(w.(server := false, writer := Ending(w, a)))
    case StopWriter => if Jams(w.writer) then w else AfterWriter(w.(writer := None))
    case Unlocking => w.(at := Closing)
    case Closing => w.(leader := None, at := Idle)
  }

  /** The call never ends. */
  predicate Waits(w: Worker) {
    (w.at == StopServer || w.at == StopWriter) && Jams(w.writer)
  }

  /** A call that waits for ever does not keep the worker from another one: nothing else runs. */
  predicate Free(w: Worker) {
    w.at == Idle || Waits(w)
  }

  lemma ResumeDescends(w: Worker, a: Answers)
    ensures w.at != Idle && !Waits(w) ==> Rank(Resume(w, a).at) < Rank(w.at)
  {
    hide Resume, Rank;
    if Waits(w) {
      return;
    }
    match w.at
    case Idle =>
    case Connecting | Rejecting => ConnectDescends(w, a);
    case Locking => LockDescends(w, a);
    case Recovering | Seeding | Entering => BuildDescends(w, a);
    case StopSweeps | StopSli | StopTransport | StopServer => StopDescends(w, a);
    case StopWriter | Unlocking | Closing => ReleaseDescends(w, a);
  }

  lemma ConnectDescends(w: Worker, a: Answers)
    requires w.at == Connecting || w.at == Rejecting
    ensures Rank(Resume(w, a).at) < Rank(w.at)
  {
    hide Protect, Lost;
  }

  lemma LockDescends(w: Worker, a: Answers)
    requires w.at == Locking
    ensures Rank(Resume(w, a).at) < Rank(w.at)
  {
    hide Protect, Lost;
  }

  lemma BuildDescends(w: Worker, a: Answers)
    requires w.at == Recovering || w.at == Seeding || w.at == Entering
    ensures Rank(Resume(w, a).at) < Rank(w.at)
  {
  }

  lemma StopDescends(w: Worker, a: Answers)
    requires w.at == StopSweeps || w.at == StopSli || w.at == StopTransport || w.at == StopServer
    requires !Waits(w)
    ensures Rank(Resume(w, a).at) < Rank(w.at)
  {
  }

  lemma ReleaseDescends(w: Worker, a: Answers)
    requires (w.at == StopWriter || w.at == Unlocking || w.at == Closing) && !Waits(w)
    ensures Rank(Resume(w, a).at) < Rank(w.at)
  {
  }

  /** The worker when the call it is in has ended, or waits for ever. */
  function Settle(w: Worker, a: Answers): Worker
    decreases Rank(w.at)
  {
    ResumeDescends(w, a);
    if Free(w) then w else Settle(Resume(w, a), a)
  }

  // ---------------------------------------------------------------------------------
  // What a start and a stop leave behind
  // ---------------------------------------------------------------------------------

  /** Nothing of the server is left, except possibly the leader object. */
  predicate Bare(w: Worker) {
    && !w.dbFloor && !w.breaker && !w.sli && !w.sweeps && w.writer.None?
    && !w.transport && !w.server && !w.served && !w.asgi
  }

  predicate Cleared(w: Worker) {
    Bare(w) && w.leader.None?
  }

  /** The endpoint answers with the live server. */
  predicate Serving(w: Worker) {
    w.server && w.served && w.asgi && w.writer == Some(Alive)
  }

  /** A worker whose server could not be shut down: the server, its dead writer and the leader
      object stay, and nothing is served. */
  predicate HalfStopped(w: Worker) {
    && w.server && w.writer.Some? && w.writer.value.Ended? && w.writer.value.failed
    && !w.transport && Unprotected(w)
  }

  /** What a stop leaves: nothing, unless the server's shutdown raises, which skips the audit writer
      and the leader, or one of the two shutdowns waits for ever. */
  function Shut(w: Worker, a: Answers): Worker {
    var gone := FRESH.(lastError := w.lastError);
    if w.server && Jams(w.writer) then gone.(leader := w.leader, server := true, writer := w.writer, at := StopServer)
    else if Stuck(w, a) then gone.(leader := w.leader, server := true, writer := Ending(w, a))
    else if Jams(Leftover(w, a)) then gone.(leader := w.leader, writer := Leftover(w, a), at := StopWriter)
    else gone
  }

  /** The audit writer that the second shutdown gets. */
  function Leftover(w: Worker, a: Answers): Option<Task> {
    if w.server then Ending(w, a) else w.writer
  }

  lemma SettleSteps(w: Worker, a: Answers)
    ensures Free(w) ==> Settle(w, a) == w
    ensures !Free(w) ==> Settle(w, a) == Settle(Resume(w, a), a)
  {
  }

  predicate Unprotected(w: Worker) {
    !w.dbFloor && !w.breaker && !w.sli && !w.sweeps && !w.served && !w.asgi
  }

  lemma ShutForgets(w: Worker, v: Worker, a: Answers)
    requires w.leader == v.leader && w.server == v.server && w.lastError == v.lastError
    requires w.writer == v.writer || (!w.server && !Jams(w.writer) && !Jams(v.writer))
    ensures Shut(w, a) == Shut(v, a)
    ensures w.writer == v.writer ==> EndOf(w, a) == EndOf(v, a)
  {
  }

  datatype StopEnd = Stopped | Raised | Hangs

  function EndOf(w: Worker, a: Answers): StopEnd {
    if w.server && Jams(w.writer) then Hangs
    else if Stuck(w, a) then Raised
    else if Jams(Leftover(w, a)) then Hangs
    else Stopped
  }

  lemma SettleAfterWriter(w: Worker, a: Answers)
    requires Bare(w)
    ensures Settle(AfterWriter(w), a) == Shut(w, a)
  {
    hide Settle;
    var waiting := AfterWriter(w);
    SettleSteps(waiting, a);
    SettleSteps(waiting.(at := Closing), a);
    SettleSteps(w.(leader := None, at := Idle), a);
  }

  lemma SettleAfterServer(w: Worker, a: Answers)
    requires Unprotected(w) && !w.transport && !w.server
    ensures Settle(AfterServer(w), a) == Shut(w, a)
  {
    hide Settle, AfterWriter;
    SettleSteps(AfterServer(w), a);
    SettleAfterWriter(w.(writer := None, at := StopWriter), a);
    SettleAfterWriter(w.(writer := None), a);
  }

  lemma SettleAfterTransport(w: Worker, a: Answers)
    requires Unprotected(w) && !w.transport
    ensures Settle(AfterTransport(w), a) == Shut(w, a)
  {
    hide Settle, AfterServer;
    SettleSteps(AfterTransport(w), a);
    SettleSteps(w.(writer := Ending(w, a), at := Idle), a);
    if w.server {
      SettleAfterServer(w.(server := false, writer := Ending(w, a), at := StopServer), a);
    } else {
      SettleAfterServer(w, a);
    }
  }

  lemma SettleAfterSli(w: Worker, a: Answers)
    requires !w.sli && !w.sweeps && !w.served && !w.asgi
    ensures Settle(AfterSli(w), a) == Shut(w, a)
  {
    hide Settle, AfterTransport;
    SettleSteps(AfterSli(w), a);
    SettleAfterTransport(w.(breaker := false, dbFloor := false, transport := false, at := AfterSli(w).at), a);
    SettleAfterTransport(w.(breaker := false, dbFloor := false, transport := false), a);
  }

  lemma SettleAfterSweeps(w: Worker, a: Answers)
    requires !w.sweeps && !w.served && !w.asgi
    ensures Settle(AfterSweeps(w), a) == Shut(w, a)
  {
    hide Settle, AfterSli, Shut;
    var (polled, idle) := (w.(sli := false, at := StopSli), w.(sli := false));
    SettleSteps(AfterSweeps(w), a);
    SettleAfterSli(polled, a);
    SettleAfterSli(idle, a);
    ShutForgets(w, polled, a);
    ShutForgets(w, idle, a);
  }

  /** However much was up, a stop clears all of it, or ends half-way at the server, or waits for ever
      at one of the two shutdowns. */
  lemma StopLeaves(w: Worker, a: Answers)
    ensures Settle(BeginStop(w), a) == Shut(w, a)
  {
    hide Settle, AfterSweeps, Shut;
    var hidden := w.(served := false, asgi := false);
    SettleSteps(BeginStop(w), a);
    SettleAfterSweeps(hidden.(sweeps := false, at := StopSweeps), a);
    SettleAfterSweeps(hidden.(sweeps := false), a);
    ShutForgets(w, hidden.(sweeps := false, at := StopSweeps), a);
    ShutForgets(w, hidden.(sweeps := false), a);
  }

  /** Nothing is in the audit queue, or coming, when the cancel lands; or one record behind the one
      being written, which the failing handler counts done. */
  predicate CleanLanding(a: Answers) {
    a.late == 0 && a.others == if a.writing then 1 else 0
  }

  /** A stop leaves nothing behind, or ends half-way, or waits for ever, exactly as its shutdowns do.
      From a serving worker it raises exactly if the cancel of the audit task lands in a write with
      no other record in the queue, and it leaves nothing behind exactly if the landing is clean; in
      all other cases the second shutdown waits for ever. */
  lemma StopClearsExactly(w: Worker, a: Answers)
    ensures var (r, end) := (Settle(BeginStop(w), a), EndOf(w, a));
            && (Cleared(r) && r.at == Idle <==> end == Stopped)
            && (HalfStopped(r) && r.at == Idle <==> end == Raised)
            && (Waits(r) <==> end == Hangs)
            && (end != Stopped ==> r.leader == w.leader)
    ensures Serving(w) ==>
              var end := EndOf(w, a);
              && (end == Raised <==> a.writing && a.others == 0)
              && (end == Stopped <==> CleanLanding(a))
              && (end == Hangs ==> Settle(BeginStop(w), a).at == StopWriter)
  {
    hide Settle, BeginStop;
    StopLeaves(w, a);
  }

  /** The landing that the stop sees is one of the audit queue's, in any of its runs. */
  lemma LandingIsTheQueues(steps: seq<AuditQueue.Step>, a: Answers)
    requires LandsAfter(a, steps)
    ensures var r := AuditQueue.Next(AuditQueue.Run(AuditQueue.FRESH, steps), AuditQueue.Land);
            Shutdown(Alive, a) == Ended(r.point == AuditQueue.Over(true), r.unfinished + a.late)
  {
    AuditQueue.FreshIsSane();
    AuditQueue.RunIsSane(AuditQueue.FRESH, steps);
    hide AuditQueue.Run;
  }

  /** A half-stopped worker stays as it is through every later stop: awaiting the failed task raises
      again, unless records came after it, and then the stop waits for ever. */
  lemma HalfStoppedForGood(w: Worker, a: Answers)
    requires HalfStopped(w) && w.at == Idle
    ensures Settle(BeginStop(w), a) == if Jams(w.writer) then w.(at := StopServer) else w
  {
    hide Settle, BeginStop;
    StopLeaves(w, a);
  }

  /** The worker has the leadership that its mode asks for. */
  predicate Led(w: Worker, contended: bool) {
    if contended then w.leader.Some? && w.leader.value.isLeader else w.leader.None?
  }

  /** What calls leave: nothing, a served or a half-stopped server, or a stop that waits for ever. */
  predicate AtRest(w: Worker, contended: bool) {
    || (w.at == Idle && Cleared(w))
    || (Led(w, contended) && w.at == Idle && (Serving(w) || HalfStopped(w)))
    || (Led(w, contended) && (Hung(w) || (w.at == StopServer && HalfStopped(w) && Jams(w.writer))))
  }

  /** What a stop finds: an audit writer behind every server, alive or left by a failed shutdown. */
  predicate Stoppable(w: Worker, contended: bool) {
    && (Led(w, contended) || (!w.server && w.writer.None?))
    && (w.server ==> w.writer == Some(Alive) || HalfStopped(w))
  }

  lemma ShutRests(w: Worker, contended: bool, a: Answers)
    requires Stoppable(w, contended)
    ensures AtRest(Shut(w, a), contended)
    ensures EndOf(w, a) == EndAfter(Shut(w, a))
    ensures Shut(w, a).at == Idle <==> EndOf(w, a) != Hangs
  {
  }

  /** How the teardown of a failed start ended, by what it left. */
  function EndAfter(w: Worker): StopEnd {
    if w.at != Idle then Hangs else if HalfStopped(w) then Raised else Stopped
  }

  lemma ServingIsAtRest(w: Worker, contended: bool)
    requires Serving(w) && w.at == Idle && Led(w, contended)
    ensures AtRest(w, contended) && EndAfter(w) == Stopped
  {
  }

  lemma ClearedIsAtRest(w: Worker, contended: bool)
    requires Cleared(w) && w.at == Idle
    ensures AtRest(w, contended) && EndAfter(w) == Stopped
  {
  }

  lemma RestIsStartable(w: Worker, contended: bool)
    requires AtRest(w, contended) && !w.server
    ensures Startable(w, contended) && (w.leader.Some? ==> w.leader.value.isLeader)
    ensures w == FRESH.(leader := w.leader, lastError := w.lastError, at := w.at, writer := w.writer)
    ensures w.leader.Some? || !contended ==> Led(w, contended)
    ensures w.leader.None? && contended ==> Cleared(w)
  {
  }

  lemma RestServes(w: Worker, contended: bool)
    requires AtRest(w, contended)
    ensures Serving(w) <==> EndAfter(w) == Stopped && w.server
    ensures w.server ==> Serving(w) != HalfStopped(w)
    ensures !w.server ==> !HalfStopped(w)
  {
  }

  lemma RestIsStoppable(w: Worker, contended: bool)
    requires AtRest(w, contended)
    ensures Stoppable(w, contended) && (w.server ==> w.writer.Some?)
  {
  }

  /** Nothing published, no tasks, protections or transport. */
  function Unserved(w: Worker): Worker {
    w.(served := false, asgi := false, sweeps := false, sli := false, breaker := false, dbFloor := false,
       transport := false)
  }

  /** `Shut` in the order of the code. */
  lemma ShutParts(w: Worker, a: Answers)
    requires w.at == Idle
    ensures var u := Unserved(w);
            var second := u.(server := false, writer := Leftover(u, a));
            Shut(w, a) == if u.server && Jams(u.writer) then u.(at := StopServer)
                          else if Stuck(u, a) then u.(writer := Ending(u, a))
                          else if Jams(second.writer) then second.(at := StopWriter)
                          else second.(leader := None, writer := None)
    ensures EndOf(Unserved(w), a) == EndOf(w, a)
  {
  }

  // Whether a start gets past each of its guards.

  predicate Leads(contended: bool, a: Answers) {
    contended ==> a.connects && a.locks && a.granted
  }

  predicate BuildsServer(a: Answers) {
    a.seeds && a.constructs
  }

  predicate OpensTransport(a: Answers) {
    a.builds && (a.hasTransport ==> a.enters)
  }

  /** The writer's task after the await of its start. */
  function Launched(a: Answers): Task {
    if a.seeds then Alive else Unstarted(a.early)
  }

  /** What a start leaves on a worker that holds only this leader object, or besides it an audit
      writer that a stop waits for. */
  function StartedUnder(leader: Option<Handle>, a: Answers): Worker {
    var led := FRESH.(leader := leader);
    if BuildsServer(a) && OpensTransport(a) then
      led.(dbFloor := a.protection >= 1, breaker := a.protection >= 2, sli := a.protection >= 3,
           writer := Some(Alive), transport := a.hasTransport, server := true, served := true, asgi := true)
    else
      Shut(led.(server := BuildsServer(a), writer := Some(Launched(a)), lastError := StartFailed), a)
  }

  /** What a start leaves. A leader, whose stop waits for ever, starts over under its leadership. */
  function Started(w: Worker, contended: bool, a: Answers): Worker {
    if w.leader.Some? then StartedUnder(w.leader, a)
    else if !Leads(contended, a) then FRESH.(lastError := NotMcpLeader)
    else StartedUnder(if contended then Some(Handle(Some(a.session), true)) else None, a)
  }

  /** A stop that waits for ever at its second shutdown: the server is forgotten, the audit writer and
      the leadership are not. */
  predicate Hung(w: Worker) {
    w.at == StopWriter && Jams(w.writer) && !w.server && !w.transport && Unprotected(w)
  }

  /** A start may begin: nothing is left, or a stop waits for ever. */
  predicate Startable(w: Worker, contended: bool) {
    || (w.at == Idle && Cleared(w))
    || (Hung(w) && if contended then w.leader.Some? && w.leader.value.isLeader else w.leader.None?)
  }

  lemma SettleBuild(w: Worker, a: Answers)
    requires w.writer == Some(Alive) && !w.server && !w.transport && !w.asgi
    ensures BuildsServer(a.(seeds := true)) && OpensTransport(a) ==>
              Settle(Build(w, a), a)
              == Up(w.(transport := a.hasTransport, server := true, served := true))
    ensures !(BuildsServer(a.(seeds := true)) && OpensTransport(a)) ==>
              Settle(Build(w, a), a) == Shut(w.(server := a.constructs, lastError := StartFailed), a)
  {
    hide Settle, BeginStop, Shut;
    var built := w.(server := true, served := true);
    var entering := built.(transport := true, at := Entering);
    var shown := w.(server := true, lastError := StartFailed);
    ShutForgets(built.(lastError := StartFailed), shown, a);
    ShutForgets(entering.(lastError := StartFailed), shown, a);
    assert w.(server := false) == w;
    StopLeaves(w.(lastError := StartFailed), a);
    StopLeaves(built.(lastError := StartFailed), a);
    StopLeaves(entering.(lastError := StartFailed), a);
    SettleSteps(entering, a);
    SettleSteps(Up(built), a);
    SettleSteps(Up(entering), a);
  }

  lemma SettleSeeding(w: Worker, a: Answers)
    requires w.at == Seeding && w.writer == Some(Unstarted(0)) && !w.server && !w.transport && !w.asgi
    ensures Settle(w, a)
            == if BuildsServer(a) && OpensTransport(a)
               then Up(w.(writer := Some(Alive), transport := a.hasTransport, server := true, served := true))
               else Shut(w.(server := BuildsServer(a), writer := Some(Launched(a)), lastError := StartFailed), a)
  {
    hide Settle, Build, BeginStop, Shut, OpensTransport;
    SettleSteps(w, a);
    SettleBuild(w.(writer := Some(Alive)), a);
    StopLeaves(Enqueued(w, a.early).(lastError := StartFailed), a);
  }

  lemma SettleProtect(w: Worker, a: Answers)
    requires w == FRESH.(leader := w.leader, lastError := w.lastError, at := w.at, writer := w.writer)
    requires w.leader.None? || w.leader.value.isLeader
    ensures Settle(Protect(w, a), a) == StartedUnder(w.leader, a)
  {
    hide Settle, Shut, OpensTransport, BuildsServer;
    var recovering := Protect(w, a);
    var seeding := recovering.(writer := Some(Unstarted(0)), at := Seeding);
    SettleSteps(recovering, a);
    SettleSeeding(seeding, a);
    var led := FRESH.(leader := w.leader, lastError := StartFailed);
    ShutForgets(led.(server := BuildsServer(a), writer := Some(Launched(a))),
                seeding.(server := BuildsServer(a), writer := Some(Launched(a)), lastError := StartFailed), a);
  }

  lemma StartLeaves(w: Worker, contended: bool, a: Answers)
    requires Startable(w, contended)
    ensures Settle(BeginStart(w, contended, a), a) == Started(w, contended, a)
  {
    hide Settle, Protect, StartedUnder;
    var connecting := w.(leader := Some(Handle(None, false)), at := Connecting);
    var locking := w.(leader := Some(Handle(Some(a.session), false)), at := Locking);
    SettleSteps(connecting, a);
    SettleSteps(locking, a);
    SettleSteps(locking.(at := Rejecting), a);
    SettleSteps(Lost(w), a);
    SettleProtect(w, a);
    SettleProtect(locking.(leader := Some(Handle(Some(a.session), true))), a);
  }

  /** A start ends serving exactly when every guard passes. A failed one leaves nothing behind exactly
      if it never led; or no record was enqueued while the writer that failed to start was seeding;
      or it built no server though the writer started; or it had one and the landing was clean. */
  lemma FailedStartClearsExactly(w: Worker, contended: bool, a: Answers)
    requires Startable(w, contended)
    ensures var r := Settle(BeginStart(w, contended, a), a);
            var leads := w.leader.Some? || Leads(contended, a);
            && (Serving(r) <==> leads && BuildsServer(a) && OpensTransport(a))
            && (Serving(r) <==> r.lastError == NoError)
            && (!Serving(r) ==>
                  (Cleared(r) <==> !leads || (if !a.seeds then a.early == 0 else !a.constructs || CleanLanding(a))))
  {
    hide Settle, BeginStart;
    StartLeaves(w, contended, a);
  }

  /** What a start that serves holds: the leadership it won, asked for nothing else or had, each
      protection that was built before the first failure, and the transport if there is one. The
      recorded error tells a lost election from any other failure. */
  lemma StartHoldsExactly(w: Worker, contended: bool, a: Answers)
    requires Startable(w, contended)
    ensures var r := Settle(BeginStart(w, contended, a), a);
            var leads := w.leader.Some? || (contended ==> a.connects && a.locks && a.granted);
            && (Serving(r) ==>
                  && r.at == Idle && !r.sweeps && r.transport == a.hasTransport
                  && r.dbFloor == (a.protection >= 1) && r.breaker == (a.protection >= 2)
                  && r.sli == (a.protection >= 3)
                  && r.leader == if w.leader.Some? then w.leader
                                 else if contended then Some(Handle(Some(a.session), true)) else None)
            && (!leads ==> r.lastError == NotMcpLeader)
            && (leads ==> r.lastError == if Serving(r) then NoError else StartFailed)
  {
    hide Settle, BeginStart;
    StartLeaves(w, contended, a);
  }

  // ---------------------------------------------------------------------------------
  // Many workers and one lock
  // ---------------------------------------------------------------------------------

  /** `contended` is whether starts go through the lock, the same for all workers. `holder` is the
      session with the lock; `sessions` counts the sessions ever opened. */
  datatype Cluster = Cluster(workers: seq<Worker>, holder: Option<int>, sessions: nat, contended: bool)

  /** `Resume(i, a)` answers the await of worker `i`. Answers to the lock come from the database:
      `a.granted` only says whether an attempt whose reply got lost had reached it. `Reap` is the
      database ending a session that no process has open. `Record(i)` enqueues an audit record after
      the writer's task has ended. */
  datatype Event =
    | Start(i: nat, a: Answers)
    | Stop(i: nat)
    | Answer(i: nat, a: Answers)
    | SweepStarts(i: nat)
    | Record(i: nat)
    | Crash(i: nat)
    | Reap

  function HolderAfter(w: Worker, holder: Option<int>, a: Answers): Option<int> {
    if w.at == Locking && holder.None? && (a.locks || a.granted) then Conn(w)
    else if w.at == Unlocking && holder == Conn(w) && a.unlocks then None
    else holder
  }

  predicate Orphaned(c: Cluster) {
    forall i :: 0 <= i < |c.workers| ==> Conn(c.workers[i]) != c.holder
  }

  function Put(c: Cluster, i: nat, w: Worker): Cluster
    requires i < |c.workers|
  {
    c.(workers := c.workers[i := w])
  }

  function Step(c: Cluster, e: Event): Cluster {
    match e
    case Start(i, a) =>
      if i < |c.workers| && Free(c.workers[i]) && !c.workers[i].server
      then Put(c, i, BeginStart(c.workers[i], c.contended, a)) else c
    case Stop(i) =>
      if i < |c.workers| && Free(c.workers[i]) then Put(c, i, BeginStop(c.workers[i])) else c
    case Answer(i, a) =>
      if i < |c.workers| && c.workers[i].at != Idle then Answered(c, i, a) else c
    case SweepStarts(i) =>
      if i < |c.workers| && c.workers[i].at == Idle && c.workers[i].served
      then Put(c, i, c.workers[i].(sweeps := true)) else c
    case Record(i) => if i < |c.workers| then Put(c, i, Enqueued(c.workers[i], 1)) else c
    case Crash(i) => if i < |c.workers| then Put(c, i, FRESH) else c
    case Reap => if c.holder.Some? && Orphaned(c) then c.(holder := None) else c
  }

  function Answered(c: Cluster, i: nat, a: Answers): Cluster
    requires i < |c.workers|
  {
    var w := c.workers[i];
    Put(c, i, Resume(w, a.(session := c.sessions, granted := c.holder.None?)))
    .(sessions := c.sessions + 1, holder := HolderAfter(w, c.holder, a))
  }

  function Run(c: Cluster, events: seq<Event>): Cluster {
    if events == [] then c else Step(Run(c, events[..|events| - 1]), events[|events| - 1])
  }

  function Launch(n: nat, contended: bool): Cluster {
    Cluster(seq(n, i => FRESH), None, 0, contended)
  }

  // ---------------------------------------------------------------------------------
  // The invariant
  // ---------------------------------------------------------------------------------

  /** The worker has a server, or an audit writer, alive or not. */
  predicate Active(w: Worker) {
    w.server || w.writer.Some?
  }

  /** The worker went through the election, when there is one. */
  predicate Elected(w: Worker, contended: bool) {
    if contended then w.leader.Some? && w.leader.value.isLeader && w.leader.value.conn.Some?
    else w.leader.None?
  }

  predicate Unready(w: Worker) {
    !w.sweeps && !w.served && !w.asgi && !w.server && !w.transport
  }

  /** What a worker holds at each await. */
  predicate Consistent(w: Worker, contended: bool) {
    match w.at
    case Idle => Cleared(w) || (Elected(w, contended) && (Serving(w) || HalfStopped(w)))
    case Connecting => contended && Bare(w) && w.leader == Some(Handle(None, false))
    case Locking | Rejecting =>
      contended && Bare(w) && w.leader.Some? && w.leader.value.conn.Some? && !w.leader.value.isLeader
    case Recovering => Elected(w, contended) && Unready(w)
    case Seeding => Elected(w, contended) && Unready(w) && w.writer.Some? && w.writer.value.Unstarted?
    case Entering => Elected(w, contended) && w.server && w.served && w.writer == Some(Alive)
    case StopSweeps | StopSli => Elected(w, contended) && !w.served && !w.asgi && (w.server ==> w.writer.Some?)
                                 && (w.at == StopSli ==> !w.sweeps)
    case StopTransport => Elected(w, contended) && Unprotected(w) && (w.server ==> w.writer.Some?)
    case StopServer => Elected(w, contended) && Unprotected(w) && !w.transport && w.server && w.writer.Some?
    case StopWriter => Elected(w, contended) && Unprotected(w) && !w.transport && !w.server
    case Unlocking | Closing => contended && Bare(w) && Elected(w, contended)
  }

  /** The worker's session has the lock. */
  predicate MustHold(w: Worker) {
    w.leader.Some? && w.leader.value.isLeader && w.at != Closing
  }

  predicate WorkerOk(w: Worker, c: Cluster) {
    && Consistent(w, c.contended)
    && (MustHold(w) ==> Conn(w).Some? && c.holder == Conn(w))
    && (Conn(w).Some? ==> Conn(w).value < c.sessions)
  }

  predicate Invariant(c: Cluster) {
    && (forall i :: 0 <= i < |c.workers| ==> WorkerOk(c.workers[i], c))
    && (forall i, j :: 0 <= i < j < |c.workers| && Conn(c.workers[i]).Some? ==>
          Conn(c.workers[i]) != Conn(c.workers[j]))
    && (c.holder.Some? ==> c.holder.value < c.sessions)
  }

  lemma BeginStopConsistent(w: Worker, contended: bool)
    requires Elected(w, contended) && (w.server ==> w.writer.Some?)
    ensures Consistent(BeginStop(w), contended)
  {
  }

  lemma AfterSweepsConsistent(w: Worker, contended: bool)
    requires Elected(w, contended) && (w.server ==> w.writer.Some?) && !w.sweeps && !w.served && !w.asgi
    ensures Consistent(AfterSweeps(w), contended)
    ensures Consistent(AfterSli(w.(sli := false)), contended)
  {
  }

  lemma AfterTransportConsistent(w: Worker, contended: bool)
    requires Elected(w, contended) && (w.server ==> w.writer.Some?) && Unprotected(w) && !w.transport
    ensures Consistent(AfterTransport(w), contended)
    ensures !w.server ==> Consistent(AfterServer(w), contended)
  {
  }

  lemma BuildConsistent(w: Worker, contended: bool, a: Answers)
    requires Elected(w, contended) && Unready(w) && w.writer == Some(Alive)
    ensures Consistent(Build(w, a), contended)
  {
    hide BeginStop;
    BeginStopConsistent(w.(lastError := StartFailed), contended);
    BeginStopConsistent(w.(server := true, served := true, lastError := StartFailed), contended);
  }

  lemma ResumeStartConsistent(w: Worker, contended: bool, a: Answers)
    requires Consistent(w, contended) && Rank(w.at) >= 8
    ensures Consistent(Resume(w, a), contended)
  {
    hide Build, BeginStop;
    match w.at
    case Seeding =>
      BuildConsistent(w.(writer := Some(Alive)), contended, a);
      BeginStopConsistent(Enqueued(w, a.early).(lastError := StartFailed), contended);
    case Entering => BeginStopConsistent(w.(lastError := StartFailed), contended);
    case _ =>
  }

  lemma ResumeStopConsistent(w: Worker, contended: bool, a: Answers)
    requires Consistent(w, contended) && Rank(w.at) < 8
    ensures Consistent(Resume(w, a), contended)
  {
    hide Build, BeginStop, AfterSweeps, AfterSli, AfterTransport, AfterServer;
    match w.at
    case StopSweeps => AfterSweepsConsistent(w.(sweeps := false), contended);
    case StopSli => AfterSweepsConsistent(w.(sli := false), contended);
    case StopTransport => AfterTransportConsistent(w.(transport := false), contended);
    case StopServer => AfterTransportConsistent(w.(server := false, writer := Ending(w, a)), contended);
    case _ =>
  }

  lemma ResumeKeepsConnection(w: Worker, contended: bool, a: Answers)
    requires Consistent(w, contended)
    ensures var r := Resume(w, a);
            && (Conn(r).Some? ==> Conn(r) == if w.at == Connecting then Some(a.session) else Conn(w))
            && (MustHold(r) ==> w.at != Connecting && Conn(r).Some?)
            && (MustHold(r) ==> (MustHold(w) && w.at != Unlocking) || (w.at == Locking && a.locks && a.granted))
  {
    hide Consistent;
    if Rank(w.at) >= 8 {
      StartKeepsConnection(w, contended, a);
    } else {
      StopKeepsConnection(w, contended, a);
    }
  }

  lemma StartKeepsConnection(w: Worker, contended: bool, a: Answers)
    requires Consistent(w, contended) && Rank(w.at) >= 8
    ensures var r := Resume(w, a);
            && (Conn(r).Some? ==> Conn(r) == if w.at == Connecting then Some(a.session) else Conn(w))
            && (MustHold(r) ==> w.at != Connecting && Conn(r).Some?)
            && (MustHold(r) ==> MustHold(w) || (w.at == Locking && a.locks && a.granted))
  {
    hide Build, Failed;
  }

  lemma StopKeepsConnection(w: Worker, contended: bool, a: Answers)
    requires Consistent(w, contended) && Rank(w.at) < 8
    ensures var r := Resume(w, a);
            && (Conn(r).Some? ==> Conn(r) == Conn(w))
            && (MustHold(r) ==> Conn(r).Some? && MustHold(w) && w.at != Unlocking)
  {
    hide AfterSweeps, AfterSli, AfterTransport, AfterServer, AfterWriter;
  }

  lemma StartConsistent(w: Worker, contended: bool, a: Answers)
    requires Consistent(w, contended) && Free(w) && !w.server
    ensures var r := BeginStart(w, contended, a);
            && Consistent(r, contended) && (Conn(r) == Conn(w) || Conn(r).None?)
            && (MustHold(r) ==> MustHold(w) && Conn(r) == Conn(w))
  {
  }

  lemma StopConsistent(w: Worker, contended: bool)
    requires Consistent(w, contended) && Free(w)
    ensures Consistent(BeginStop(w), contended)
    ensures MustHold(BeginStop(w)) ==> MustHold(w)
  {
    if Active(w) {
      BeginStopConsistent(w, contended);
    }
  }

  /** Replacing one worker keeps the invariant if its connection is its old one or a new one and
      the lock is still with every other worker that needs it. */
  lemma PutKeepsInvariant(c: Cluster, i: nat, w: Worker, holder: Option<int>, sessions: nat)
    requires Invariant(c) && i < |c.workers| && c.sessions <= sessions
    requires Conn(w).Some? ==> Conn(w) == Conn(c.workers[i]) || c.sessions <= Conn(w).value < sessions
    requires WorkerOk(w, c.(holder := holder, sessions := sessions))
    requires holder == c.holder || c.holder.None? || c.holder == Conn(c.workers[i])
    requires holder.Some? ==> holder.value < sessions
    ensures Invariant(Put(c, i, w).(holder := holder, sessions := sessions))
  {
    var d := Put(c, i, w).(holder := holder, sessions := sessions);
    forall j | 0 <= j < |d.workers|
      ensures WorkerOk(d.workers[j], d)
    {
      if j != i {
        OtherStaysOk(c, i, j, w, holder, sessions);
      }
    }
    hide WorkerOk;
    forall j, k | 0 <= j < k < |d.workers| && Conn(d.workers[j]).Some?
      ensures Conn(d.workers[j]) != Conn(d.workers[k])
    {
      BelowSessions(c, j);
      BelowSessions(c, k);
    }
  }

  lemma BelowSessions(c: Cluster, i: nat)
    requires Invariant(c) && i < |c.workers|
    ensures Conn(c.workers[i]).Some? ==> Conn(c.workers[i]).value < c.sessions
  {
  }

  lemma OtherStaysOk(c: Cluster, i: nat, j: nat, w: Worker, holder: Option<int>, sessions: nat)
    requires Invariant(c) && i < |c.workers| && j < |c.workers| && i != j && c.sessions <= sessions
    requires holder == c.holder || c.holder.None? || c.holder == Conn(c.workers[i])
    ensures WorkerOk(c.workers[j], Put(c, i, w).(holder := holder, sessions := sessions))
  {
    hide Consistent;
    assert WorkerOk(c.workers[j], c);
    assert Conn(c.workers[i]).Some? ==> Conn(c.workers[i]) != Conn(c.workers[j]);
  }

  lemma AnswerKeepsInvariant(c: Cluster, i: nat, a: Answers)
    requires Invariant(c) && i < |c.workers| && c.workers[i].at != Idle
    ensures Invariant(Answered(c, i, a))
  {
    hide Resume, Consistent;
    var w, b := c.workers[i], a.(session := c.sessions, granted := c.holder.None?);
    assert WorkerOk(w, c);
    if Rank(w.at) >= 8 {
      ResumeStartConsistent(w, c.contended, b);
    } else {
      ResumeStopConsistent(w, c.contended, b);
    }
    ResumeKeepsConnection(w, c.contended, b);
    PutKeepsInvariant(c, i, Resume(w, b), HolderAfter(w, c.holder, a), c.sessions + 1);
  }

  lemma StartKeepsInvariant(c: Cluster, i: nat, a: Answers)
    requires Invariant(c) && i < |c.workers| && Free(c.workers[i]) && !c.workers[i].server
    ensures Invariant(Put(c, i, BeginStart(c.workers[i], c.contended, a)))
  {
    hide Consistent, BeginStart;
    assert WorkerOk(c.workers[i], c);
    StartConsistent(c.workers[i], c.contended, a);
    PutKeepsInvariant(c, i, BeginStart(c.workers[i], c.contended, a), c.holder, c.sessions);
  }

  lemma StopKeepsInvariant(c: Cluster, i: nat)
    requires Invariant(c) && i < |c.workers| && Free(c.workers[i])
    ensures Invariant(Put(c, i, BeginStop(c.workers[i])))
  {
    hide Consistent, BeginStop;
    assert WorkerOk(c.workers[i], c);
    StopConsistent(c.workers[i], c.contended);
    PutKeepsInvariant(c, i, BeginStop(c.workers[i]), c.holder, c.sessions);
  }

  lemma SweepKeepsInvariant(c: Cluster, i: nat)
    requires Invariant(c) && i < |c.workers| && c.workers[i].at == Idle && c.workers[i].served
    ensures Invariant(Put(c, i, c.workers[i].(sweeps := true)))
  {
    hide Consistent;
    assert WorkerOk(c.workers[i], c);
    SweepConsistent(c.workers[i], c.contended);
    PutKeepsInvariant(c, i, c.workers[i].(sweeps := true), c.holder, c.sessions);
  }

  lemma RecordedConsistent(w: Worker, contended: bool)
    requires Consistent(w, contended)
    ensures Consistent(Enqueued(w, 1), contended)
    ensures Enqueued(w, 1).leader == w.leader && Enqueued(w, 1).at == w.at
  {
  }

  lemma RecordKeepsInvariant(c: Cluster, i: nat)
    requires Invariant(c) && i < |c.workers|
    ensures Invariant(Put(c, i, Enqueued(c.workers[i], 1)))
  {
    hide Consistent, Enqueued;
    assert WorkerOk(c.workers[i], c);
    RecordedConsistent(c.workers[i], c.contended);
    PutKeepsInvariant(c, i, Enqueued(c.workers[i], 1), c.holder, c.sessions);
  }

  lemma CrashKeepsInvariant(c: Cluster, i: nat)
    requires Invariant(c) && i < |c.workers|
    ensures Invariant(Put(c, i, FRESH))
  {
    hide Consistent;
    FreshConsistent(c.contended);
    PutKeepsInvariant(c, i, FRESH, c.holder, c.sessions);
  }

  lemma StepKeepsInvariant(c: Cluster, e: Event)
    requires Invariant(c)
    ensures Invariant(Step(c, e))
    ensures |Step(c, e).workers| == |c.workers| && Step(c, e).contended == c.contended
  {
    hide Invariant, BeginStart, BeginStop, Resume, HolderAfter, Enqueued, Free;
    match e
    case Start(i, a) =>
      if i < |c.workers| && Free(c.workers[i]) && !c.workers[i].server {
        StartKeepsInvariant(c, i, a);
      }
    case Stop(i) =>
      if i < |c.workers| && Free(c.workers[i]) {
        StopKeepsInvariant(c, i);
      }
    case Answer(i, a) =>
      if i < |c.workers| && c.workers[i].at != Idle {
        AnswerKeepsInvariant(c, i, a);
      }
    case SweepStarts(i) =>
      if i < |c.workers| && c.workers[i].at == Idle && c.workers[i].served {
        SweepKeepsInvariant(c, i);
      }
    case Record(i) =>
      if i < |c.workers| {
        RecordKeepsInvariant(c, i);
      }
    case Crash(i) =>
      if i < |c.workers| {
        CrashKeepsInvariant(c, i);
      }
    case Reap =>
      ReapKeepsInvariant(c);
  }

  lemma SweepConsistent(w: Worker, contended: bool)
    requires Consistent(w, contended) && w.at == Idle && w.served
    ensures Consistent(w.(sweeps := true), contended)
  {
  }

  lemma FreshConsistent(contended: bool)
    ensures Consistent(FRESH, contended)
  {
  }

  lemma ReapKeepsInvariant(c: Cluster)
    requires Invariant(c)
    ensures Invariant(Step(c, Reap))
  {
    hide Consistent;
    var d := Step(c, Reap);
    forall i | 0 <= i < |d.workers|
      ensures WorkerOk(d.workers[i], d)
    {
      assert WorkerOk(c.workers[i], c);
    }
  }

  // ---------------------------------------------------------------------------------
  // What holds in every run
  // ---------------------------------------------------------------------------------

  lemma {:induction false} RunKeepsInvariant(n: nat, contended: bool, events: seq<Event>)
    ensures Invariant(Run(Launch(n, contended), events))
    ensures |Run(Launch(n, contended), events).workers| == n
    ensures Run(Launch(n, contended), events).contended == contended
  {
    hide Invariant, Step;
    if events == [] {
      LaunchInvariant(n, contended);
    } else {
      var k := |events| - 1;
      RunKeepsInvariant(n, contended, events[..k]);
      StepKeepsInvariant(Run(Launch(n, contended), events[..k]), events[k]);
    }
  }

  lemma LaunchInvariant(n: nat, contended: bool)
    ensures Invariant(Launch(n, contended))
  {
  }

  /** At most one worker has a server or an audit writer. */
  predicate SingleWriter(c: Cluster) {
    forall i, j :: 0 <= i < j < |c.workers| ==> !(Active(c.workers[i]) && Active(c.workers[j]))
  }

  /** With the lock in play, only the worker whose session has it is active. */
  lemma ActiveHoldsTheLock(n: nat, events: seq<Event>, i: nat)
    requires i < n
    ensures var c := Run(Launch(n, true), events);
            |c.workers| == n && (Active(c.workers[i]) ==> c.holder.Some? && c.holder == Conn(c.workers[i]))
  {
    RunKeepsInvariant(n, true, events);
    hide Run;
    var c := Run(Launch(n, true), events);
    assert WorkerOk(c.workers[i], c);
  }

  lemma SingleWriterAlways(n: nat, events: seq<Event>)
    ensures SingleWriter(Run(Launch(n, true), events))
  {
    RunKeepsInvariant(n, true, events);
    hide Run;
    var c := Run(Launch(n, true), events);
    forall i, j | 0 <= i < j < |c.workers|
      ensures !(Active(c.workers[i]) && Active(c.workers[j]))
    {
      ActiveHoldsTheLock(n, events, i);
      ActiveHoldsTheLock(n, events, j);
    }
  }

  const GOOD := Answers(0, true, true, true, 3, 0, true, true, true, false, true, false, 0, 0, true)

  lemma RunStep(c: Cluster, events: seq<Event>, k: nat)
    requires k < |events|
    ensures Run(c, events[..k + 1]) == Step(Run(c, events[..k]), events[k])
  {
    assert events[..k + 1][..k] == events[..k];
  }

  lemma RunNothing(c: Cluster, events: seq<Event>)
    ensures Run(c, events[..0]) == c
  {
  }

  lemma FreedStart(c: Cluster, i: nat)
    requires i < |c.workers| && c.contended && Cleared(c.workers[i]) && c.workers[i].at == Idle
    requires c.holder.Some? ==> Orphaned(c)
    ensures var d := Step(Step(c, Reap), Start(i, GOOD));
            && |d.workers| == |c.workers| && d.holder == None
            && d.workers[i].at == Connecting && Bare(d.workers[i])
  {
  }

  lemma GoodConnect(c: Cluster, i: nat)
    requires i < |c.workers| && c.workers[i].at == Connecting && Bare(c.workers[i])
    ensures var d := Step(c, Answer(i, GOOD));
            && |d.workers| == |c.workers| && d.workers[i].at == Locking && Bare(d.workers[i])
            && d.workers[i].leader == Some(Handle(Some(c.sessions), false)) && d.holder == c.holder
  {
  }

  lemma GoodLock(c: Cluster, i: nat)
    requires i < |c.workers| && c.workers[i].at == Locking && Bare(c.workers[i]) && c.holder == None
    requires c.workers[i].leader.Some? && c.workers[i].leader.value.conn.Some?
    ensures var d := Step(c, Answer(i, GOOD));
            && |d.workers| == |c.workers| && d.workers[i].at == Recovering && Unready(d.workers[i])
            && d.workers[i].sli
            && d.holder.Some? && d.holder == Conn(d.workers[i])
  {
    hide BeginStop;
  }

  lemma GoodRecover(c: Cluster, i: nat)
    requires i < |c.workers| && c.workers[i].at == Recovering
    ensures Step(c, Answer(i, GOOD))
            == Put(c, i, c.workers[i].(writer := Some(Unstarted(0)), at := Seeding)).(sessions := c.sessions + 1)
  {
  }

  lemma GoodSeed(c: Cluster, i: nat)
    requires i < |c.workers| && c.workers[i].at == Seeding
    ensures Step(c, Answer(i, GOOD))
            == Put(c, i, Up(c.workers[i].(writer := Some(Alive), server := true, served := true)))
               .(sessions := c.sessions + 1)
  {
  }

  lemma GoodBuild(c: Cluster, i: nat)
    requires i < |c.workers| && c.workers[i].at == Recovering
    ensures var d := Step(Step(c, Answer(i, GOOD)), Answer(i, GOOD));
            && |d.workers| == |c.workers| && d.workers[i].at == Idle && Serving(d.workers[i])
            && d.holder == c.holder && Conn(d.workers[i]) == Conn(c.workers[i])
            && d.workers[i] == Up(c.workers[i].(writer := Some(Alive), server := true, served := true))
            && d.contended == c.contended
            && forall j :: 0 <= j < |c.workers| && j != i ==> d.workers[j] == c.workers[j]
  {
    hide Step;
    GoodRecover(c, i);
    GoodSeed(Step(c, Answer(i, GOOD)), i);
  }

  /** Six events that bring two workers up when nobody asks for the lock. */
  const TWO_STARTS := [Start(0, GOOD), Answer(0, GOOD), Answer(0, GOOD),
                      Start(1, GOOD), Answer(1, GOOD), Answer(1, GOOD)]

  lemma TwoWritersWithoutTheLock(n: nat)
    requires n >= 2
    ensures var c := Run(Launch(n, false), TWO_STARTS);
            |c.workers| == n && Serving(c.workers[0]) && Serving(c.workers[1])
  {
    hide Run, Resume, BeginStop, Step;
    var c0 := Launch(n, false);
    RunStep(c0, TWO_STARTS, 0);
    RunStep(c0, TWO_STARTS, 1);
    RunStep(c0, TWO_STARTS, 2);
    RunStep(c0, TWO_STARTS, 3);
    RunStep(c0, TWO_STARTS, 4);
    RunStep(c0, TWO_STARTS, 5);
    assert TWO_STARTS[..6] == TWO_STARTS;
    RunNothing(c0, TWO_STARTS);
    var first := Step(c0, Start(0, GOOD));
    FreeStart(c0, 0);
    GoodBuild(first, 0);
    var half := Step(Step(first, Answer(0, GOOD)), Answer(0, GOOD));
    var second := Step(half, Start(1, GOOD));
    FreeStart(half, 1);
    GoodBuild(second, 1);
  }

  lemma FreeStart(c: Cluster, i: nat)
    requires i < |c.workers| && !c.contended && c.workers[i] == FRESH
    ensures Step(c, Start(i, GOOD)) == Put(c, i, Protect(FRESH, GOOD))
  {
  }

  /** With `n` worker processes the single writer is safe in every run exactly when there is one of
      them, or the environment announces more than one and has a database address. The application
      does not start without the address, so what is left is several processes that
      `WEB_CONCURRENCY` does not announce. */
  lemma SingleWriterExactly(n: nat, env: Environment)
    ensures (forall events :: SingleWriter(Run(Launch(n, Contended(env)), events)))
            <==> n <= 1 || (env.databaseUrl && env.webConcurrency.Some? && env.webConcurrency.value > 1)
  {
    if Contended(env) {
      forall events
        ensures SingleWriter(Run(Launch(n, true), events))
      {
        SingleWriterAlways(n, events);
      }
    } else if n <= 1 {
      forall events
        ensures SingleWriter(Run(Launch(n, false), events))
      {
        RunKeepsInvariant(n, false, events);
      }
    } else {
      TwoWritersWithoutTheLock(n);
      assert !SingleWriter(Run(Launch(n, false), TWO_STARTS));
    }
  }

  /** A worker between calls serves, or has nothing left of a server, or kept a dead one whose
      shutdown raised. */
  lemma RestIsClear(n: nat, contended: bool, events: seq<Event>, i: nat)
    requires i < n
    ensures var c := Run(Launch(n, contended), events);
            && |c.workers| == n
            && (c.workers[i].at == Idle ==>
                  && (Cleared(c.workers[i]) <==> !c.workers[i].server)
                  && (c.workers[i].server ==> Serving(c.workers[i]) != HalfStopped(c.workers[i])))
  {
    RunKeepsInvariant(n, contended, events);
    hide Run;
    var c := Run(Launch(n, contended), events);
    assert WorkerOk(c.workers[i], c);
  }

  /** The database ends the old session, then the worker starts and its four awaits are answered. */
  function Takeover(i: nat): seq<Event> {
    [Reap, Start(i, GOOD), Answer(i, GOOD), Answer(i, GOOD), Answer(i, GOOD), Answer(i, GOOD)]
  }

  lemma TakesOver(c: Cluster, i: nat)
    requires i < |c.workers| && c.contended && Cleared(c.workers[i]) && c.workers[i].at == Idle
    requires c.holder.Some? ==> Orphaned(c)
    ensures var d := Run(c, Takeover(i));
            |d.workers| == |c.workers| && Serving(d.workers[i]) && d.workers[i].at == Idle
            && d.workers[i].sli && !d.workers[i].sweeps && !d.workers[i].transport
            && d.holder.Some? && d.holder == Conn(d.workers[i])
  {
    hide Run, Orphaned, Resume, Step, BeginStart;
    var es := Takeover(i);
    RunStep(c, es, 0);
    RunStep(c, es, 1);
    RunStep(c, es, 2);
    RunStep(c, es, 3);
    RunStep(c, es, 4);
    RunStep(c, es, 5);
    assert es[..6] == es;
    RunNothing(c, es);
    var freed := Step(c, Reap);
    FreedStart(c, i);
    var connecting := Step(freed, es[1]);
    var locking := Step(connecting, es[2]);
    GoodConnect(connecting, i);
    var recovering := Step(locking, es[3]);
    GoodLock(locking, i);
    var seeding := Step(recovering, es[4]);
    GoodBuild(recovering, i);
  }

  /** Leadership fails over: once no process has the holding session open, any worker at rest
      can take the lock and come up. */
  lemma LeadershipFailsOver(n: nat, events: seq<Event>, i: nat)
    requires i < n
    requires var c := Run(Launch(n, true), events);
             |c.workers| == n && c.workers[i].at == Idle && !c.workers[i].server && (c.holder.Some? ==> Orphaned(c))
    ensures var c := Run(Launch(n, true), events + Takeover(i));
            |c.workers| == n && Serving(c.workers[i]) && c.workers[i].at == Idle
            && c.holder.Some? && c.holder == Conn(c.workers[i])
  {
    var c0 := Run(Launch(n, true), events);
    RestIsClear(n, true, events, i);
    RunOn(Launch(n, true), events, Takeover(i));
    RunKeepsInvariant(n, true, events);
    hide Run;
    TakesOver(c0, i);
  }

  /** In every run in which a worker's session has the lock: once its process ends, any other worker at
      rest can take the lock and serve. */
  lemma CrashedLeaderIsReplaced(n: nat, events: seq<Event>, i: nat, j: nat)
    requires i < n && j < n && i != j
    requires var c := Run(Launch(n, true), events);
             && |c.workers| == n && c.holder.Some? && c.holder == Conn(c.workers[i])
             && c.workers[j].at == Idle && !c.workers[j].server
    ensures var c := Run(Launch(n, true), events + [Crash(i)] + Takeover(j));
            && |c.workers| == n && Serving(c.workers[j]) && c.workers[j].at == Idle && !Active(c.workers[i])
            && c.holder.Some? && c.holder == Conn(c.workers[j])
  {
    var c := Run(Launch(n, true), events);
    assert (events + [Crash(i)])[..|events|] == events;
    RunKeepsInvariant(n, true, events);
    forall k | 0 <= k < n && k != i
      ensures Conn(c.workers[k]) != c.holder
    {
      DistinctConnections(c, i, k);
    }
    assert Run(Launch(n, true), events + [Crash(i)]) == Put(c, i, FRESH);
    assert Orphaned(Put(c, i, FRESH));
    hide Run, Orphaned, Takeover;
    LeadershipFailsOver(n, events + [Crash(i)], j);
    OnlyActive(n, events + [Crash(i)] + Takeover(j), j, i);
  }

  lemma {:induction false} RunOn(c: Cluster, first: seq<Event>, rest: seq<Event>)
    ensures Run(c, first + rest) == Run(Run(c, first), rest)
  {
    hide Step;
    if rest == [] {
      assert first + rest == first;
    } else {
      var k := |rest| - 1;
      RunOn(c, first, rest[..k]);
      assert (first + rest)[..|first + rest| - 1] == first + rest[..k];
    }
  }

  /** Half stopped, or stopping once more, or in a stop that waits for ever at its first shutdown. */
  predicate Dead(w: Worker) {
    && Unprotected(w) && !w.transport && w.server && w.writer.Some? && w.writer.value.Ended?
    && ((w.at == StopServer && Jams(w.writer)) || (w.writer.value.failed && (w.at == Idle || w.at == StopServer)))
  }

  lemma ResumeKeepsDead(w: Worker, a: Answers)
    requires Dead(w)
    ensures Dead(Resume(w, a)) && Dead(Enqueued(w, 1)) && (Free(w) ==> Dead(BeginStop(w)))
  {
  }

  lemma StepKeepsDead(c: Cluster, e: Event, i: nat)
    requires i < |c.workers| && Dead(c.workers[i]) && e != Crash(i)
    ensures |Step(c, e).workers| == |c.workers| && Dead(Step(c, e).workers[i])
  {
    hide Resume, BeginStop, BeginStart, Enqueued, HolderAfter;
    if e.Answer? {
      ResumeKeepsDead(c.workers[i], e.a.(session := c.sessions, granted := c.holder.None?));
    } else {
      ResumeKeepsDead(c.workers[i], GOOD);
    }
  }

  lemma {:induction false} RunKeepsDead(c: Cluster, events: seq<Event>, i: nat)
    requires i < |c.workers| && Dead(c.workers[i]) && Crash(i) !in events
    ensures |Run(c, events).workers| == |c.workers| && Dead(Run(c, events).workers[i])
  {
    hide Step, Dead;
    if events != [] {
      var k := |events| - 1;
      RunKeepsDead(c, events[..k], i);
      assert events[k] in events;
      StepKeepsDead(Run(c, events[..k]), events[k], i);
    }
  }

  /** In every run a worker that is half stopped, or whose stop waits for ever at its first shutdown,
      keeps the lock, and every other worker without a server, until its process ends, whatever
      calls come. */
  lemma DeadStopBlocksFailover(n: nat, events: seq<Event>, more: seq<Event>, i: nat, j: nat)
    requires i < n && j < n && i != j && Crash(i) !in more
    requires var c := Run(Launch(n, true), events);
             |c.workers| == n && Dead(c.workers[i])
    ensures var c := Run(Launch(n, true), events + more);
            && |c.workers| == n && Dead(c.workers[i]) && !Active(c.workers[j])
            && c.holder.Some? && c.holder == Conn(c.workers[i])
  {
    hide Run;
    RunOn(Launch(n, true), events, more);
    RunKeepsDead(Run(Launch(n, true), events), more, i);
    OnlyActive(n, events + more, i, j);
  }

  lemma OnlyActive(n: nat, events: seq<Event>, i: nat, j: nat)
    requires i < n && j < n && i != j
    requires var c := Run(Launch(n, true), events);
             |c.workers| == n && Active(c.workers[i])
    ensures var c := Run(Launch(n, true), events);
            |c.workers| == n && !Active(c.workers[j]) && c.holder.Some? && c.holder == Conn(c.workers[i])
  {
    hide Run;
    RunKeepsInvariant(n, true, events);
    ActiveHoldsTheLock(n, events, i);
    ActiveHoldsTheLock(n, events, j);
    DistinctConnections(Run(Launch(n, true), events), i, j);
  }

  // ---------------------------------------------------------------------------------
  // A stop that waits at its second shutdown
  // ---------------------------------------------------------------------------------

  /** The worker's process does not end and nobody enables it. */
  predicate Undisturbed(i: nat, e: Event) {
    e != Crash(i) && !(e.Start? && e.i == i)
  }

  lemma ResumeKeepsHung(w: Worker, a: Answers)
    requires Hung(w)
    ensures Resume(w, a) == w && BeginStop(w) == w && Hung(Enqueued(w, 1))
  {
  }

  lemma StepKeepsHung(c: Cluster, e: Event, i: nat)
    requires i < |c.workers| && Hung(c.workers[i]) && Undisturbed(i, e)
    ensures |Step(c, e).workers| == |c.workers| && Hung(Step(c, e).workers[i])
  {
    hide Resume, BeginStop, BeginStart, Enqueued, HolderAfter;
    if e.Answer? {
      ResumeKeepsHung(c.workers[i], e.a.(session := c.sessions, granted := c.holder.None?));
    } else {
      ResumeKeepsHung(c.workers[i], GOOD);
    }
  }

  lemma {:induction false} RunKeepsHung(c: Cluster, events: seq<Event>, i: nat)
    requires i < |c.workers| && Hung(c.workers[i]) && forall e :: e in events ==> Undisturbed(i, e)
    ensures |Run(c, events).workers| == |c.workers| && Hung(Run(c, events).workers[i])
  {
    hide Step, Hung;
    if events != [] {
      var k := |events| - 1;
      RunKeepsHung(c, events[..k], i);
      assert events[k] in events;
      StepKeepsHung(Run(c, events[..k]), events[k], i);
    }
  }

  /** In every run a worker whose stop waits at its second shutdown keeps the lock, and every other
      worker without a server, through all later stops, until it is enabled or its process ends. */
  lemma HungStopKeepsTheLock(n: nat, events: seq<Event>, more: seq<Event>, i: nat, j: nat)
    requires i < n && j < n && i != j && forall e :: e in more ==> Undisturbed(i, e)
    requires var c := Run(Launch(n, true), events);
             |c.workers| == n && Hung(c.workers[i])
    ensures var c := Run(Launch(n, true), events + more);
            && |c.workers| == n && Hung(c.workers[i]) && !Active(c.workers[j])
            && c.holder.Some? && c.holder == Conn(c.workers[i])
  {
    hide Run;
    RunOn(Launch(n, true), events, more);
    RunKeepsHung(Run(Launch(n, true), events), more, i);
    OnlyActive(n, events + more, i, j);
  }

  /** An enable that comes up, and a stop that lands cleanly. */
  function Restart(i: nat): seq<Event> {
    [Start(i, GOOD), Answer(i, GOOD), Answer(i, GOOD), Stop(i), Answer(i, GOOD), Answer(i, GOOD), Answer(i, GOOD),
     Answer(i, GOOD), Answer(i, GOOD)]
  }

  /** An enable starts over under the old leadership. */
  lemma StartsOver(c: Cluster, i: nat)
    requires i < |c.workers| && Hung(c.workers[i]) && Elected(c.workers[i], c.contended)
    ensures var d := Step(c, Start(i, GOOD));
            && d == Put(c, i, d.workers[i]) && |d.workers| == |c.workers| && d.workers[i].at == Recovering
            && d.workers[i].leader == c.workers[i].leader && d.workers[i].sli
            && !d.workers[i].sweeps && !d.workers[i].transport
  {
  }

  predicate ShutDownCleanly(w: Worker) {
    w.at == StopWriter && !w.server && w.writer == Some(Ended(false, 0)) && !w.transport && Unprotected(w)
  }

  lemma ShutsServerCleanly(c: Cluster, i: nat)
    requires i < |c.workers| && Shutting(c.workers[i])
    ensures var d := Step(c, Answer(i, GOOD));
            && |d.workers| == |c.workers| && ShutDownCleanly(d.workers[i])
            && d.workers[i].leader == c.workers[i].leader && d.holder == c.holder
  {
  }

  predicate Unlockable(w: Worker, p: Point) {
    w.at == p && Bare(w)
  }

  lemma DropsWriter(c: Cluster, i: nat)
    requires i < |c.workers| && ShutDownCleanly(c.workers[i]) && Conn(c.workers[i]).Some?
    ensures var d := Step(c, Answer(i, GOOD));
            && |d.workers| == |c.workers| && Unlockable(d.workers[i], Unlocking)
            && d.workers[i].leader == c.workers[i].leader && d.holder == c.holder
  {
  }

  lemma Unlocks(c: Cluster, i: nat)
    requires i < |c.workers| && Unlockable(c.workers[i], Unlocking) && c.holder == Conn(c.workers[i])
    ensures var d := Step(c, Answer(i, GOOD));
            |d.workers| == |c.workers| && Unlockable(d.workers[i], Closing) && d.holder == None
  {
  }

  lemma Closes(c: Cluster, i: nat)
    requires i < |c.workers| && Unlockable(c.workers[i], Closing)
    ensures var d := Step(c, Answer(i, GOOD));
            |d.workers| == |c.workers| && Cleared(d.workers[i]) && d.workers[i].at == Idle && d.holder == c.holder
  {
  }

  lemma ReleasesLock(c: Cluster, i: nat)
    requires i < |c.workers| && ShutDownCleanly(c.workers[i]) && Conn(c.workers[i]).Some?
    requires c.holder == Conn(c.workers[i])
    ensures var d := Step(Step(Step(c, Answer(i, GOOD)), Answer(i, GOOD)), Answer(i, GOOD));
            |d.workers| == |c.workers| && Cleared(d.workers[i]) && d.workers[i].at == Idle && d.holder == None
  {
    hide Step, Unlockable, ShutDownCleanly, Cleared;
    DropsWriter(c, i);
    Unlocks(Step(c, Answer(i, GOOD)), i);
    Closes(Step(Step(c, Answer(i, GOOD)), Answer(i, GOOD)), i);
  }

  /** So a later enable brings the worker up again, and the stop after it can release the lock. */
  lemma HungStopIsReleasedByEnable(n: nat, events: seq<Event>, i: nat)
    requires i < n
    requires var c := Run(Launch(n, true), events);
             |c.workers| == n && Hung(c.workers[i])
    ensures var up := Run(Launch(n, true), events + Restart(i)[..3]);
            |up.workers| == n && Serving(up.workers[i]) && up.holder.Some? && up.holder == Conn(up.workers[i])
    ensures var c := Run(Launch(n, true), events + Restart(i));
            |c.workers| == n && Cleared(c.workers[i]) && c.workers[i].at == Idle && c.holder == None
  {
    var (c0, es) := (Run(Launch(n, true), events), Restart(i));
    RunKeepsInvariant(n, true, events);
    assert WorkerOk(c0.workers[i], c0);
    RunOn(Launch(n, true), events, es);
    RunOn(Launch(n, true), events, es[..3]);
    hide Run;
    Restarts(c0, i);
  }

  lemma Restarts(c: Cluster, i: nat)
    requires i < |c.workers| && Hung(c.workers[i]) && Elected(c.workers[i], c.contended) && c.contended
    requires c.holder == Conn(c.workers[i])
    ensures var up := Run(c, Restart(i)[..3]);
            |up.workers| == |c.workers| && Serving(up.workers[i]) && up.holder.Some? && up.holder == Conn(up.workers[i])
    ensures var d := Run(c, Restart(i));
            |d.workers| == |c.workers| && Cleared(d.workers[i]) && d.workers[i].at == Idle && d.holder == None
  {
    hide Run, Step, Polling, Shutting, ShutDownCleanly;
    var es := Restart(i);
    RunStep(c, es, 0);
    RunStep(c, es, 1);
    RunStep(c, es, 2);
    RunStep(c, es, 3);
    RunStep(c, es, 4);
    RunStep(c, es, 5);
    RunStep(c, es, 6);
    RunStep(c, es, 7);
    RunStep(c, es, 8);
    assert es[..9] == es;
    RunNothing(c, es);
    StartsOver(c, i);
    var recovering := Step(c, es[0]);
    GoodBuild(recovering, i);
    var up := Step(Step(recovering, es[1]), es[2]);
    BeginsStop(up, i);
    var polled := Step(up, es[3]);
    StopsPolling(polled, i);
    var shutting := Step(polled, es[4]);
    ShutsServerCleanly(shutting, i);
    ReleasesLock(Step(shutting, es[5]), i);
  }

  // ---------------------------------------------------------------------------------
  // Bad stops happen
  // ---------------------------------------------------------------------------------

  /** A stop of the worker that came up: its SLI task ends, then the shutdown is answered. */
  function Teardown(i: nat, landing: Answers): seq<Event> {
    [Stop(i), Answer(i, GOOD), Answer(i, landing)]
  }

  /** Up with an SLI task to stop, and no sweeps or transport. */
  predicate Ready(w: Worker) {
    Serving(w) && w.at == Idle && w.sli && !w.sweeps && !w.transport
  }

  predicate Polling(w: Worker) {
    w.at == StopSli && w.server && w.writer == Some(Alive) && !w.transport && !w.sweeps && !w.served && !w.asgi
  }

  predicate Shutting(w: Worker) {
    w.at == StopServer && w.server && w.writer == Some(Alive) && !w.transport && Unprotected(w)
  }

  /** The stop ended half-way, or waits for ever, as the landing has it. */
  predicate DiedOf(w: Worker, landing: Answers) {
    && (landing.writing && landing.others == 0 ==> HalfStopped(w) && w.at == Idle && Dead(w))
    && (!landing.writing && landing.others + landing.late > 0 ==> Hung(w))
  }

  lemma TearsDown(c: Cluster, i: nat, landing: Answers)
    requires i < |c.workers| && Ready(c.workers[i])
    ensures var d := Run(c, Teardown(i, landing));
            |d.workers| == |c.workers| && DiedOf(d.workers[i], landing)
  {
    hide Run, Step, Ready, Polling, Shutting, DiedOf;
    var es := Teardown(i, landing);
    RunStep(c, es, 0);
    RunStep(c, es, 1);
    RunStep(c, es, 2);
    assert es[..3] == es;
    RunNothing(c, es);
    BeginsStop(c, i);
    var polled := Step(c, es[0]);
    StopsPolling(polled, i);
    ShutsServer(Step(polled, es[1]), i, landing);
  }

  lemma BeginsStop(c: Cluster, i: nat)
    requires i < |c.workers| && Ready(c.workers[i])
    ensures var d := Step(c, Stop(i));
            && |d.workers| == |c.workers| && Polling(d.workers[i])
            && d.workers[i].leader == c.workers[i].leader && d.holder == c.holder
  {
  }

  lemma StopsPolling(c: Cluster, i: nat)
    requires i < |c.workers| && Polling(c.workers[i])
    ensures var d := Step(c, Answer(i, GOOD));
            && |d.workers| == |c.workers| && Shutting(d.workers[i])
            && d.workers[i].leader == c.workers[i].leader && d.holder == c.holder
  {
  }

  lemma ShutsServer(c: Cluster, i: nat, landing: Answers)
    requires i < |c.workers| && Shutting(c.workers[i])
    ensures var d := Step(c, Answer(i, landing));
            |d.workers| == |c.workers| && DiedOf(d.workers[i], landing)
  {
    hide AfterWriter;
  }

  /** Runs of two workers in which the first comes up and its stop then ends half-way at the server,
      or waits for ever at its second shutdown; the second worker stays without a server, in the
      first case until the process ends, in the other until the first worker is enabled. */
  lemma BadStopsHappen(more: seq<Event>)
    ensures var half := Takeover(0) + Teardown(0, GOOD.(writing := true));
            var (c, d) := (Run(Launch(2, true), half), Run(Launch(2, true), half + more));
            && |c.workers| == 2 && HalfStopped(c.workers[0]) && c.workers[0].at == Idle
            && (Crash(0) !in more ==> |d.workers| == 2 && !Active(d.workers[1]))
    ensures var hung := Takeover(0) + Teardown(0, GOOD.(late := 1));
            var (c, d) := (Run(Launch(2, true), hung), Run(Launch(2, true), hung + more));
            && |c.workers| == 2 && Hung(c.workers[0])
            && ((forall e :: e in more ==> Undisturbed(0, e)) ==> |d.workers| == 2 && !Active(d.workers[1]))
  {
    hide Run;
    var c0 := Launch(2, true);
    assert Cleared(c0.workers[0]) && c0.workers[0].at == Idle;
    TakesOver(c0, 0);
    var (half, hung) := (Teardown(0, GOOD.(writing := true)), Teardown(0, GOOD.(late := 1)));
    RunOn(c0, Takeover(0), half);
    RunOn(c0, Takeover(0), hung);
    TearsDown(Run(c0, Takeover(0)), 0, GOOD.(writing := true));
    TearsDown(Run(c0, Takeover(0)), 0, GOOD.(late := 1));
    if Crash(0) !in more {
      DeadStopBlocksFailover(2, Takeover(0) + half, more, 0, 1);
    }
    if forall e :: e in more ==> Undisturbed(0, e) {
      HungStopKeepsTheLock(2, Takeover(0) + hung, more, 0, 1);
    }
  }

  /** A start that leads, and while whose audit writer reads the tail of the chain a record is
      enqueued; the read then raises, and the SLI task ends. */
  function EarlyRecord(i: nat): seq<Event> {
    [Reap, Start(i, GOOD), Answer(i, GOOD), Answer(i, GOOD), Answer(i, GOOD), Record(i),
     Answer(i, GOOD.(seeds := false)), Answer(i, GOOD)]
  }

  /** The teardown of that failed start waits for ever. */
  lemma EarlyRecordHangs(c: Cluster, i: nat)
    requires i < |c.workers| && c.contended && Cleared(c.workers[i]) && c.workers[i].at == Idle
    requires c.holder.Some? ==> Orphaned(c)
    ensures var d := Run(c, EarlyRecord(i));
            && |d.workers| == |c.workers| && Hung(d.workers[i])
            && d.holder.Some? && d.holder == Conn(d.workers[i])
  {
    hide Run, Orphaned, Resume, Step, BeginStart, Hung, Cleared, Bare, Unready;
    var es := EarlyRecord(i);
    RunStep(c, es, 0);
    RunStep(c, es, 1);
    RunStep(c, es, 2);
    RunStep(c, es, 3);
    RunStep(c, es, 4);
    RunStep(c, es, 5);
    RunStep(c, es, 6);
    RunStep(c, es, 7);
    assert es[..8] == es;
    RunNothing(c, es);
    var freed := Step(c, Reap);
    FreedStart(c, i);
    var connecting := Step(freed, es[1]);
    var locking := Step(connecting, es[2]);
    GoodConnect(connecting, i);
    var recovering := Step(locking, es[3]);
    GoodLock(locking, i);
    var seeding := Step(recovering, es[4]);
    Seeds(recovering, i);
    FailsToSeed(seeding, i);
  }

  lemma Seeds(c: Cluster, i: nat)
    requires i < |c.workers| && c.workers[i].at == Recovering && Unready(c.workers[i]) && c.workers[i].sli
    ensures var d := Step(c, Answer(i, GOOD));
            && |d.workers| == |c.workers| && d.workers[i].at == Seeding && d.workers[i].writer == Some(Unstarted(0))
            && Unready(d.workers[i]) && d.workers[i].sli
            && d.workers[i].leader == c.workers[i].leader && d.holder == c.holder
  {
    GoodRecover(c, i);
  }

  lemma FailsToSeed(c: Cluster, i: nat)
    requires i < |c.workers| && c.workers[i].at == Seeding && c.workers[i].writer == Some(Unstarted(0))
    requires Unready(c.workers[i]) && c.workers[i].sli
    ensures var d := Step(Step(Step(c, Record(i)), Answer(i, GOOD.(seeds := false))), Answer(i, GOOD));
            |d.workers| == |c.workers| && Hung(d.workers[i]) && d.holder == c.holder
            && Conn(d.workers[i]) == Conn(c.workers[i])
  {
    var d1 := Step(c, Record(i));
    assert d1.workers[i] == c.workers[i].(writer := Some(Unstarted(1))) && d1.holder == c.holder;
    var d2 := Step(d1, Answer(i, GOOD.(seeds := false)));
    StopsSeeding(d1, i);
    StopsPollingUnstarted(d2, i);
  }

  predicate PollingUnstarted(w: Worker) {
    && w.at == StopSli && !w.server && w.writer == Some(Unstarted(1))
    && !w.transport && !w.sweeps && !w.served && !w.asgi
  }

  lemma StopsSeeding(c: Cluster, i: nat)
    requires i < |c.workers| && c.workers[i].at == Seeding && c.workers[i].writer == Some(Unstarted(1))
    requires Unready(c.workers[i]) && c.workers[i].sli
    ensures var d := Step(c, Answer(i, GOOD.(seeds := false)));
            && |d.workers| == |c.workers| && PollingUnstarted(d.workers[i])
            && d.workers[i].leader == c.workers[i].leader && d.holder == c.holder
  {
    hide AfterSli;
  }

  lemma StopsPollingUnstarted(c: Cluster, i: nat)
    requires i < |c.workers| && PollingUnstarted(c.workers[i])
    ensures var d := Step(c, Answer(i, GOOD));
            && |d.workers| == |c.workers| && Hung(d.workers[i])
            && d.workers[i].leader == c.workers[i].leader && d.holder == c.holder
  {
  }

  /** So in every run in which a worker at rest could take the lock, such a start ends hung. */
  lemma EarlyRecordsHappen(n: nat, events: seq<Event>, i: nat)
    requires i < n
    requires var c := Run(Launch(n, true), events);
             |c.workers| == n && c.workers[i].at == Idle && !c.workers[i].server && (c.holder.Some? ==> Orphaned(c))
    ensures var c := Run(Launch(n, true), events + EarlyRecord(i));
            |c.workers| == n && Hung(c.workers[i]) && c.holder.Some? && c.holder == Conn(c.workers[i])
  {
    var c0 := Run(Launch(n, true), events);
    RestIsClear(n, true, events, i);
    RunOn(Launch(n, true), events, EarlyRecord(i));
    RunKeepsInvariant(n, true, events);
    hide Run;
    EarlyRecordHangs(c0, i);
  }

  predicate Unfailed(w: Worker) {
    w.writer.Some? && w.writer.value.Ended? ==> !w.writer.value.failed
  }

  lemma ResumeUnfailed(w: Worker, a: Answers)
    requires Unfailed(w) && !a.writing
    ensures Unfailed(Resume(w, a))
  {
    hide Resume, Unfailed;
    match w.at
    case Idle | Connecting | Locking | Rejecting => ElectionUnfailed(w, a);
    case Recovering | Entering => BuildUnfailed(w, a);
    case Seeding => SeedUnfailed(w, a);
    case StopSweeps | StopSli | StopTransport | StopServer => StopUnfailed(w, a);
    case StopWriter | Unlocking | Closing => ReleaseUnfailed(w, a);
  }

  lemma ElectionUnfailed(w: Worker, a: Answers)
    requires Unfailed(w) && (w.at == Idle || w.at == Connecting || w.at == Locking || w.at == Rejecting)
    ensures Unfailed(Resume(w, a))
  {
    hide Protect, Lost;
  }

  lemma BuildUnfailed(w: Worker, a: Answers)
    requires Unfailed(w) && (w.at == Recovering || w.at == Entering)
    ensures Unfailed(Resume(w, a))
  {
    hide Failed;
  }

  lemma SeedUnfailed(w: Worker, a: Answers)
    requires Unfailed(w) && w.at == Seeding
    ensures Unfailed(Resume(w, a))
  {
    hide Build, Failed, Enqueued;
    EnqueuedUnfailed(w, a.early);
  }

  lemma EnqueuedUnfailed(w: Worker, n: nat)
    requires Unfailed(w)
    ensures Unfailed(Enqueued(w, n))
  {
  }

  lemma StopUnfailed(w: Worker, a: Answers)
    requires Unfailed(w) && !a.writing
    requires w.at == StopSweeps || w.at == StopSli || w.at == StopTransport || w.at == StopServer
    ensures Unfailed(Resume(w, a))
  {
    hide AfterSweeps, AfterSli, AfterTransport, AfterServer;
  }

  lemma ReleaseUnfailed(w: Worker, a: Answers)
    requires Unfailed(w) && (w.at == StopWriter || w.at == Unlocking || w.at == Closing)
    ensures Unfailed(Resume(w, a))
  {
    hide AfterWriter;
  }

  lemma StepUnfailed(c: Cluster, e: Event, i: nat)
    requires i < |c.workers| && Unfailed(c.workers[i]) && (e.Answer? ==> !e.a.writing)
    ensures |Step(c, e).workers| == |c.workers| && Unfailed(Step(c, e).workers[i])
  {
    hide Resume, BeginStart, BeginStop, HolderAfter, Enqueued, Free;
    EnqueuedUnfailed(c.workers[i], 1);
    if e.Answer? {
      ResumeUnfailed(c.workers[i], e.a.(session := c.sessions, granted := c.holder.None?));
    }
  }

  /** The landing is one of a run of the audit queue in which wakeups come in order. */
  ghost predicate LandsInOrder(a: Answers) {
    exists steps :: AuditQueue.RunsInOrder(AuditQueue.FRESH, steps) && LandsAfter(a, steps)
  }

  /** The landing is where the cancel finds the audit queue after these steps. */
  ghost predicate LandsAfter(a: Answers, steps: seq<AuditQueue.Step>) {
    var q := AuditQueue.Run(AuditQueue.FRESH, steps);
    q.cancelled && AuditQueue.Alive(q) && a.others == q.queued && (a.writing <==> q.point == AuditQueue.Writing)
  }

  /** In every run in which the wakeups of every audit queue come in order, no worker is ever half
      stopped. */
  lemma {:induction false} InOrderNeverHalfStops(n: nat, contended: bool, events: seq<Event>, i: nat)
    requires i < n && forall e :: e in events && e.Answer? ==> LandsInOrder(e.a)
    ensures var c := Run(Launch(n, contended), events);
            |c.workers| == n && Unfailed(c.workers[i]) && !HalfStopped(c.workers[i])
  {
    hide Step, LandsAfter;
    if events != [] {
      var (k, e) := (|events| - 1, events[|events| - 1]);
      InOrderNeverHalfStops(n, contended, events[..k], i);
      assert e in events;
      if e.Answer? {
        InOrderIsNotWriting(e.a);
      }
      StepUnfailed(Run(Launch(n, contended), events[..k]), e, i);
    }
  }

  lemma InOrderIsNotWriting(a: Answers)
    requires LandsInOrder(a)
    ensures !a.writing
  {
    var steps :| AuditQueue.RunsInOrder(AuditQueue.FRESH, steps) && LandsAfter(a, steps);
    AuditQueue.InOrderNeverRaises(steps);
    hide AuditQueue.Run;
  }

  lemma DistinctConnections(c: Cluster, i: nat, j: nat)
    requires Invariant(c) && i < |c.workers| && j < |c.workers| && i != j && Conn(c.workers[i]).Some?
    ensures Conn(c.workers[i]) != Conn(c.workers[j])
  {
    hide WorkerOk;
  }

  // ---------------------------------------------------------------------------------
  // The classes of the source
  // ---------------------------------------------------------------------------------

  class MCPLeader {
    var conn: Option<int>
    var isLeader: bool

    constructor ()
      ensures conn == None && !isLeader
    {
      conn, isLeader := None, false;
    }

    ghost function View(): Handle
      reads this
    {
      Handle(conn, isLeader)
    }

    /** Nothing is kept of a refused or broken attempt. */
    method Acquire(a: Answers) returns (got: bool)
      modifies this
      ensures got == (a.connects && a.locks && a.granted)
      ensures isLeader == got && conn == if got then Some(a.session) else None
    {
      isLeader := false;
      if a.connects {
        conn := Some(a.session);
        isLeader := a.locks && a.granted;
      }
      if !isLeader {
        conn := None;
      }
      got := isLeader;
    }

    method Release()
      modifies this
      ensures conn == None && !isLeader
    {
      conn := None;
      isLeader := false;
    }
  }

  class AuditWriter {
    var task: Task

    constructor ()
      ensures task == Unstarted(0)
    {
      task := Unstarted(0);
    }

    /** The task is launched only once the chain's tail has been read; records may come before. */
    method Begin(a: Answers) returns (ok: bool)
      requires task == Unstarted(0)
      modifies this
      ensures ok == a.seeds && task == if ok then Alive else Unstarted(a.early)
    {
      ok := a.seeds;
      task := if ok then Alive else Unstarted(a.early);
    }

    /** Drains, cancels a live task and awaits whatever task there is. */
    method ShutDown(a: Answers) returns (end: StopEnd)
      modifies this
      ensures task == Shutdown(old(task), a)
      ensures end == if Jams(Some(old(task))) then Hangs else if ShutdownRaises(old(task), a) then Raised else Stopped
    {
      if task != Alive && task.left > 0 {
        return Hangs;
      }
      if task == Alive {
        task := Shutdown(Alive, a);
      }
      end := if task.Ended? && task.failed then Raised else Stopped;
    }
  }

  datatype Outcome = Done | NotBooted | StopRaised | StopHangs | NotStarted | SelfTestFailed | Conflict

  class MCPManager {
    const env: Environment
    const booted: bool
    var leader: MCPLeader?
    var dbFloor: bool
    var breaker: bool
    var sliTask: bool
    var sweepTasks: bool
    var auditWriter: AuditWriter?
    var transport: bool
    var server: bool
    var served: bool
    var asgi: bool
    var lastError: LastError
    /** The persisted `enabled` flag. */
    var enabled: bool
    /** The await that a call never got past, if no later call has taken over. */
    ghost var waitsAt: Point

    constructor (env: Environment, booted: bool, enabled: bool)
      ensures State() == FRESH && this.env == env && this.booted == booted && this.enabled == enabled
    {
      this.env, this.booted, this.enabled := env, booted, enabled;
      leader, auditWriter := null, null;
      dbFloor, breaker, sliTask, sweepTasks := false, false, false, false;
      transport, server, served, asgi := false, false, false, false;
      lastError := NoError;
      waitsAt := Idle;
    }

    ghost function State(): (w: Worker)
      reads this, leader, auditWriter
      ensures w.at == waitsAt && w.server == server
    {
      Worker(waitsAt, if leader == null then None else Some(leader.View()), dbFloor, breaker, sliTask, sweepTasks,
             if auditWriter == null then None else Some(auditWriter.task), transport, server, served, asgi, lastError)
    }

    ghost predicate Valid()
      reads this, leader, auditWriter
    {
      AtRest(State(), Contended(env))
    }

    /** One step after the other; only the two shutdowns can end the call early, or never. */
    method StopTransport(a: Answers) returns (end: StopEnd)
      requires Stoppable(State(), Contended(env)) && (server ==> auditWriter != null)
      modifies this, leader, auditWriter
      ensures Valid() && enabled == old(enabled)
      ensures State() == Settle(BeginStop(old(State())), a) && end == EndOf(old(State()), a)
      ensures leader == null || leader == old(leader)
      ensures auditWriter == null || auditWriter == old(auditWriter)
    {
      hide Settle, BeginStop, AtRest, Stoppable, MCPManager.State, Shut, EndOf;
      StopLeaves(State(), a);
      ShutRests(State(), Contended(env), a);
      ShutForgets(State(), State().(at := Idle), a);
      TakeOver();
      end := Teardown(a);
    }

    method Teardown(a: Answers) returns (end: StopEnd)
      requires server ==> auditWriter != null
      requires State().at == Idle
      modifies this, leader, auditWriter
      ensures State() == Shut(old(State()), a) && end == EndOf(old(State()), a) && enabled == old(enabled)
      ensures leader == null || leader == old(leader)
      ensures auditWriter == null || auditWriter == old(auditWriter)
    {
      hide MCPManager.State, Stuck, Ending;
      ShutParts(State(), a);
      StopServing();
      end := StopServer(a);
      if end == Stopped {
        end := ReleaseWriter(a);
        if end == Stopped {
          ReleaseLeader();
        }
      }
    }

    /** A call that waits for ever does not keep this one from going on. */
    ghost method TakeOver()
      modifies this`waitsAt
      ensures State() == old(State()).(at := Idle)
    {
      waitsAt := Idle;
    }

    /** Unpublish first, then the tasks, the protections and the transport; none of them raises. */
    method StopServing()
      modifies this`served, this`asgi, this`sweepTasks, this`sliTask, this`breaker, this`dbFloor, this`transport
      ensures State() == Unserved(old(State()))
    {
      served, asgi := false, false;
      sweepTasks := false;
      sliTask := false;
      breaker := false;
      dbFloor := false;
      transport := false;
    }

    method StopServer(a: Answers) returns (end: StopEnd)
      requires server ==> auditWriter != null
      modifies this`server, this`waitsAt, auditWriter
      ensures var was := old(State());
              && end == (if was.server && Jams(was.writer) then Hangs else if Stuck(was, a) then Raised else Stopped)
              && State() == match end
                            case Hangs => was.(at := Point.StopServer)
                            case Raised => was.(writer := Ending(was, a))
                            case Stopped => was.(server := false, writer := Leftover(was, a))
    {
      hide MCPManager.State, Shutdown;
      end := Stopped;
      if server {
        end := ShutWriter(a);
        match end {
          case Hangs => WaitAt(Point.StopServer);
          case Raised =>
          case Stopped => DropServer();
        }
      }
    }

    /** Whether the shutdown raises does not matter here. */
    method ReleaseWriter(a: Answers) returns (end: StopEnd)
      modifies this`auditWriter, this`waitsAt, auditWriter
      ensures var was := old(State());
              && end == (if Jams(was.writer) then Hangs else Stopped)
              && State() == if end == Hangs then was.(at := StopWriter) else was.(writer := None)
      ensures auditWriter == null || auditWriter == old(auditWriter)
    {
      hide MCPManager.State, Shutdown, Jams, ShutdownRaises;
      if auditWriter == null {
        NoWriter();
        return Stopped;
      }
      end := ShutWriter(a);
      if end == Hangs {
        WaitAt(StopWriter);
      } else {
        DropWriter();
        end := Stopped;
      }
    }

    lemma NoWriter()
      requires auditWriter == null
      ensures State() == State().(writer := None) && !Jams(State().writer)
    {
    }

    method ShutWriter(a: Answers) returns (end: StopEnd)
      requires auditWriter != null
      modifies auditWriter
      ensures var was := old(State());
              && was.writer.Some?
              && end == (if Jams(was.writer) then Hangs
                         else if ShutdownRaises(was.writer.value, a) then Raised else Stopped)
              && State() == was.(writer := Some(Shutdown(was.writer.value, a)))
              && (end == Hangs ==> State() == was)
    {
      hide AuditQueue.Landing;
      end := auditWriter.ShutDown(a);
    }

    ghost method WaitAt(p: Point)
      modifies this`waitsAt
      ensures State() == old(State()).(at := p)
    {
      waitsAt := p;
    }

    method DropServer()
      modifies this`server
      ensures State() == old(State()).(server := false)
    {
      server := false;
    }

    method DropWriter()
      modifies this`auditWriter
      ensures auditWriter == null && State() == old(State()).(writer := None)
    {
      auditWriter := null;
    }

    method ReleaseLeader()
      modifies this`leader, leader
      ensures leader == null && State() == old(State()).(leader := None)
    {
      if leader != null {
        leader.Release();
        leader := null;
      }
    }

    method AcquireLeadership(a: Answers) returns (got: bool)
      requires leader != null ==> leader.isLeader
      modifies this`leader
      ensures got == (old(leader) != null || Leads(Contended(env), a))
      ensures leader == null || leader == old(leader) || fresh(leader)
      ensures var was := old(State());
              State() == if was.leader.Some? then was else was.(leader :=
                if Contended(env) then Some(Handle(if got then Some(a.session) else None, got)) else None)
    {
      if leader != null && leader.isLeader {
        return true;
      }
      var concurrency := if env.webConcurrency.Some? then env.webConcurrency.value else 1;
      if concurrency <= 1 {
        return true;
      }
      if !env.databaseUrl {
        return true;
      }
      leader := new MCPLeader();
      got := leader.Acquire(a);
    }

    method Protect(a: Answers)
      modifies this`dbFloor, this`breaker, this`sliTask
      ensures State() == old(State()).(dbFloor := old(dbFloor) || a.protection >= 1,
                                       breaker := old(breaker) || a.protection >= 2,
                                       sli := old(sliTask) || a.protection >= 3)
    {
      if a.protection >= 1 {
        dbFloor := true;
        if a.protection >= 2 {
          breaker := true;
          if a.protection >= 3 {
            sliTask := true;
          }
        }
      }
    }

    method Fail()
      modifies this`lastError
      ensures State() == old(State()).(lastError := StartFailed)
    {
      lastError := StartFailed;
    }

    lemma ServerHasWriter()
      requires Valid()
      ensures (server ==> auditWriter != null) && Stoppable(State(), Contended(env))
    {
      RestIsStoppable(State(), Contended(env));
    }

    lemma StateParts()
      ensures var w := State();
              && (w.writer.None? <==> auditWriter == null) && w.transport == transport
              && w.dbFloor == dbFloor && w.breaker == breaker && w.sli == sliTask
    {
    }

    /** The guarded part: writer, server and transport, up to the first failure. */
    method BuildServer(a: Answers) returns (ok: bool)
      requires !server && !transport
      modifies this`auditWriter, this`server, this`served, this`transport, this`asgi, this`lastError
      ensures fresh(auditWriter) && ok == (BuildsServer(a) && OpensTransport(a))
      ensures State().leader == old(State()).leader && server == BuildsServer(a)
      ensures State().at == old(State()).at && State().writer == Some(Launched(a))
      ensures ok ==> State() == old(State()).(writer := Some(Alive), transport := a.hasTransport, server := true,
                                              served := true, asgi := true, lastError := NoError)
    {
      ok := false;
      auditWriter := new AuditWriter();
      var seeded := auditWriter.Begin(a);
      if !seeded || !a.constructs {
        return;
      }
      server, served := true, true;
      if !a.builds {
        return;
      }
      if a.hasTransport {
        transport := true;
        if !a.enters {
          return;
        }
      }
      asgi := true;
      lastError := NoError;
      ok := true;
    }

    /** Also behind a stop that waits for ever: the start goes on under the old leadership. */
    method StartTransport(a: Answers) returns (end: StopEnd)
      requires Valid() && !server
      modifies this, leader
      ensures Valid() && enabled == old(enabled)
      ensures State() == Started(old(State()), Contended(env), a) && end == EndAfter(State())
      ensures leader == null || leader == old(leader) || fresh(leader)
      ensures auditWriter == null || fresh(auditWriter)
    {
      hide StartedUnder, AtRest, EndAfter, Startable;
      end := Stopped;
      RestIsStartable(State(), Contended(env));
      TakeOver();
      var leading := AcquireLeadership(a);
      if !leading {
        lastError := NotMcpLeader;
        leader := null;
        ClearedIsAtRest(State(), Contended(env));
        return;
      }
      end := StartServer(a);
    }

    /** The part of a start that comes after the election. */
    method StartServer(a: Answers) returns (end: StopEnd)
      requires State() == FRESH.(leader := State().leader, lastError := State().lastError, writer := State().writer)
      requires Led(State(), Contended(env))
      modifies this, leader
      ensures Valid() && enabled == old(enabled)
      ensures State() == StartedUnder(old(State()).leader, a) && end == EndAfter(State())
      ensures leader == null || leader == old(leader)
      ensures auditWriter == null || fresh(auditWriter)
    {
      hide Settle, BeginStop, Shut, EndOf, EndAfter, Cleared, HalfStopped, AtRest, MCPManager.State;
      end := Stopped;
      StateParts();
      Protect(a);
      var up := BuildServer(a);
      if !up {
        Fail();
        var led := FRESH.(leader := State().leader, lastError := StartFailed);
        StopLeaves(State(), a);
        ShutForgets(State(), led.(server := BuildsServer(a), writer := Some(Launched(a))), a);
        ShutRests(State(), Contended(env), a);
        end := StopTransport(a);
      } else {
        ServingIsAtRest(State(), Contended(env));
      }
    }

    /** The flag is stored only over a server that passed its self-test; the endpoint then answers
        unless the manager was half stopped before. */
    method Enable(a: Answers, selfTest: bool, saves: bool) returns (outcome: Outcome)
      requires Valid()
      modifies this, leader, auditWriter
      ensures Valid()
      ensures var was := old(State());
              var up := if was.server then was else Started(was, Contended(env), a);
              var testable := booted && up.server && (was.server || Serving(up));
              && State() == (if !booted then was
                             else if testable && !selfTest then Settle(BeginStop(up), a)
                             else up)
              && outcome == (if !booted then NotBooted
                             else if !was.server && EndAfter(up) == Raised then StopRaised
                             else if !was.server && EndAfter(up) == Hangs then StopHangs
                             else if !up.server then NotStarted
                             else if selfTest then (if saves then Done else Conflict)
                             else match EndOf(up, a)
                                  case Stopped => SelfTestFailed
                                  case Raised => StopRaised
                                  case Hangs => StopHangs)
              && (outcome == Done ==> enabled && (Serving(State()) <==> !HalfStopped(was)))
      ensures outcome != Done ==> enabled == old(enabled)
    {
      hide Settle, BeginStop, EndOf, EndAfter, Serving, HalfStopped, Started, MCPManager.Valid, MCPManager.State;
      ServesAtRest();
      if !booted {
        return NotBooted;
      }
      if !server {
        var end := StartTransport(a);
        ServesAtRest();
        if end != Stopped {
          return if end == Raised then StopRaised else StopHangs;
        }
        if !server {
          return NotStarted;
        }
      }
      outcome := Certify(a, selfTest, saves);
    }

    lemma ServesAtRest()
      requires Valid()
      ensures var w := State();
              && (Serving(w) <==> EndAfter(w) == Stopped && w.server)
              && (if w.server then Serving(w) != HalfStopped(w) else !HalfStopped(w))
    {
      RestServes(State(), Contended(env));
    }

    /** The self-test of a server, and the flag. */
    method Certify(a: Answers, selfTest: bool, saves: bool) returns (outcome: Outcome)
      requires Valid() && server
      modifies this, leader, auditWriter
      ensures Valid() && enabled == (old(enabled) || outcome == Done)
      ensures State() == if selfTest then old(State()) else Settle(BeginStop(old(State())), a)
      ensures outcome == if selfTest then (if saves then Done else Conflict)
                         else match EndOf(old(State()), a)
                              case Raised => StopRaised
                              case Hangs => StopHangs
                              case Stopped => SelfTestFailed
    {
      hide Settle, BeginStop, EndOf, AtRest, Stoppable;
      ServerHasWriter();
      if !selfTest {
        var end := StopTransport(a);
        return match end case Raised => StopRaised case Hangs => StopHangs case Stopped => SelfTestFailed;
      }
      if !saves {
        return Conflict;
      }
      enabled := true;
      outcome := Done;
    }

    /** A kill always gets through to the stop; a plain disable may lose to another writer. */
    method Disable(kill: bool, saves: bool, a: Answers) returns (outcome: Outcome)
      requires Valid()
      modifies this, leader, auditWriter
      ensures Valid()
      ensures var stops := booted && (kill || saves);
              && State() == (if stops then Settle(BeginStop(old(State())), a) else old(State()))
              && enabled == (old(enabled) && !stops)
              && outcome == if !booted then NotBooted
                            else if !kill && !saves then Conflict
                            else match EndOf(old(State()), a)
                                 case Stopped => Done
                                 case Raised => StopRaised
                                 case Hangs => StopHangs
    {
      hide Settle, BeginStop, AtRest, EndOf;
      ServerHasWriter();
      if !booted {
        return NotBooted;
      }
      if !kill && !saves {
        return Conflict;
      }
      enabled := false;
      var end := StopTransport(a);
      outcome := match end case Raised => StopRaised case Hangs => StopHangs case Stopped => Done;
    }
  }
}
