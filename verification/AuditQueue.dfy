/**
 The queue and the task of the MCP audit writer, `AuditWriter` of backend/mcp/core/audit.py, and
 its shutdown. What the records say and their hash chain are left out.

 A step is the code of one task between two awaits. `drain` waits on the queue's event, so
 between the write that empties the queue and the shutdown's next step other tasks may run and
 enqueue records.
 */
module AuditQueue {

  const MAX_SIZE := 10000

  // ---------------------------------------------------------------------------------
  // The machine
  // ---------------------------------------------------------------------------------

  /** The writer task waits in `get`, or is in `_write_one`, or has ended, with an error if `failed`; or
      there is none. */
  datatype Point = Getting | Writing | Over(failed: bool)

  /** The shutdown: draining, with the event set if `woken`, then awaiting the cancelled task. */
  datatype Stop = NotCalled | Draining(woken: bool) | Awaiting | Returned | Raised

  /** `queued` records wait; `unfinished` is the queue's count of records not marked done. `late`
      counts the records enqueued since the first drain ended. */
  datatype Queue = Queue(queued: nat, unfinished: nat, point: Point, cancelled: bool, stop: Stop, late: nat)

  /** A queue with a task just launched. */
  const FRESH := Queue(0, 0, Getting, false, NotCalled, 0)

  /** `Written` is the end of a write, whether the append returned or raised; `Land` the step in
      which a cancelled task gets its CancelledError; `Call`, `Wake` and `Finish` are the shutdown's. */
  datatype Step = Enqueue | Take | Written | Land | Call | Wake | Finish

  predicate Alive(q: Queue) {
    !q.point.Over?
  }

  /** The first drain is over. */
  predicate Drained(q: Queue) {
    q.cancelled || q.stop == Draining(true)
  }

  /** `task_done`: the event is set when nothing is unfinished. */
  function TaskDone(q: Queue): Queue
    requires q.unfinished > 0
  {
    q.(unfinished := q.unfinished - 1,
       stop := if q.unfinished == 1 && q.stop.Draining? then Draining(true) else q.stop)
  }

  function Cancel(q: Queue): Queue {
    q.(cancelled := true, stop := Awaiting)
  }

  /** A step that is not enabled changes nothing. A full queue makes `enqueue` write by itself. */
  function Next(q: Queue, step: Step): Queue {
    match step
    case Enqueue =>
      if q.queued >= MAX_SIZE then q
      else q.(queued := q.queued + 1, unfinished := q.unfinished + 1, late := q.late + if Drained(q) then 1 else 0)
    case Take =>
      if q.point == Getting && q.queued > 0 && !q.cancelled then q.(queued := q.queued - 1, point := Writing) else q
    case Written =>
      if q.point != Writing || q.cancelled || q.unfinished == 0 then q
      else if q.queued > 0 then TaskDone(q).(queued := q.queued - 1)
      else TaskDone(q).(point := Getting)
    case Land => if q.cancelled && Alive(q) then Landing(q) else q
    case Call =>
      if q.stop.Draining? || q.stop.Awaiting? then q
      else if q.unfinished == 0 then Cancel(q)
      else q.(stop := Draining(false))
    case Wake => if q.stop == Draining(true) then Cancel(q) else q
    case Finish =>
      if q.stop == Awaiting && q.point.Over? then q.(stop := if q.point.failed then Raised else Returned) else q
  }

  /** In `get` the CancelledError ends the task. In a write the handler marks the record done and so
      does the `finally`; the second mark raises ValueError when nothing else is unfinished. */
  function Landing(q: Queue): Queue {
    if q.point != Writing then q.(point := Over(false))
    else if q.unfinished <= 1 then q.(unfinished := 0, point := Over(true))
    else q.(unfinished := q.unfinished - 2, point := Over(false))
  }

  function Run(q: Queue, steps: seq<Step>): Queue {
    if steps == [] then q else Next(Run(q, steps[..|steps| - 1]), steps[|steps| - 1])
  }

  // ---------------------------------------------------------------------------------
  // Every run
  // ---------------------------------------------------------------------------------

  predicate Sane(q: Queue) {
    && (Alive(q) ==> q.unfinished == q.queued + if q.point == Writing then 1 else 0)
    && (Alive(q) ==> (q.cancelled <==> q.stop == Awaiting) && q.stop != Returned && q.stop != Raised)
    && (Alive(q) && Drained(q) ==> q.unfinished <= q.late)
    && (!Alive(q) ==> q.cancelled && q.unfinished <= q.late)
    && (!Alive(q) && q.point.failed ==> q.late > 0)
    && (q.stop == Raised ==> q.point == Over(true))
    && (q.stop == Returned ==> q.point == Over(false))
  }

  lemma NextIsSane(q: Queue, step: Step)
    requires Sane(q)
    ensures Sane(Next(q, step))
  {
  }

  lemma {:induction false} RunIsSane(q: Queue, steps: seq<Step>)
    requires Sane(q)
    ensures Sane(Run(q, steps))
  {
    hide Sane, Next;
    if steps != [] {
      RunIsSane(q, steps[..|steps| - 1]);
      NextIsSane(Run(q, steps[..|steps| - 1]), steps[|steps| - 1]);
    }
  }

  /** The queue never has more than ten thousand records; beyond them `enqueue` writes by itself. */
  lemma {:induction false} QueueIsBounded(steps: seq<Step>)
    ensures Run(FRESH, steps).queued <= 10000
    ensures Run(FRESH, steps).queued == 10000 ==> Next(Run(FRESH, steps), Enqueue) == Run(FRESH, steps)
    ensures Run(FRESH, steps).queued < 10000 ==>
              Next(Run(FRESH, steps), Enqueue).queued == Run(FRESH, steps).queued + 1
  {
    if steps != [] {
      QueueIsBounded(steps[..|steps| - 1]);
    }
  }

  lemma FreshIsSane()
    ensures Sane(FRESH)
  {
  }

  /** In every run the cancel fails the task exactly if it lands in a write with no other record in
      the queue; it then leaves nothing unfinished, and otherwise one record less than are left in
      the queue if it lands in a write. */
  lemma CancelFailsExactly(steps: seq<Step>)
    requires Run(FRESH, steps).cancelled && Alive(Run(FRESH, steps))
    ensures var (q, r) := (Run(FRESH, steps), Next(Run(FRESH, steps), Land));
            && (r.point == Over(true) <==> q.point == Writing && q.queued == 0)
            && r.unfinished == (if q.point == Writing && q.queued > 0 then q.queued - 1
                                else if q.point == Writing then 0 else q.queued)
  {
    FreshIsSane();
    RunIsSane(FRESH, steps);
    hide Run;
  }

  /** In every run, a shutdown that raises, or a task that leaves records unfinished, had a record
      enqueued after the drain ended. */
  lemma LateRecordsAreToBlame(steps: seq<Step>)
    ensures var q := Run(FRESH, steps);
            (q.stop == Raised || (!Alive(q) && q.unfinished > 0)) ==> q.late > 0
  {
    FreshIsSane();
    RunIsSane(FRESH, steps);
    hide Run;
  }

  // ---------------------------------------------------------------------------------
  // Waiting for ever
  // ---------------------------------------------------------------------------------

  /** A drain of what a dead task left. */
  predicate Jammed(q: Queue) {
    !Alive(q) && q.unfinished > 0 && q.stop == Draining(false)
  }

  lemma NextIsJammed(q: Queue, step: Step)
    requires Jammed(q)
    ensures Jammed(Next(q, step))
  {
  }

  /** Nobody is left to mark the records done. */
  lemma {:induction false} JammedForGood(q: Queue, steps: seq<Step>)
    requires Jammed(q)
    ensures Jammed(Run(q, steps))
  {
    hide Jammed, Next;
    if steps != [] {
      JammedForGood(q, steps[..|steps| - 1]);
      NextIsJammed(Run(q, steps[..|steps| - 1]), steps[|steps| - 1]);
    }
  }

  /** A shutdown of a dead task, with nobody enqueueing, ends as the first one did exactly if nothing
      is unfinished; otherwise it waits for ever. */
  lemma SecondShutdownWaitsExactly(q: Queue, more: seq<Step>)
    requires Sane(q) && (q.stop == Returned || q.stop == Raised)
    ensures q.unfinished > 0 <==> Jammed(Next(q, Call))
    ensures q.unfinished > 0 ==> Jammed(Run(Next(q, Call), more))
    ensures q.unfinished == 0 ==> Next(Next(q, Call), Finish) == q
  {
    if q.unfinished > 0 {
      JammedForGood(Next(q, Call), more);
    }
    hide Run;
  }

  /** So does, exactly if records came, the shutdown of a writer whose task was never launched. */
  lemma NeverLaunchedWaitsExactly(records: nat, more: seq<Step>)
    ensures var q := Next(Queue(records, records, Over(false), false, NotCalled, 0), Call);
            if records > 0 then Jammed(Run(q, more)) else Next(q, Finish).stop == Returned
  {
    if records > 0 {
      JammedForGood(Next(Queue(records, records, Over(false), false, NotCalled, 0), Call), more);
    }
    hide Run;
  }

  // ---------------------------------------------------------------------------------
  // Wakeups in order
  // ---------------------------------------------------------------------------------

  /** asyncio runs tasks in the order they became ready. The write that wakes the shutdown leaves
      the queue empty, so a record can be taken only after an enqueue that came later, and the
      shutdown runs first. */
  predicate InOrder(q: Queue, step: Step) {
    step == Take ==> q.stop != Draining(true)
  }

  predicate RunsInOrder(q: Queue, steps: seq<Step>) {
    steps == [] ||
    (RunsInOrder(q, steps[..|steps| - 1]) && InOrder(Run(q, steps[..|steps| - 1]), steps[|steps| - 1]))
  }

  predicate Orderly(q: Queue) {
    && Sane(q)
    && (Alive(q) && Drained(q) ==> q.point == Getting && q.unfinished == q.late)
    && (!Alive(q) ==> q.point == Over(false) && q.unfinished == q.late)
    && (!Drained(q) && Alive(q) ==> q.late == 0)
  }

  lemma NextIsOrderly(q: Queue, step: Step)
    requires Orderly(q) && InOrder(q, step)
    ensures Orderly(Next(q, step))
  {
  }

  lemma {:induction false} RunIsOrderly(q: Queue, steps: seq<Step>)
    requires Orderly(q) && RunsInOrder(q, steps)
    ensures Orderly(Run(q, steps))
  {
    hide Orderly, Next, InOrder;
    if steps != [] {
      RunIsOrderly(q, steps[..|steps| - 1]);
      NextIsOrderly(Run(q, steps[..|steps| - 1]), steps[|steps| - 1]);
    }
  }

  /** With wakeups in order a shutdown never raises, the cancel never lands in a write, and what is
      left unfinished are exactly the records enqueued after the drain ended. */
  lemma InOrderNeverRaises(steps: seq<Step>)
    requires RunsInOrder(FRESH, steps)
    ensures var q := Run(FRESH, steps);
            && q.stop != Raised && q.point != Over(true)
            && (q.cancelled && Alive(q) ==> q.point == Getting)
            && (!Alive(q) ==> q.unfinished == q.late)
  {
    FreshIsSane();
    RunIsOrderly(FRESH, steps);
    hide Run, RunsInOrder;
  }

  /** So a second shutdown waits for ever exactly if a record was enqueued after the drain ended. */
  lemma InOrderSecondShutdownWaitsExactly(steps: seq<Step>, more: seq<Step>)
    requires RunsInOrder(FRESH, steps) && Run(FRESH, steps).stop == Returned
    ensures var (q, again) := (Run(FRESH, steps), Next(Run(FRESH, steps), Call));
            if q.late > 0 then Jammed(Run(again, more)) else Next(again, Finish).stop == Returned
  {
    FreshIsSane();
    RunIsOrderly(FRESH, steps);
    var q := Run(FRESH, steps);
    SecondShutdownWaitsExactly(q, more);
    hide Run, RunsInOrder;
  }

  // ---------------------------------------------------------------------------------
  // Two bad stops
  // ---------------------------------------------------------------------------------

  /** A record is written while the shutdown drains; another is enqueued before the shutdown wakes. */
  const LATE_RECORD := [Enqueue, Take, Call, Written, Enqueue, Wake, Land, Finish]

  /** The same, but the writer takes the late record before the shutdown wakes. */
  const OVERTAKEN := [Enqueue, Take, Call, Written, Enqueue, Take, Wake, Land, Finish]

  lemma RunStep(q: Queue, steps: seq<Step>, k: nat)
    requires k < |steps|
    ensures Run(q, steps[..k + 1]) == Next(Run(q, steps[..k]), steps[k])
    ensures RunsInOrder(q, steps[..k + 1]) <==>
              RunsInOrder(q, steps[..k]) && InOrder(Run(q, steps[..k]), steps[k])
  {
    assert steps[..k + 1][..k] == steps[..k];
  }

  /** In order, the shutdown returns with a record left, and the next one waits for ever. */
  lemma LateRecordJams(more: seq<Step>)
    ensures RunsInOrder(FRESH, LATE_RECORD) && Run(FRESH, LATE_RECORD).stop == Returned
    ensures Jammed(Run(Next(Run(FRESH, LATE_RECORD), Call), more))
  {
    hide Run, RunsInOrder;
    RunNothing(LATE_RECORD);
    for k := 0 to 8
      invariant RunsInOrder(FRESH, LATE_RECORD[..k])
      invariant Run(FRESH, LATE_RECORD[..k]) == LateRecordAt(k)
    {
      RunStep(FRESH, LATE_RECORD, k);
    }
    assert LATE_RECORD[..8] == LATE_RECORD;
    InOrderSecondShutdownWaitsExactly(LATE_RECORD, more);
  }

  function LateRecordAt(k: nat): Queue
    requires k <= 8
  {
    match k
    case 0 => FRESH
    case 1 => FRESH.(queued := 1, unfinished := 1)
    case 2 => FRESH.(unfinished := 1, point := Writing)
    case 3 => FRESH.(unfinished := 1, point := Writing, stop := Draining(false))
    case 4 => FRESH.(stop := Draining(true))
    case 5 => FRESH.(queued := 1, unfinished := 1, stop := Draining(true), late := 1)
    case 6 => Queue(1, 1, Getting, true, Awaiting, 1)
    case 7 => Queue(1, 1, Over(false), true, Awaiting, 1)
    case 8 => Queue(1, 1, Over(false), true, Returned, 1)
  }

  lemma RunNothing(steps: seq<Step>)
    ensures Run(FRESH, steps[..0]) == FRESH && RunsInOrder(FRESH, steps[..0])
  {
  }

  /** Out of order, the shutdown raises. */
  lemma OvertakenRaises()
    ensures Run(FRESH, OVERTAKEN).stop == Raised && !RunsInOrder(FRESH, OVERTAKEN)
  {
    hide Run, RunsInOrder;
    RunNothing(OVERTAKEN);
    for k := 0 to 5
      invariant Run(FRESH, OVERTAKEN[..k]) == LateRecordAt(k)
    {
      RunStep(FRESH, OVERTAKEN, k);
    }
    RunStep(FRESH, OVERTAKEN, 5);
    RunStep(FRESH, OVERTAKEN, 6);
    RunStep(FRESH, OVERTAKEN, 7);
    RunStep(FRESH, OVERTAKEN, 8);
    assert OVERTAKEN[..9] == OVERTAKEN;
  }
}
