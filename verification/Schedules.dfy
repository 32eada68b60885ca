/**
 The compare-and-swap claims on scheduled scans of backend/async_persistence.py, issued by any
 number of instances. Each UPDATE is one atomic step. Times are whole seconds, the resolution
 of the stamps.
 */
module Schedules {
  import opened Common

  type ScheduleId = string

  datatype Schedule = Schedule(active: bool, nextRun: Option<int>, lastRun: Option<int>)
  type Table = map<ScheduleId, Schedule>

  /** The two claims; the start of an execution that the recovery at startup replays without a claim,
      for a due time it saw before operation number `read`; the stamp that an execution writes once
      its scan has started, with the number of the claim that started it, or none for a replay; and
      changes of the status and of the due time. `now` is the stamp of a claim or a restamp. Its
      instance reads its own clock before it waits, for a connection or for the scan, so stamps need
      not follow the order of the statements. */
  datatype Operation =
    | ClaimScheduled(id: ScheduleId, now: int, oldNext: int, newNext: Option<int>)
    | ClaimManual(id: ScheduleId, now: int, oldLast: Option<int>)
    | Replay(id: ScheduleId, now: int, due: int, read: nat)
    | Restamp(id: ScheduleId, now: int, claim: Option<nat>)
    | SetActive(id: ScheduleId, now: int, active: bool)
    | SetNext(id: ScheduleId, now: int, next: Option<int>)

  /** SQL equality: a NULL column equals nothing. */
  predicate Matches(column: Option<int>, value: int) {
    column.Some? && column.value == value
  }

  /** Whether the WHERE clause of a claim selects the row. */
  predicate Wins(table: Table, op: Operation) {
    op.id in table && table[op.id].active &&
    match op
    case ClaimScheduled(_, _, oldNext, _) => Matches(table[op.id].nextRun, oldNext)
    case ClaimManual(_, _, oldLast) =>
      if oldLast.None? then table[op.id].lastRun.None? else Matches(table[op.id].lastRun, oldLast.value)
    case _ => false
  }

  function Apply(table: Table, op: Operation): Table {
    if op.id !in table then table
    else
      var row := table[op.id];
      match op
      case ClaimScheduled(id, now, _, newNext) =>
        if Wins(table, op) then table[id := row.(nextRun := newNext, lastRun := Some(now))] else table
      case ClaimManual(id, now, _) =>
        if Wins(table, op) then table[id := row.(lastRun := Some(now))] else table
      case Replay(_, _, _, _) => table
      case Restamp(id, now, _) => table[id := row.(lastRun := Some(now))]
      case SetActive(id, _, active) => table[id := row.(active := active)]
      case SetNext(id, _, next) => table[id := row.(nextRun := next)]
  }

  /** The table before operation `n`. */
  function Before(table: Table, ops: seq<Operation>, n: nat): Table
    requires n <= |ops|
  {
    if n == 0 then table else Apply(Before(table, ops, n - 1), ops[n - 1])
  }

  predicate WinsAt(table: Table, ops: seq<Operation>, n: nat)
    requires n < |ops|
  {
    Wins(Before(table, ops, n), ops[n])
  }

  // ---------------------------------------------------------------------------------
  // Scheduled claims
  // ---------------------------------------------------------------------------------

  /** Every claim asks for a later time than the one it takes, or for none; and no other write moves
      the due time back to one that was won, or before it. */
  ghost predicate ClaimsMoveOn(table: Table, ops: seq<Operation>) {
    && (forall i :: 0 <= i < |ops| && ops[i].ClaimScheduled? && ops[i].newNext.Some? ==>
          ops[i].newNext.value > ops[i].oldNext)
    && (forall i, m :: 0 <= i < m < |ops| && ops[m].SetNext? && ops[m].next.Some?
                       && ops[i].ClaimScheduled? && ops[i].id == ops[m].id && WinsAt(table, ops, i) ==>
          ops[m].next.value > ops[i].oldNext)
  }

  /** Once a due time is won, the schedule is past it for good. */
  lemma {:induction false} WonTimeIsPast(table: Table, ops: seq<Operation>, i: nat, j: nat)
    requires i < j <= |ops| && ClaimsMoveOn(table, ops)
    requires ops[i].ClaimScheduled? && WinsAt(table, ops, i)
    ensures var now := Before(table, ops, j);
            ops[i].id in now && (now[ops[i].id].nextRun.Some? ==> now[ops[i].id].nextRun.value > ops[i].oldNext)
    decreases j
  {
    if i + 1 < j {
      WonTimeIsPast(table, ops, i, j - 1);
    }
  }

  /** Over every run, the due times won of one schedule strictly advance; so each is won at most
      once, by one instance. */
  lemma DueTimesWonAdvance(table: Table, ops: seq<Operation>, i: nat, j: nat)
    requires i < j < |ops| && ClaimsMoveOn(table, ops)
    requires ops[i].ClaimScheduled? && ops[j].ClaimScheduled? && ops[i].id == ops[j].id
    requires WinsAt(table, ops, i) && WinsAt(table, ops, j)
    ensures ops[i].oldNext < ops[j].oldNext
  {
    WonTimeIsPast(table, ops, i, j);
  }

  /** The condition is needed: a repeated claim wins again exactly when the first one put the
      same time back. */
  lemma RepeatedClaimWinsExactlyIfUnmoved(table: Table, op: Operation)
    requires op.ClaimScheduled? && Wins(table, op)
    ensures Wins(Apply(table, op), op) <==> op.newNext == Some(op.oldNext)
  {
  }

  // ---------------------------------------------------------------------------------
  // Single runner
  // ---------------------------------------------------------------------------------

  /** Operation `n` starts an execution for the due time: a scheduled claim that wins it, or a replay
      by an instance that saw it on an active schedule. */
  predicate Runs(table: Table, ops: seq<Operation>, n: nat, due: int)
    requires n < |ops|
  {
    match ops[n]
    case ClaimScheduled(_, _, oldNext, _) => oldNext == due && WinsAt(table, ops, n)
    case Replay(id, _, seen, read) => seen == due && read <= n && IsDue(Before(table, ops, read), id, due)
    case _ => false
  }

  predicate IsDue(table: Table, id: ScheduleId, due: int) {
    id in table && table[id].active && Matches(table[id].nextRun, due)
  }

  /** `claim_scheduled_scan` promises a single runner. Over every run, a due time that a claim won is
      run again exactly by the replays of instances that saw it before; one that was replayed is run
      again exactly by every further replay, and by every claim while it is still due. */
  lemma SecondRunExactly(table: Table, ops: seq<Operation>, i: nat, j: nat, due: int)
    requires i < j < |ops| && ClaimsMoveOn(table, ops) && ops[i].id == ops[j].id && Runs(table, ops, i, due)
    ensures Runs(table, ops, j, due) <==>
              if ops[j].Replay? then
                && ops[j].due == due && ops[j].read <= j && IsDue(Before(table, ops, ops[j].read), ops[j].id, due)
                && (ops[i].ClaimScheduled? ==> ops[j].read <= i)
              else
                && ops[i].Replay? && ops[j].ClaimScheduled? && ops[j].oldNext == due
                && IsDue(Before(table, ops, j), ops[j].id, due)
  {
    hide ClaimsMoveOn, Before;
    if ops[i].ClaimScheduled? {
      WonTimeIsPast(table, ops, i, j);
      if ops[j].Replay? && i < ops[j].read <= j {
        WonTimeIsPast(table, ops, i, ops[j].read);
      }
    }
  }

  /** So without replays the promise holds. */
  lemma SingleRunnerWithoutReplays(table: Table, ops: seq<Operation>, i: nat, j: nat, due: int)
    requires i < j < |ops| && ClaimsMoveOn(table, ops) && ops[i].id == ops[j].id
    requires Runs(table, ops, i, due) && Runs(table, ops, j, due)
    ensures ops[i].Replay? || ops[j].Replay?
  {
    SecondRunExactly(table, ops, i, j, due);
  }

  /** Two instances that start together both replay a missed schedule, and a claim wins it as well. */
  lemma StartingTogetherRunsThrice(id: ScheduleId, lastRun: Option<int>)
    ensures var table := map[id := Schedule(true, Some(5), lastRun)];
            var ops := [Replay(id, 10, 5, 0), Replay(id, 10, 5, 0), ClaimScheduled(id, 11, 5, None)];
            && ClaimsMoveOn(table, ops)
            && Runs(table, ops, 0, 5) && Runs(table, ops, 1, 5) && Runs(table, ops, 2, 5)
  {
    var table := map[id := Schedule(true, Some(5), lastRun)];
    var ops := [Replay(id, 10, 5, 0), Replay(id, 10, 5, 0), ClaimScheduled(id, 11, 5, None)];
    assert Before(table, ops, 0) == table;
    assert Before(table, ops, 1) == table;
    assert Before(table, ops, 2) == table;
  }

  // ---------------------------------------------------------------------------------
  // The due time and the status from the history of the operations
  // ---------------------------------------------------------------------------------

  /** The due time that was written last before operation `n`: the new one of a claim that won, or a
      time that was set. */
  function LastDue(table: Table, ops: seq<Operation>, id: ScheduleId, n: nat): Option<int>
    requires n <= |ops| && id in table
  {
    if n == 0 then table[id].nextRun
    else match ops[n - 1]
      case ClaimScheduled(target, _, oldNext, newNext) =>
        if target == id && LastStatus(table, ops, id, n - 1) && LastDue(table, ops, id, n - 1) == Some(oldNext)
        then newNext else LastDue(table, ops, id, n - 1)
      case SetNext(target, _, next) => if target == id then next else LastDue(table, ops, id, n - 1)
      case _ => LastDue(table, ops, id, n - 1)
  }

  /** Whether the schedule was last set active. */
  function LastStatus(table: Table, ops: seq<Operation>, id: ScheduleId, n: nat): bool
    requires n <= |ops| && id in table
  {
    if n == 0 then table[id].active
    else if ops[n - 1].SetActive? && ops[n - 1].id == id then ops[n - 1].active
    else LastStatus(table, ops, id, n - 1)
  }

  /** Over every run the due time in the row is the one written last, and the status is the one set
      last: manual claims, executions, replays and claims that lose leave both alone, and so do the
      operations of other schedules. A scheduled claim wins exactly on an active schedule whose due
      time written last is the one it expects. */
  lemma {:induction false} RowIsLastWritten(table: Table, ops: seq<Operation>, id: ScheduleId, n: nat)
    requires n <= |ops| && id in table
    ensures id in Before(table, ops, n)
    ensures Before(table, ops, n)[id].nextRun == LastDue(table, ops, id, n)
    ensures Before(table, ops, n)[id].active == LastStatus(table, ops, id, n)
    ensures n < |ops| && ops[n].ClaimScheduled? && ops[n].id == id ==>
              (WinsAt(table, ops, n) <==>
                 LastStatus(table, ops, id, n) && LastDue(table, ops, id, n) == Some(ops[n].oldNext))
  {
    if n > 0 {
      RowIsLastWritten(table, ops, id, n - 1);
    }
  }

  // ---------------------------------------------------------------------------------
  // Manual claims
  // ---------------------------------------------------------------------------------

  /** Operation `n` writes the stamp of its schedule: a claim that wins, or a restamp. */
  predicate StampsAt(table: Table, ops: seq<Operation>, n: nat)
    requires n < |ops|
  {
    WinsAt(table, ops, n) || (ops[n].Restamp? && ops[n].id in Before(table, ops, n))
  }

  /** The last operation before `n` that wrote the stamp of a schedule. */
  function LastStamp(table: Table, ops: seq<Operation>, id: ScheduleId, n: nat): (k: Option<nat>)
    requires n <= |ops|
    ensures k.Some? ==> k.value < n
  {
    if n == 0 then None
    else if ops[n - 1].id == id && StampsAt(table, ops, n - 1) then Some(n - 1)
    else LastStamp(table, ops, id, n - 1)
  }

  lemma {:induction false} LastStampIsLast(table: Table, ops: seq<Operation>, id: ScheduleId, i: nat, n: nat)
    requires i < n <= |ops| && ops[i].id == id && StampsAt(table, ops, i)
    ensures var k := LastStamp(table, ops, id, n);
            && k.Some? && i <= k.value && ops[k.value].id == id && StampsAt(table, ops, k.value)
            && forall m :: k.value < m < n && ops[m].id == id ==> !StampsAt(table, ops, m)
    decreases n
  {
    hide StampsAt;
    if !(ops[n - 1].id == id && StampsAt(table, ops, n - 1)) {
      LastStampIsLast(table, ops, id, i, n - 1);
    }
  }

  /** The stamp in the row is the last one written, whatever the clocks said. */
  lemma {:induction false} StampIsLastWritten(table: Table, ops: seq<Operation>, id: ScheduleId, n: nat)
    requires n <= |ops| && id in table
    ensures id in Before(table, ops, n)
    ensures var k := LastStamp(table, ops, id, n);
            Before(table, ops, n)[id].lastRun == if k.Some? then Some(ops[k.value].now) else table[id].lastRun
  {
    if n > 0 {
      StampIsLastWritten(table, ops, id, n - 1);
    }
  }

  lemma {:induction false} RowsRemain(table: Table, ops: seq<Operation>, id: ScheduleId, n: nat)
    requires n <= |ops|
    ensures id in Before(table, ops, n) <==> id in table
  {
    if n > 0 {
      RowsRemain(table, ops, id, n - 1);
    }
  }

  /** The documentation promises one winner. Over every run, with any clocks: after a win, a manual
      caller wins exactly when the schedule is active and its reading is the stamp written last,
      by a winner or by an execution. Two callers with one reading both win exactly when that stamp
      is the reading itself. */
  lemma ManualClaimWinsExactly(table: Table, ops: seq<Operation>, i: nat, j: nat)
    requires i < j < |ops| && ops[i].id == ops[j].id && WinsAt(table, ops, i) && ops[j].ClaimManual?
    ensures var (id, k) := (ops[j].id, LastStamp(table, ops, ops[j].id, j));
            && k.Some? && i <= k.value && ops[k.value].id == id && StampsAt(table, ops, k.value)
            && (forall m :: k.value < m < j && ops[m].id == id ==> !StampsAt(table, ops, m))
            && id in Before(table, ops, j)
            && (WinsAt(table, ops, j) <==>
                  Before(table, ops, j)[id].active && ops[j].oldLast == Some(ops[k.value].now))
  {
    var id := ops[j].id;
    RowsRemain(table, ops, id, i);
    LastStampIsLast(table, ops, id, i, j);
    StampIsLastWritten(table, ops, id, j);
  }

  // ---------------------------------------------------------------------------------
  // Manual claims behind the caller's cooldown
  // ---------------------------------------------------------------------------------

  const COOLDOWN_SECONDS := 60

  /** A caller that passed the cooldown stamps at least that much after its reading. */
  predicate CooledDown(op: Operation) {
    op.ClaimManual? && op.oldLast.Some? ==> op.now >= op.oldLast.value + COOLDOWN_SECONDS
  }

  /** An execution that is no replay is started by a claim of its schedule that won, and reads its
      clock after it. */
  predicate Executes(table: Table, ops: seq<Operation>, m: nat)
    requires m < |ops|
  {
    ops[m].Restamp? && ops[m].claim.Some? ==>
      var k := ops[m].claim.value;
      k < m && ops[k].id == ops[m].id && WinsAt(table, ops, k) && ops[k].now <= ops[m].now
  }

  /** What the service's callers and executions do to schedule `id` up to operation `n`. */
  ghost predicate Served(table: Table, ops: seq<Operation>, id: ScheduleId, n: nat)
    requires n <= |ops|
  {
    forall m :: 0 <= m < n && ops[m].id == id ==> CooledDown(ops[m]) && Executes(table, ops, m)
  }

  /** A stamp no later than the reading of claim `i`, by a scheduled claim, by an execution that was
      started before claim `i`, or by a replay. */
  predicate Culprit(table: Table, ops: seq<Operation>, i: nat, m: nat)
    requires i < |ops| && m < |ops| && ops[i].ClaimManual? && ops[i].oldLast.Some?
  {
    && ops[m].id == ops[i].id && ops[m].now <= ops[i].oldLast.value && StampsAt(table, ops, m)
    && (ops[m].ClaimScheduled? || (ops[m].Restamp? && (ops[m].claim.None? || ops[m].claim.value < i)))
  }

  /** Without one, every stamp written since claim `i` is after its reading. */
  lemma {:induction false} StampsPassReading(table: Table, ops: seq<Operation>, i: nat, j: nat, m: nat)
    requires i <= m < j <= |ops| && ops[i].ClaimManual? && ops[i].oldLast.Some? && WinsAt(table, ops, i)
    requires Served(table, ops, ops[i].id, j)
    requires forall k :: i < k < j ==> !Culprit(table, ops, i, k)
    requires ops[m].id == ops[i].id && StampsAt(table, ops, m)
    ensures ops[m].now > ops[i].oldLast.value
    decreases m
  {
    hide Before, LastStamp;
    assert CooledDown(ops[m]) && Executes(table, ops, m);
    if i < m {
      assert !Culprit(table, ops, i, m);
      if ops[m].Restamp? {
        var k := ops[m].claim;
        if k.Some? && k.value >= i {
          assert StampsAt(table, ops, k.value);
          StampsPassReading(table, ops, i, j, k.value);
        }
      } else if ops[m].ClaimManual? {
        ManualClaimWinsExactly(table, ops, i, m);
        StampsPassReading(table, ops, i, j, LastStamp(table, ops, ops[m].id, m).value);
      }
    }
  }

  /** Behind the cooldown, two callers with one reading both win only if in between a stamp no later
      than that reading was written: by a scheduled claim, whose clock is then at least a cooldown
      behind the first winner's; by an execution started before the first winner, which then took
      longer than the cooldown to start its scan; or by a replay, which took as long or whose clock
      lags. Callers that read no stamp never both win. */
  lemma CooldownGivesSingleWinner(table: Table, ops: seq<Operation>, i: nat, j: nat)
    requires i < j < |ops| && ops[i].ClaimManual? && ops[j].ClaimManual?
    requires ops[i].id == ops[j].id && ops[i].oldLast == ops[j].oldLast
    requires Served(table, ops, ops[i].id, j)
    requires WinsAt(table, ops, i) && WinsAt(table, ops, j)
    ensures ops[i].oldLast.Some? && ops[i].now >= ops[i].oldLast.value + COOLDOWN_SECONDS
    ensures exists m :: i < m < j && Culprit(table, ops, i, m)
  {
    hide Before;
    ManualClaimWinsExactly(table, ops, i, j);
    assert CooledDown(ops[i]);
    if forall m :: i < m < j ==> !Culprit(table, ops, i, m) {
      StampsPassReading(table, ops, i, j, LastStamp(table, ops, ops[j].id, j).value);
    }
  }

  /** A run with a lagging clock: after a manual win at 80 a scheduled claim stamps 10, and the
      reading 10 wins again. */
  lemma LaggingClockGivesTwoWinners(id: ScheduleId)
    ensures var table := map[id := Schedule(true, Some(5), Some(10))];
            var ops := [ClaimManual(id, 80, Some(10)), ClaimScheduled(id, 10, 5, Some(100)),
                        ClaimManual(id, 81, Some(10))];
            && WinsAt(table, ops, 0) && WinsAt(table, ops, 2) && ops[0].oldLast == ops[2].oldLast
            && Served(table, ops, id, 3)
  {
    var table := map[id := Schedule(true, Some(5), Some(10))];
    var ops := [ClaimManual(id, 80, Some(10)), ClaimScheduled(id, 10, 5, Some(100)), ClaimManual(id, 81, Some(10))];
    assert Before(table, ops, 1) == map[id := Schedule(true, Some(5), Some(80))];
    assert Before(table, ops, 2) == map[id := Schedule(true, Some(100), Some(10))];
  }

  /** A run with every clock right: a scheduled claim at 10 starts an execution that takes 70 seconds
      to start its scan. A manual caller wins at 80, the execution then restamps 10, and the reading
      10 wins again. */
  lemma SlowExecutionGivesTwoWinners(id: ScheduleId)
    ensures var table := map[id := Schedule(true, Some(5), None)];
            var ops := [ClaimScheduled(id, 10, 5, Some(100)), ClaimManual(id, 80, Some(10)), Restamp(id, 10, Some(0)),
                        ClaimManual(id, 81, Some(10))];
            && WinsAt(table, ops, 1) && WinsAt(table, ops, 3) && ops[1].oldLast == ops[3].oldLast
            && Served(table, ops, id, 4)
  {
    var table := map[id := Schedule(true, Some(5), None)];
    var ops := [ClaimScheduled(id, 10, 5, Some(100)), ClaimManual(id, 80, Some(10)), Restamp(id, 10, Some(0)),
                ClaimManual(id, 81, Some(10))];
    assert Before(table, ops, 1) == map[id := Schedule(true, Some(100), Some(10))];
    assert Before(table, ops, 2) == map[id := Schedule(true, Some(100), Some(80))];
    assert Before(table, ops, 3) == map[id := Schedule(true, Some(100), Some(10))];
  }

  /** A run with a replay: an instance that starts after the manual win at 80, with a clock that lags,
      replays the schedule and stamps 10, and the reading 10 wins again. No claim lies in between. */
  lemma ReplayGivesTwoWinners(id: ScheduleId)
    ensures var table := map[id := Schedule(true, Some(5), Some(10))];
            var ops := [ClaimManual(id, 80, Some(10)), Replay(id, 10, 5, 1), Restamp(id, 10, None),
                        ClaimManual(id, 81, Some(10))];
            && WinsAt(table, ops, 0) && WinsAt(table, ops, 3) && ops[0].oldLast == ops[3].oldLast
            && Served(table, ops, id, 4) && Runs(table, ops, 1, 5)
  {
    var table := map[id := Schedule(true, Some(5), Some(10))];
    var ops := [ClaimManual(id, 80, Some(10)), Replay(id, 10, 5, 1), Restamp(id, 10, None),
                ClaimManual(id, 81, Some(10))];
    assert Before(table, ops, 1) == map[id := Schedule(true, Some(5), Some(80))];
    assert Before(table, ops, 2) == map[id := Schedule(true, Some(5), Some(80))];
    assert Before(table, ops, 3) == map[id := Schedule(true, Some(5), Some(10))];
  }

  // ---------------------------------------------------------------------------------
  // Manual claims under one clock
  // ---------------------------------------------------------------------------------

  /** Stamps follow the order of the statements, and none lies in the future. */
  ghost predicate OneClock(table: Table, ops: seq<Operation>) {
    && (forall i, j :: 0 <= i <= j < |ops| ==> ops[i].now <= ops[j].now)
    && (forall id, i :: id in table && table[id].lastRun.Some? && 0 <= i < |ops| ==>
          table[id].lastRun.value <= ops[i].now)
  }

  /** If stamps are in order, and without the cooldown, a second caller with the same reading wins
      exactly when the schedule is active and every stamp written since is the reading. */
  lemma SecondWinUnderOneClock(table: Table, ops: seq<Operation>, i: nat, j: nat)
    requires i < j < |ops| && OneClock(table, ops) && ops[i].ClaimManual? && ops[j].ClaimManual?
    requires ops[i].id == ops[j].id && ops[i].oldLast == ops[j].oldLast && WinsAt(table, ops, i)
    ensures ops[j].id in Before(table, ops, j)
    ensures WinsAt(table, ops, j) <==>
              && Before(table, ops, j)[ops[j].id].active
              && forall m :: i <= m < j && ops[m].id == ops[i].id && StampsAt(table, ops, m) ==>
                   ops[i].oldLast == Some(ops[m].now)
  {
    assert StampsAt(table, ops, i);
    hide WinsAt, StampsAt;
    ManualClaimWinsExactly(table, ops, i, j);
    var id, k := ops[j].id, LastStamp(table, ops, ops[j].id, j).value;
    ReadingIsPast(table, ops, i);
    forall m | i <= m < j && ops[m].id == id && StampsAt(table, ops, m)
      ensures ops[i].now <= ops[m].now <= ops[k].now
    {
    }
  }

  /** A reading that wins is no later than its winner's stamp. */
  lemma ReadingIsPast(table: Table, ops: seq<Operation>, i: nat)
    requires i < |ops| && OneClock(table, ops) && ops[i].ClaimManual? && WinsAt(table, ops, i)
    ensures ops[i].oldLast.Some? ==> ops[i].oldLast.value <= ops[i].now
  {
    RowsRemain(table, ops, ops[i].id, i);
    StampIsLastWritten(table, ops, ops[i].id, i);
  }

  // ---------------------------------------------------------------------------------
  // The methods of the source
  // ---------------------------------------------------------------------------------

  datatype Triggered = Won | Lost | CoolingDown

  class ScheduleStore {
    var rows: Table

    constructor (rows: Table)
      ensures this.rows == rows
    {
      this.rows := rows;
    }

    method ClaimScheduledScan(id: ScheduleId, oldNext: int, newNext: Option<int>, now: int) returns (claimed: bool)
      modifies this
      ensures claimed <==> id in old(rows) && old(rows)[id].active && old(rows)[id].nextRun == Some(oldNext)
      ensures rows == if claimed then old(rows)[id := Schedule(true, newNext, Some(now))] else old(rows)
      ensures var claim := ClaimScheduled(id, now, oldNext, newNext);
              claimed == Wins(old(rows), claim) && rows == Apply(old(rows), claim)
    {
      var updated := 0;
      if id in rows && rows[id].active && rows[id].nextRun == Some(oldNext) {
        rows := rows[id := rows[id].(nextRun := newNext, lastRun := Some(now))];
        updated := 1;
      }
      return updated > 0;
    }

    method ClaimManualTrigger(id: ScheduleId, oldLast: Option<int>, now: int) returns (claimed: bool)
      modifies this
      ensures claimed <==> id in old(rows) && old(rows)[id].active && old(rows)[id].lastRun == oldLast
      ensures rows == if claimed then old(rows)[id := Schedule(true, old(rows)[id].nextRun, Some(now))] else old(rows)
      ensures var claim := ClaimManual(id, now, oldLast);
              claimed == Wins(old(rows), claim) && rows == Apply(old(rows), claim)
    {
      var updated := 0;
      if oldLast.None? {
        if id in rows && rows[id].active && rows[id].lastRun.None? {
          rows := rows[id := rows[id].(lastRun := Some(now))];
          updated := 1;
        }
      } else if id in rows && rows[id].active && rows[id].lastRun == oldLast {
        rows := rows[id := rows[id].(lastRun := Some(now))];
        updated := 1;
      }
      return updated > 0;
    }

    /** The caller's part of `trigger`: the cooldown over the reading, then the claim. `checked` is
        its clock at the cooldown and `stamp` the one the claim reads later. */
    method Trigger(id: ScheduleId, reading: Option<int>, checked: int, stamp: int) returns (r: Triggered)
      requires checked <= stamp
      modifies this
      ensures r == CoolingDown <==> reading.Some? && checked - reading.value < 60
      ensures r == CoolingDown ==> rows == old(rows)
      ensures r != CoolingDown ==>
                var claim := ClaimManual(id, stamp, reading);
                && (reading.Some? ==> stamp - reading.value >= 60) && CooledDown(claim)
                && (r == Won <==> Wins(old(rows), claim)) && rows == Apply(old(rows), claim)
    {
      if reading.Some? && checked - reading.value < COOLDOWN_SECONDS {
        return CoolingDown;
      }
      var claimed := ClaimManualTrigger(id, reading, stamp);
      r := if claimed then Won else Lost;
    }

    /** The write of `_execute_schedule` once its scan has started: it does not look at the row. */
    method UpdateLastRun(id: ScheduleId, now: int, ghost claim: Option<nat>)
      modifies this
      ensures rows.Keys == old(rows).Keys
      ensures forall other :: other in rows ==>
                var r := old(rows)[other];
                rows[other] == if other == id then Schedule(r.active, r.nextRun, Some(now)) else r
      ensures rows == Apply(old(rows), Restamp(id, now, claim))
    {
      if id in rows {
        rows := rows[id := rows[id].(lastRun := Some(now))];
      }
    }
  }
}
