/**
 Retention of schedule executions: `cleanup_old_executions` of backend/async_persistence.py.

 ROW_NUMBER ranks the rows of each schedule newest first and breaks ties as the database
 pleases, so a ranking is a parameter: any listing of the rows of each schedule in that order.
 */
module Retention {
  import opened Common

  type ScheduleId = string

  datatype Execution = Execution(schedule: ScheduleId, startedAt: int)
  type Table = map<int, Execution>
  type Ranking = map<ScheduleId, seq<int>>

  function RowsOf(table: Table, s: ScheduleId): set<int> {
    set id | id in table && table[id].schedule == s
  }

  /** A possible result of the window function. */
  ghost predicate Ranks(ranking: Ranking, table: Table) {
    && (forall id :: id in table ==> table[id].schedule in ranking)
    && (forall s :: s in ranking ==>
          && Distinct(ranking[s])
          && (forall i :: 0 <= i < |ranking[s]| ==> ranking[s][i] in RowsOf(table, s))
          && (forall id :: id in RowsOf(table, s) ==> id in ranking[s])
          && (forall i, j :: 0 <= i <= j < |ranking[s]| ==>
                table[ranking[s][i]].startedAt >= table[ranking[s][j]].startedAt))
  }

  /** The row number of `id` is at most `minKeep`. */
  predicate RankedWithin(ranking: Ranking, s: ScheduleId, id: int, minKeep: nat) {
    s in ranking && id in (if minKeep <= |ranking[s]| then ranking[s][..minKeep] else ranking[s])
  }

  /** The DELETE spares recent rows and the newest `minKeep` of each schedule. */
  predicate Spared(table: Table, ranking: Ranking, cutoff: int, minKeep: nat, id: int)
    requires id in table
  {
    table[id].startedAt >= cutoff || RankedWithin(ranking, table[id].schedule, id, minKeep)
  }

  function Cleanup(table: Table, ranking: Ranking, cutoff: int, minKeep: nat): Table {
    map id | id in table && Spared(table, ranking, cutoff, minKeep, id) :: table[id]
  }

  function RecentRows(table: Table, s: ScheduleId, cutoff: int): set<int> {
    set id | id in RowsOf(table, s) && table[id].startedAt >= cutoff
  }

  // ---------------------------------------------------------------------------------
  // Counting
  // ---------------------------------------------------------------------------------

  function Elements(xs: seq<int>): set<int> {
    set x | x in xs
  }

  lemma {:induction false} DistinctCount(xs: seq<int>)
    requires Distinct(xs)
    ensures |Elements(xs)| == |xs|
  {
    if xs != [] {
      var n := |xs| - 1;
      DistinctCount(xs[..n]);
      assert xs[n] !in xs[..n];
      assert Elements(xs) == Elements(xs[..n]) + {xs[n]};
    }
  }

  /** How many rows at the head of a ranking are recent. */
  function RecentHead(table: Table, ranked: seq<int>, cutoff: int): (n: nat)
    requires forall i :: 0 <= i < |ranked| ==> ranked[i] in table
    ensures n <= |ranked|
  {
    if ranked == [] then 0
    else if table[ranked[|ranked| - 1]].startedAt >= cutoff then |ranked|
    else RecentHead(table, ranked[..|ranked| - 1], cutoff)
  }

  lemma {:induction false} RecentHeadSplits(table: Table, ranked: seq<int>, cutoff: int)
    requires forall i :: 0 <= i < |ranked| ==> ranked[i] in table
    requires forall i, j :: 0 <= i <= j < |ranked| ==> table[ranked[i]].startedAt >= table[ranked[j]].startedAt
    ensures forall i :: 0 <= i < |ranked| ==>
              (table[ranked[i]].startedAt >= cutoff <==> i < RecentHead(table, ranked, cutoff))
  {
    if ranked != [] && table[ranked[|ranked| - 1]].startedAt < cutoff {
      RecentHeadSplits(table, ranked[..|ranked| - 1], cutoff);
    }
  }

  /** The number of rows of a schedule that a cleanup leaves. */
  function KeepCount(table: Table, s: ScheduleId, cutoff: int, minKeep: nat): nat {
    Larger(|RecentRows(table, s, cutoff)|, Smaller(|RowsOf(table, s)|, minKeep))
  }

  lemma HeadIsRecent(table: Table, ranking: Ranking, s: ScheduleId, cutoff: int)
    requires Ranks(ranking, table) && s in ranking
    ensures |ranking[s]| == |RowsOf(table, s)|
    ensures RecentHead(table, ranking[s], cutoff) == |RecentRows(table, s, cutoff)|
    ensures forall i :: 0 <= i < |ranking[s]| ==>
              (table[ranking[s][i]].startedAt >= cutoff <==> i < |RecentRows(table, s, cutoff)|)
  {
    RankedRows(table, ranking, s);
    SortedRows(table, ranking, s);
    hide Ranks;
    var ranked := ranking[s];
    RecentHeadSplits(table, ranked, cutoff);
    var n := RecentHead(table, ranked, cutoff);
    DistinctCount(ranked);
    DistinctCount(ranked[..n]);
    forall id
      ensures id in Elements(ranked) <==> id in RowsOf(table, s)
    {
    }
    assert Elements(ranked) == RowsOf(table, s);
    forall id
      ensures id in Elements(ranked[..n]) <==> id in RecentRows(table, s, cutoff)
    {
      if id in ranked {
        var i :| 0 <= i < |ranked| && ranked[i] == id;
        HeadMembership(ranked, i, n);
      }
    }
    assert Elements(ranked[..n]) == RecentRows(table, s, cutoff);
  }

  lemma SortedRows(table: Table, ranking: Ranking, s: ScheduleId)
    requires Ranks(ranking, table) && s in ranking
    ensures forall i :: 0 <= i < |ranking[s]| ==> ranking[s][i] in table
    ensures forall i, j :: 0 <= i <= j < |ranking[s]| ==>
              table[ranking[s][i]].startedAt >= table[ranking[s][j]].startedAt
  {
  }

  lemma HeadMembership(xs: seq<int>, i: nat, k: nat)
    requires Distinct(xs) && i < |xs|
    ensures xs[i] in (if k <= |xs| then xs[..k] else xs) <==> i < k
  {
    if i < k <= |xs| {
      assert xs[..k][i] == xs[i];
    }
  }

  /** Whatever the tie order, a cleanup keeps of each schedule exactly the head of the ranking of
      length `max(recent, min(total, min_keep))`; the rest is older than the cutoff. */
  lemma CleanupKeepsHead(table: Table, ranking: Ranking, cutoff: int, minKeep: nat, s: ScheduleId)
    requires Ranks(ranking, table) && s in ranking
    ensures var total := |set id | id in table && table[id].schedule == s|;
            var recent := |set id | id in table && table[id].schedule == s && table[id].startedAt >= cutoff|;
            var least := if total <= minKeep then total else minKeep;
            KeepCount(table, s, cutoff, minKeep) == if recent >= least then recent else least
    ensures var kept := KeepCount(table, s, cutoff, minKeep);
            && kept <= |ranking[s]|
            && RowsOf(Cleanup(table, ranking, cutoff, minKeep), s) == Elements(ranking[s][..kept])
            && |RowsOf(Cleanup(table, ranking, cutoff, minKeep), s)| == kept
            && forall i :: kept <= i < |ranking[s]| ==> table[ranking[s][i]].startedAt < cutoff
  {
    KeepCountIsLarger(table, s, cutoff, minKeep);
    hide RecentRows, Cleanup, Ranks, RowsOf;
    var ranked, kept := ranking[s], KeepCount(table, s, cutoff, minKeep);
    HeadIsRecent(table, ranking, s, cutoff);
    RankedRows(table, ranking, s);
    DistinctCount(ranked[..kept]);
    var left := RowsOf(Cleanup(table, ranking, cutoff, minKeep), s);
    LeftWereRows(table, ranking, cutoff, minKeep, s);
    forall id
      ensures id in left <==> id in Elements(ranked[..kept])
    {
      if id in ranked {
        var i :| 0 <= i < |ranked| && ranked[i] == id;
        LeftExactlyInHead(table, ranking, cutoff, minKeep, s, i);
        HeadMembership(ranked, i, kept);
      }
    }
    assert left == Elements(ranked[..kept]);
  }

  lemma KeepCountIsLarger(table: Table, s: ScheduleId, cutoff: int, minKeep: nat)
    ensures var total := |set id | id in table && table[id].schedule == s|;
            var recent := |set id | id in table && table[id].schedule == s && table[id].startedAt >= cutoff|;
            var least := if total <= minKeep then total else minKeep;
            KeepCount(table, s, cutoff, minKeep) == if recent >= least then recent else least
  {
    var recent := set id | id in table && table[id].schedule == s && table[id].startedAt >= cutoff;
    assert forall id :: id in RowsOf(table, s) <==> id in table && table[id].schedule == s;
    assert forall id :: id in RecentRows(table, s, cutoff) <==> id in recent;
    assert RecentRows(table, s, cutoff) == recent;
  }

  lemma RankedRows(table: Table, ranking: Ranking, s: ScheduleId)
    requires Ranks(ranking, table) && s in ranking
    ensures Distinct(ranking[s]) && forall id :: id in ranking[s] <==> id in RowsOf(table, s)
    ensures forall i :: 0 <= i < |ranking[s]| ==> ranking[s][i] in table
  {
  }

  lemma LeftWereRows(table: Table, ranking: Ranking, cutoff: int, minKeep: nat, s: ScheduleId)
    ensures RowsOf(Cleanup(table, ranking, cutoff, minKeep), s) <= RowsOf(table, s)
  {
  }

  lemma LeftExactlyInHead(table: Table, ranking: Ranking, cutoff: int, minKeep: nat, s: ScheduleId, i: nat)
    requires Ranks(ranking, table) && s in ranking && i < |ranking[s]|
    ensures ranking[s][i] in RowsOf(Cleanup(table, ranking, cutoff, minKeep), s)
            <==> i < KeepCount(table, s, cutoff, minKeep)
  {
    hide RecentRows;
    HeadIsRecent(table, ranking, s, cutoff);
    HeadMembership(ranking[s], i, minKeep);
    assert ranking[s][i] in RowsOf(table, s);
  }

  /** Rows of schedules are only ever deleted, and never changed. */
  lemma CleanupOnlyDeletes(table: Table, ranking: Ranking, cutoff: int, minKeep: nat)
    ensures forall id :: id in Cleanup(table, ranking, cutoff, minKeep) ==>
              id in table && Cleanup(table, ranking, cutoff, minKeep)[id] == table[id]
  {
  }

  /** A second cleanup with the same cutoff deletes nothing, even if the ties fall differently. */
  lemma CleanupIsIdempotent(table: Table, ranking: Ranking, again: Ranking, cutoff: int, minKeep: nat)
    requires Ranks(ranking, table) && Ranks(again, Cleanup(table, ranking, cutoff, minKeep))
    ensures Cleanup(Cleanup(table, ranking, cutoff, minKeep), again, cutoff, minKeep)
            == Cleanup(table, ranking, cutoff, minKeep)
  {
    var left := Cleanup(table, ranking, cutoff, minKeep);
    forall id | id in left
      ensures Spared(left, again, cutoff, minKeep, id)
    {
      var s := table[id].schedule;
      CleanupKeepsHead(table, ranking, cutoff, minKeep, s);
      HeadIsRecent(left, again, s, cutoff);
      SameRecent(table, ranking, cutoff, minKeep, s);
      assert id in RowsOf(left, s);
      var i :| 0 <= i < |again[s]| && again[s][i] == id;
      HeadMembership(again[s], i, minKeep);
    }
  }

  lemma SameRecent(table: Table, ranking: Ranking, cutoff: int, minKeep: nat, s: ScheduleId)
    ensures RecentRows(Cleanup(table, ranking, cutoff, minKeep), s, cutoff) == RecentRows(table, s, cutoff)
  {
    var left := Cleanup(table, ranking, cutoff, minKeep);
    assert forall id :: id in RecentRows(table, s, cutoff) ==> id in left;
    assert forall id :: id in RecentRows(left, s, cutoff) <==> id in RecentRows(table, s, cutoff);
  }

  // ---------------------------------------------------------------------------------
  // The method of the source
  // ---------------------------------------------------------------------------------

  class ExecutionStore {
    var rows: Table

    constructor (rows: Table)
      ensures this.rows == rows
    {
      this.rows := rows;
    }

    method CleanupOldExecutions(ranking: Ranking, cutoff: int, minKeep: nat) returns (deleted: nat)
      requires Ranks(ranking, rows)
      modifies this
      ensures rows == Cleanup(old(rows), ranking, cutoff, minKeep)
      ensures deleted == |old(rows).Keys - rows.Keys|
    {
      hide Spared, Ranks;
      var doomed := set id | id in rows && !Spared(rows, ranking, cutoff, minKeep, id);
      deleted := |doomed|;
      rows := map id | id in rows && id !in doomed :: rows[id];
      assert rows == Cleanup(old(rows), ranking, cutoff, minKeep);
      assert doomed == old(rows).Keys - rows.Keys;
    }
  }
}
