/**
 The migration runner `_apply_migrations` of backend/async_persistence.py, run by any number
 of instances that may start, stop and crash at any point, during a rolling deploy in which
 older instances know fewer migrations than newer ones.

 A migration is its version. What its statements do to the schema is left out; a transaction
 either commits the migration together with its version or does nothing.
 */
module Migrations {
  import opened Common

  /** Where an instance is. `current` is the version it read; `next` is the index of the next
      migration in its loop. */
  datatype Place =
    | Outside                                 // not running, crashed, or failed
    | Waiting                                 // asking for the advisory lock
    | Locked                                  // holds the lock, has not read the version
    | Read(current: int)
    | Looping(current: int, next: nat)        // between transactions
    | Migrating(current: int, next: nat)      // inside the transaction of migration `next`
    | Unlocking
    | Refusing                                // the database is newer than the application
    | Finished
  {
    predicate HoldsLock() {
      Locked? || Read? || Looping? || Migrating? || Unlocking? || Refusing?
    }
  }

  /** `version` is the row of `schema_version`, if there is one; `committed` is every migration
      ever committed. */
  datatype System = System(
    version: Option<int>, committed: seq<int>, holder: Option<int>, places: map<int, Place>)

  ghost predicate Ascending(versions: seq<int>) {
    forall i, j :: 0 <= i < j < |versions| ==> versions[i] < versions[j]
  }

  /** All migrations there are, and how many of them each instance knows. */
  datatype Deployment = Deployment(all: seq<int>, known: map<int, nat>) {
    ghost predicate Valid() {
      && (forall i :: 0 <= i < |all| ==> all[i] > 0)
      && Ascending(all)
      && (forall id :: id in known ==> known[id] <= |all|)
    }

    /** `_MIGRATIONS[-1][0]`, or zero. */
    function Max(id: int): int
      requires id in known && known[id] <= |all|
    {
      if known[id] == 0 then 0 else all[known[id] - 1]
    }
  }

  /** One step of one instance. `Crash` is the end of its session at any point, by a crash or by
      a statement that raises: the lock is freed and an open transaction is rolled back. */
  datatype Step = Start(id: int) | Advance(id: int) | Crash(id: int)

  function At(s: System, id: int): Place {
    if id in s.places then s.places[id] else Outside
  }

  function Move(s: System, id: int, p: Place): System {
    s.(places := s.places[id := p])
  }

  /** The next step of a running instance; a blocked or finished one stays where it is. */
  function Run(d: Deployment, s: System, id: int): System
    requires id in d.known && d.known[id] <= |d.all|
  {
    match At(s, id)
    case Outside => s
    case Finished => s
    case Waiting => if s.holder.None? then Move(s, id, Locked).(holder := Some(id)) else s
    case Locked =>
      if s.version.None? then Move(s, id, Read(0)).(version := Some(0)) else Move(s, id, Read(s.version.value))
    case Read(current) =>
      if current > d.Max(id) then Move(s, id, Refusing)
      else if current >= d.Max(id) then Move(s, id, Unlocking)
      else Move(s, id, Looping(current, 0))
    case Looping(current, next) =>
      if next >= d.known[id] then Move(s, id, Unlocking)
      else if d.all[next] <= current then Move(s, id, Looping(current, next + 1))
      else Move(s, id, Migrating(current, next))
    case Migrating(current, next) =>
      if next >= |d.all| then s
      else Move(s, id, Looping(current, next + 1))
           .(version := if s.version.Some? then Some(d.all[next]) else None, committed := s.committed + [d.all[next]])
    case Unlocking => Move(s, id, Finished).(holder := None)
    case Refusing => Move(s, id, Outside).(holder := None)
  }

  function Take(d: Deployment, s: System, step: Step): System
    requires step.id in d.known && d.known[step.id] <= |d.all|
  {
    match step
    case Start(id) => if At(s, id).HoldsLock() then s else Move(s, id, Waiting)
    case Advance(id) => Run(d, s, id)
    case Crash(id) => Move(s, id, Outside).(holder := if s.holder == Some(id) then None else s.holder)
  }

  function TakeAll(d: Deployment, s: System, steps: seq<Step>): System
    requires forall i :: 0 <= i < |steps| ==> steps[i].id in d.known && d.known[steps[i].id] <= |d.all|
  {
    if steps == [] then s else Take(d, TakeAll(d, s, steps[..|steps| - 1]), steps[|steps| - 1])
  }

  // ---------------------------------------------------------------------------------
  // The invariant
  // ---------------------------------------------------------------------------------

  /** How many of the migrations a version covers. */
  function Covered(all: seq<int>, v: int): (n: nat)
    ensures n <= |all|
  {
    if all == [] then 0
    else if all[|all| - 1] <= v then |all|
    else Covered(all[..|all| - 1], v)
  }

  lemma {:induction false} CoveredSplits(all: seq<int>, v: int)
    requires Ascending(all)
    ensures Covered(all, v) <= |all|
    ensures forall i :: 0 <= i < |all| ==> (all[i] <= v <==> i < Covered(all, v))
  {
    if all != [] && all[|all| - 1] > v {
      CoveredSplits(all[..|all| - 1], v);
    }
  }

  /** What the lock holder knows about the database. */
  ghost predicate HolderSees(d: Deployment, s: System, id: int)
    requires id in d.known
  {
    match At(s, id)
    case Read(current) => s.version == Some(current)
    case Looping(current, next) =>
      && s.version.Some? && next <= d.known[id]
      && |s.committed| == Larger(Covered(d.all, current), next)
    case Migrating(current, next) =>
      && s.version.Some? && next < d.known[id]
      && Covered(d.all, current) <= next == |s.committed|
    case Unlocking => d.known[id] <= |s.committed|
    case _ => true
  }

  /** The committed migrations are a prefix of all of them in order; the version covers exactly
      those, and is the last of them or the version the database started with. */
  ghost predicate DataInvariant(d: Deployment, initial: Option<int>, s: System) {
    && s.committed <= d.all
    && (s.version.None? ==> initial.None? && s.committed == [])
    && (s.version.Some? ==>
          && Covered(d.all, s.version.value) == |s.committed|
          && (s.version == initial || (initial.None? && s.version.value == 0)
              || (s.committed != [] && s.version.value == s.committed[|s.committed| - 1])))
  }

  /** One instance at most is inside, and a finished one has left nothing it knows undone. */
  ghost predicate ControlInvariant(d: Deployment, s: System) {
    && (forall id :: At(s, id).HoldsLock() <==> s.holder == Some(id))
    && (forall id :: id in d.known && s.holder == Some(id) ==> HolderSees(d, s, id))
    && (forall id :: id in d.known && At(s, id) == Finished ==> d.known[id] <= |s.committed|)
  }

  ghost predicate Invariant(d: Deployment, initial: Option<int>, s: System) {
    DataInvariant(d, initial, s) && ControlInvariant(d, s)
  }

  /** A database with no row, or with some version and the migrations it covers; nobody running. */
  ghost predicate Initially(d: Deployment, initial: Option<int>, s: System) {
    && s.version == initial && s.holder.None? && s.places == map[]
    && s.committed == d.all[..if initial.None? then 0 else Covered(d.all, initial.value)]
  }

  lemma InvariantHoldsInitially(d: Deployment, initial: Option<int>, s: System)
    requires d.Valid() && Initially(d, initial, s)
    ensures Invariant(d, initial, s)
  {
    if initial.Some? {
      CoveredSplits(d.all, initial.value);
    }
  }

  /** A move of one instance that leaves the data alone. */
  lemma QuietMoveKeepsInvariant(d: Deployment, initial: Option<int>, s: System, s': System, id: int)
    requires Invariant(d, initial, s) && id in d.known
    requires s'.version == s.version && s'.committed == s.committed && s'.places == s.places[id := At(s', id)]
    requires if At(s', id).HoldsLock() then s'.holder == Some(id) && (s.holder == Some(id) || s.holder == None)
             else s'.holder == if s.holder == Some(id) then None else s.holder
    requires At(s', id).HoldsLock() ==> HolderSees(d, s', id)
    requires At(s', id) == Finished ==> d.known[id] <= |s.committed|
    ensures Invariant(d, initial, s')
  {
    hide Covered;
    assert forall other :: other != id ==> At(s', other) == At(s, other);
    assert DataInvariant(d, initial, s');
    forall other | other in d.known && s'.holder == Some(other)
      ensures HolderSees(d, s', other)
    {
      if other != id {
        assert HolderSees(d, s, other);
      }
    }
    assert forall other :: At(s', other).HoldsLock() <==> s'.holder == Some(other);
    forall other | other in d.known && At(s', other) == Finished
      ensures d.known[other] <= |s'.committed|
    {
      assert other != id ==> At(s, other) == Finished;
    }
  }

  lemma CommitKeepsInvariant(d: Deployment, initial: Option<int>, s: System, id: int)
    requires d.Valid() && Invariant(d, initial, s) && id in d.known && At(s, id).Migrating?
    ensures Invariant(d, initial, Run(d, s, id)) && s.committed <= Run(d, s, id).committed
  {
    hide Covered;
    var s', next := Run(d, s, id), At(s, id).next;
    assert forall other :: other != id ==> At(s', other) == At(s, other);
    assert s'.committed == d.all[..next + 1];
    CoveredSplits(d.all, d.all[next]);
    assert next + 1 < |d.all| ==> d.all[next] < d.all[next + 1];
    CoveredSplits(d.all, At(s, id).current);
    assert Covered(d.all, d.all[next]) == next + 1;
    assert DataInvariant(d, initial, s') && HolderSees(d, s', id);
    assert forall other :: At(s', other).HoldsLock() <==> s'.holder == Some(other);
    forall other | other in d.known && At(s', other) == Finished
      ensures d.known[other] <= |s'.committed|
    {
      assert other != id ==> At(s, other) == Finished;
    }
  }

  lemma InsertKeepsInvariant(d: Deployment, initial: Option<int>, s: System, id: int)
    requires d.Valid() && Invariant(d, initial, s) && id in d.known && At(s, id).Locked? && s.version.None?
    ensures Invariant(d, initial, Run(d, s, id)) && s.committed <= Run(d, s, id).committed
  {
    hide Covered;
    var s' := Run(d, s, id);
    assert forall other :: other != id ==> At(s', other) == At(s, other);
    CoveredSplits(d.all, 0);
    assert d.all != [] ==> d.all[0] > 0;
    assert Covered(d.all, 0) == 0 && At(s', id) == Read(0);
    assert DataInvariant(d, initial, s') && HolderSees(d, s', id);
    assert forall other :: At(s', other).HoldsLock() <==> s'.holder == Some(other);
    forall other | other in d.known && At(s', other) == Finished
      ensures d.known[other] <= |s'.committed|
    {
      assert other != id ==> At(s, other) == Finished;
    }
  }

  lemma StepKeepsInvariant(d: Deployment, initial: Option<int>, s: System, step: Step)
    requires d.Valid() && Invariant(d, initial, s) && step.id in d.known
    ensures Invariant(d, initial, Take(d, s, step))
    ensures s.committed <= Take(d, s, step).committed
  {
    hide Covered, Invariant;
    var id := step.id;
    if step.Advance? && At(s, id).Migrating? {
      CommitKeepsInvariant(d, initial, s, id);
    } else if step.Advance? && At(s, id).Locked? && s.version.None? {
      InsertKeepsInvariant(d, initial, s, id);
    } else if Take(d, s, step) != s {
      if step.Advance? {
        SeesAfterRun(d, initial, s, id);
      }
      HolderIsHere(d, initial, s, id);
      QuietMoveKeepsInvariant(d, initial, s, Take(d, s, step), id);
    }
  }

  lemma HolderIsHere(d: Deployment, initial: Option<int>, s: System, id: int)
    requires Invariant(d, initial, s)
    ensures At(s, id).HoldsLock() <==> s.holder == Some(id)
  {
  }

  lemma SeesAfterRun(d: Deployment, initial: Option<int>, s: System, id: int)
    requires d.Valid() && Invariant(d, initial, s) && id in d.known
    requires !At(s, id).Migrating? && !(At(s, id).Locked? && s.version.None?)
    ensures At(Run(d, s, id), id).HoldsLock() ==> HolderSees(d, Run(d, s, id), id)
    ensures At(Run(d, s, id), id) == Finished ==> d.known[id] <= |s.committed|
  {
    hide Covered;
    match At(s, id)
    case Read(current) => CoveredSplits(d.all, current);
    case Looping(current, next) => CoveredSplits(d.all, current);
    case _ =>
  }

  /** Over every interleaving, with crashes and restarts anywhere. */
  lemma {:induction false} InvariantAlways(d: Deployment, initial: Option<int>, s: System, steps: seq<Step>)
    requires d.Valid() && Initially(d, initial, s)
    requires forall i :: 0 <= i < |steps| ==> steps[i].id in d.known
    ensures Invariant(d, initial, TakeAll(d, s, steps))
    ensures s.committed <= TakeAll(d, s, steps).committed
  {
    hide Invariant, Take;
    if steps == [] {
      InvariantHoldsInitially(d, initial, s);
    } else {
      var n := |steps| - 1;
      InvariantAlways(d, initial, s, steps[..n]);
      StepKeepsInvariant(d, initial, TakeAll(d, s, steps[..n]), steps[n]);
    }
  }

  /** What is committed is an in-order, repeat-free prefix of the migrations, and the version is
      that of the last one (or the starting version while nothing was added to it). */
  lemma CommittedIsPrefix(d: Deployment, initial: Option<int>, s: System, steps: seq<Step>)
    requires d.Valid() && Initially(d, initial, s)
    requires forall i :: 0 <= i < |steps| ==> steps[i].id in d.known
    ensures var s' := TakeAll(d, s, steps);
            && s'.committed <= d.all
            && (|s'.committed| > |s.committed| ==> s'.version == Some(s'.committed[|s'.committed| - 1]))
            && (|s'.committed| == |s.committed| ==>
                  s'.version == initial || (initial.None? && s'.version == Some(0))
                  || (s.committed != [] && s'.version == Some(s.committed[|s.committed| - 1])))
            && (forall a, b :: At(s', a).HoldsLock() && At(s', b).HoldsLock() ==> a == b)
  {
    hide TakeAll, Invariant;
    InvariantAlways(d, initial, s, steps);
    VersionNamesLast(d, initial, s, TakeAll(d, s, steps));
    OneHolder(d, initial, TakeAll(d, s, steps));
  }

  lemma OneHolder(d: Deployment, initial: Option<int>, s: System)
    requires Invariant(d, initial, s)
    ensures s.committed <= d.all && forall a, b :: At(s, a).HoldsLock() && At(s, b).HoldsLock() ==> a == b
  {
    hide Covered, HolderSees;
  }

  lemma VersionNamesLast(d: Deployment, initial: Option<int>, s: System, s': System)
    requires d.Valid() && Initially(d, initial, s) && Invariant(d, initial, s') && s.committed <= s'.committed
    ensures |s'.committed| > |s.committed| ==> s'.version == Some(s'.committed[|s'.committed| - 1])
    ensures |s'.committed| == |s.committed| ==>
              s'.version == initial || (initial.None? && s'.version == Some(0))
              || (s.committed != [] && s'.version == Some(s.committed[|s.committed| - 1]))
  {
    hide ControlInvariant;
    if initial.Some? {
      CoveredSplits(d.all, initial.value);
    }
    CoveredSplits(d.all, 0);
  }

  /** An instance that has finished left every migration it knows committed, and a version at
      least its own maximum. */
  lemma FinishedIsUpToDate(d: Deployment, initial: Option<int>, s: System, steps: seq<Step>, id: int)
    requires d.Valid() && Initially(d, initial, s) && id in d.known
    requires forall i :: 0 <= i < |steps| ==> steps[i].id in d.known
    requires At(TakeAll(d, s, steps), id) == Finished
    ensures var s' := TakeAll(d, s, steps);
            && d.all[..d.known[id]] <= s'.committed
            && (d.known[id] > 0 ==> s'.version.Some? && s'.version.value >= d.Max(id))
  {
    InvariantAlways(d, initial, s, steps);
    var s' := TakeAll(d, s, steps);
    if s'.version.Some? {
      CoveredSplits(d.all, s'.version.value);
    }
  }

  /** If every instance knows all migrations and the database did not start beyond them, a
      finished instance leaves exactly the maximum version, and nobody is ever refused. */
  lemma UniformDeploymentReachesMax(d: Deployment, initial: Option<int>, s: System, steps: seq<Step>, id: int)
    requires d.Valid() && Initially(d, initial, s) && d.all != []
    requires initial.Some? ==> initial.value <= d.all[|d.all| - 1]
    requires forall other :: other in d.known ==> d.known[other] == |d.all|
    requires (forall i :: 0 <= i < |steps| ==> steps[i].id in d.known) && id in d.known
    ensures At(TakeAll(d, s, steps), id) != Refusing
    ensures At(TakeAll(d, s, steps), id) == Finished ==>
              TakeAll(d, s, steps).version == Some(d.all[|d.all| - 1]) && TakeAll(d, s, steps).committed == d.all
  {
    hide TakeAll;
    UniformNeverRefuses(d, initial, s, steps, id);
    InvariantAlways(d, initial, s, steps);
    var s' := TakeAll(d, s, steps);
    SameMaximum(d, initial, s', id);
    if s'.version.Some? {
      CoveredSplits(d.all, s'.version.value);
    }
  }

  lemma {:induction false} UniformNeverRefuses(
    d: Deployment, initial: Option<int>, s: System, steps: seq<Step>, id: int)
    requires d.Valid() && Initially(d, initial, s) && d.all != []
    requires initial.Some? ==> initial.value <= d.all[|d.all| - 1]
    requires forall other :: other in d.known ==> d.known[other] == |d.all|
    requires (forall i :: 0 <= i < |steps| ==> steps[i].id in d.known) && id in d.known
    ensures At(TakeAll(d, s, steps), id) != Refusing
  {
    hide Invariant, Take, Covered;
    if steps != [] {
      var n := |steps| - 1;
      UniformNeverRefuses(d, initial, s, steps[..n], id);
      InvariantAlways(d, initial, s, steps[..n]);
      SameMaximum(d, initial, TakeAll(d, s, steps[..n]), id);
      NoRefusalBelowMaximum(d, initial, TakeAll(d, s, steps[..n]), steps[n], id);
    }
  }

  lemma SameMaximum(d: Deployment, initial: Option<int>, s: System, id: int)
    requires d.Valid() && Invariant(d, initial, s) && d.all != [] && id in d.known && d.known[id] == |d.all|
    requires initial.Some? ==> initial.value <= d.all[|d.all| - 1]
    ensures s.version.Some? ==> s.version.value <= d.Max(id)
  {
    hide Covered;
  }

  lemma NoRefusalBelowMaximum(d: Deployment, initial: Option<int>, s: System, step: Step, id: int)
    requires Invariant(d, initial, s) && id in d.known && d.known[id] <= |d.all| && At(s, id) != Refusing
    requires s.version.Some? ==> s.version.value <= d.Max(id)
    requires step.id in d.known && d.known[step.id] <= |d.all|
    ensures At(Take(d, s, step), id) != Refusing
  {
    hide Covered;
  }

  // ---------------------------------------------------------------------------------
  // An instance that is left alone
  // ---------------------------------------------------------------------------------

  /** The version a database counts as having. */
  function Current(s: System): int {
    if s.version.Some? then s.version.value else 0
  }

  /** The data are those of a database the instance found and left as it was, but for the row. */
  predicate Untouched(found: System, s: System) {
    s.version == Some(Current(found)) && s.committed == found.committed
  }

  /** How far an instance that runs alone is, from the database it found. */
  ghost predicate Underway(d: Deployment, found: System, s: System, id: int)
    requires id in d.known && d.known[id] <= |d.all|
  {
    var current := Current(found);
    match At(s, id)
    case Waiting => s.holder.None? && s.version == found.version && s.committed == found.committed
    case Locked => s.holder == Some(id) && s.version == found.version && s.committed == found.committed
    case Read(read) => s.holder == Some(id) && read == current && Untouched(found, s)
    case Looping(read, next) =>
      && s.holder == Some(id) && read == current < d.Max(id) && next <= d.known[id]
      && s.committed == d.all[..Larger(Covered(d.all, current), next)]
      && s.version == Some(if next <= Covered(d.all, current) then current else d.all[next - 1])
    case Migrating(read, next) =>
      && s.holder == Some(id) && read == current < d.Max(id)
      && Covered(d.all, current) <= next < d.known[id] && s.committed == d.all[..next] && s.version.Some?
    case Unlocking => s.holder == Some(id) && current <= d.Max(id) && UpToDate(d, found, s, id)
    case Finished => s.holder == None && current <= d.Max(id) && UpToDate(d, found, s, id)
    case Refusing => s.holder == Some(id) && current > d.Max(id) && Untouched(found, s)
    case Outside => s.holder == None && current > d.Max(id) && Untouched(found, s)
  }

  predicate UpToDate(d: Deployment, found: System, s: System, id: int)
    requires id in d.known && d.known[id] <= |d.all|
  {
    s.committed == d.all[..d.known[id]] && s.version == Some(if d.known[id] == 0 then Current(found) else d.Max(id))
  }

  /** Steps still to take. */
  function Togo(known: nat, p: Place): int {
    match p
    case Waiting => 2 * known + 6
    case Locked => 2 * known + 5
    case Read(_) => 2 * known + 4
    case Looping(_, next) => 2 * (known - next) + 3
    case Migrating(_, next) => 2 * (known - next) + 2
    case Unlocking => 1
    case Refusing => 1
    case Finished => 0
    case Outside => 0
  }

  lemma RunsOn(d: Deployment, initial: Option<int>, found: System, s: System, id: int)
    requires d.Valid() && id in d.known && Invariant(d, initial, found) && Underway(d, found, s, id)
    ensures Underway(d, found, Run(d, s, id), id)
    ensures !At(s, id).Finished? && !At(s, id).Outside? ==>
              0 <= Togo(d.known[id], At(Run(d, s, id), id)) < Togo(d.known[id], At(s, id))
  {
    FoundIsCovered(d, initial, found);
    hide Covered, Invariant;
    match At(s, id)
    case Read(_) => ReadsOn(d, found, s, id);
    case Looping(_, _) => LoopsOn(d, found, s, id);
    case Migrating(_, _) => MigratesOn(d, found, s, id);
    case _ =>
  }

  /** The version of the database tells what is committed. */
  ghost predicate Tells(d: Deployment, found: System) {
    && found.committed == d.all[..Covered(d.all, Current(found))]
    && (forall i :: 0 <= i < |d.all| ==> (d.all[i] <= Current(found) <==> i < Covered(d.all, Current(found))))
  }

  lemma ReadsOn(d: Deployment, found: System, s: System, id: int)
    requires d.Valid() && id in d.known && Tells(d, found) && Underway(d, found, s, id) && At(s, id).Read?
    ensures Underway(d, found, Run(d, s, id), id)
    ensures 0 <= Togo(d.known[id], At(Run(d, s, id), id)) < Togo(d.known[id], At(s, id))
  {
    hide Covered;
    var (current, covered, known) := (Current(found), Covered(d.all, Current(found)), d.known[id]);
    assert known > 0 ==> (d.all[known - 1] <= current <==> known - 1 < covered);
    assert 0 < known < |d.all| ==> d.all[known - 1] < d.all[known];
    assert d.all != [] ==> d.all[0] > 0;
    assert current == d.Max(id) ==> covered == known;
  }

  lemma LoopsOn(d: Deployment, found: System, s: System, id: int)
    requires d.Valid() && id in d.known && Tells(d, found) && Underway(d, found, s, id) && At(s, id).Looping?
    ensures Underway(d, found, Run(d, s, id), id)
    ensures 0 <= Togo(d.known[id], At(Run(d, s, id), id)) < Togo(d.known[id], At(s, id))
  {
    hide Covered;
    var (covered, known) := (Covered(d.all, Current(found)), d.known[id]);
    assert d.all != [] ==> d.all[0] > 0;
    assert known > 0 ==> covered < known;
    assert known == 0 ==> covered == 0;
  }

  lemma MigratesOn(d: Deployment, found: System, s: System, id: int)
    requires d.Valid() && id in d.known && Tells(d, found) && Underway(d, found, s, id) && At(s, id).Migrating?
    ensures Underway(d, found, Run(d, s, id), id)
    ensures 0 <= Togo(d.known[id], At(Run(d, s, id), id)) < Togo(d.known[id], At(s, id))
  {
    hide Covered;
    var next := At(s, id).next;
    assert d.all[..next] + [d.all[next]] == d.all[..next + 1];
  }

  lemma FoundIsCovered(d: Deployment, initial: Option<int>, found: System)
    requires d.Valid() && Invariant(d, initial, found)
    ensures Tells(d, found)
  {
    CoveredSplits(d.all, Current(found));
    CoveredSplits(d.all, 0);
    hide ControlInvariant, Covered;
    assert d.all != [] ==> d.all[0] > 0;
    assert Covered(d.all, 0) == 0;
    assert found.committed == d.all[..|found.committed|];
  }

  /** The promise of the runner. From every state that any interleaving, with any crashes, can reach with
      the lock free, an instance that starts and is left alone comes to an end and frees the lock. If the
      database is not newer than the instance, all it knows is then committed, and nothing more, and the
      version is its maximum; otherwise it has raised and changed nothing. */
  lemma LeftAloneItFinishes(d: Deployment, initial: Option<int>, s: System, steps: seq<Step>, id: int)
    returns (alone: seq<Step>)
    requires d.Valid() && Initially(d, initial, s) && id in d.known
    requires forall i :: 0 <= i < |steps| ==> steps[i].id in d.known
    requires TakeAll(d, s, steps).holder.None?
    ensures |alone| > 0 && alone[0] == Start(id) && forall i :: 0 < i < |alone| ==> alone[i] == Advance(id)
    ensures var (found, end) := (TakeAll(d, s, steps), TakeAll(d, TakeAll(d, s, steps), alone));
            var current := if found.version.Some? then found.version.value else 0;
            && end.holder.None?
            && if current <= d.Max(id)
               then && At(end, id) == Finished && end.committed == d.all[..d.known[id]]
                    && end.version == Some(if d.known[id] == 0 then current else d.all[d.known[id] - 1])
               else At(end, id) == Outside && end.committed == found.committed && end.version == Some(current)
  {
    InvariantAlways(d, initial, s, steps);
    ghost var found := TakeAll(d, s, steps);
    NobodyInside(d, initial, found, id);
    hide Invariant, Run, Underway, Initially;
    alone := [Start(id)];
    ghost var now := Move(found, id, Waiting);
    Begins(d, found, id);
    while !At(now, id).Finished? && !At(now, id).Outside?
      invariant |alone| > 0 && alone[0] == Start(id) && forall i :: 0 < i < |alone| ==> alone[i] == Advance(id)
      invariant now == TakeAll(d, found, alone) && Underway(d, found, now, id)
      decreases Togo(d.known[id], At(now, id))
    {
      RunsOn(d, initial, found, now, id);
      assert (alone + [Advance(id)])[..|alone|] == alone;
      alone := alone + [Advance(id)];
      now := Run(d, now, id);
    }
    AtTheEnd(d, found, now, id);
  }

  /** If the instance that holds the lock crashes, wherever it is, the lock is free and nothing it
      committed is lost or half done, so any instance that starts then, the crashed one included, does
      the rest. */
  lemma CrashedRunnerIsReplaced(d: Deployment, initial: Option<int>, s: System, steps: seq<Step>, dead: int, id: int)
    returns (alone: seq<Step>)
    requires d.Valid() && Initially(d, initial, s) && id in d.known && dead in d.known
    requires forall i :: 0 <= i < |steps| ==> steps[i].id in d.known
    requires TakeAll(d, s, steps).holder == Some(dead) && Current(TakeAll(d, s, steps)) <= d.Max(id)
    ensures var (found, crashed) := (TakeAll(d, s, steps), TakeAll(d, s, steps + [Crash(dead)]));
            && crashed.committed == found.committed && crashed.version == found.version && crashed.holder.None?
            && (forall i :: 0 <= i < |alone| ==> alone[i] == Start(id) || alone[i] == Advance(id))
            && TakeAll(d, crashed, alone).committed == d.all[..d.known[id]]
            && At(TakeAll(d, crashed, alone), id) == Finished
  {
    assert (steps + [Crash(dead)])[..|steps|] == steps;
    alone := LeftAloneItFinishes(d, initial, s, steps + [Crash(dead)], id);
  }

  lemma NobodyInside(d: Deployment, initial: Option<int>, s: System, id: int)
    requires Invariant(d, initial, s) && s.holder.None?
    ensures !At(s, id).HoldsLock()
  {
    hide Covered;
  }

  lemma Begins(d: Deployment, found: System, id: int)
    requires id in d.known && d.known[id] <= |d.all| && !At(found, id).HoldsLock() && found.holder.None?
    ensures TakeAll(d, found, [Start(id)]) == Move(found, id, Waiting)
    ensures Underway(d, found, Move(found, id, Waiting), id)
  {
    assert [Start(id)][..0] == [];
  }

  lemma AtTheEnd(d: Deployment, found: System, s: System, id: int)
    requires id in d.known && d.known[id] <= |d.all| && Underway(d, found, s, id)
    requires At(s, id).Finished? || At(s, id).Outside?
    ensures s.holder.None?
    ensures if Current(found) <= d.Max(id) then At(s, id) == Finished && UpToDate(d, found, s, id)
            else At(s, id) == Outside && Untouched(found, s)
  {
  }

  // ---------------------------------------------------------------------------------
  // One uninterrupted run
  // ---------------------------------------------------------------------------------

  /** What the loop has committed before turn `i`, when the first `covered` migrations were. */
  function Done(migrations: seq<int>, covered: nat, i: nat): seq<int>
    requires i <= |migrations|
  {
    if i <= covered then [] else migrations[covered..i]
  }

  /** The version then. */
  function Level(migrations: seq<int>, current: int, covered: nat, i: nat): int
    requires i <= |migrations|
  {
    if i <= covered then current else migrations[i - 1]
  }

  lemma LoopTurn(migrations: seq<int>, current: int, i: nat)
    requires Ascending(migrations) && i < |migrations|
    ensures var covered := Covered(migrations, current);
            && (migrations[i] <= current ==>
                  && Done(migrations, covered, i + 1) == Done(migrations, covered, i)
                  && Level(migrations, current, covered, i + 1) == Level(migrations, current, covered, i))
            && (migrations[i] > current ==>
                  && Done(migrations, covered, i + 1) == Done(migrations, covered, i) + [migrations[i]]
                  && Level(migrations, current, covered, i + 1) == migrations[i])
  {
    CoveredSplits(migrations, current);
    hide Covered;
    var covered := Covered(migrations, current);
    if migrations[i] > current {
      assert migrations[covered..i] + [migrations[i]] == migrations[covered..i + 1];
      assert i == covered ==> migrations[covered..i + 1] == [migrations[i]];
    }
  }

  lemma LoopEnd(migrations: seq<int>, current: int)
    requires Ascending(migrations)
    ensures var (covered, n) := (Covered(migrations, current), |migrations|);
            && Done(migrations, covered, n) == migrations[covered..]
            && (n > 0 && current < migrations[n - 1] ==> Level(migrations, current, covered, n) == migrations[n - 1])
            && (n == 0 || current >= migrations[n - 1] ==> covered == n)
  {
    CoveredSplits(migrations, current);
  }

  class Schema {
    var version: Option<int>
    var committed: seq<int>

    constructor (version: Option<int>, committed: seq<int>)
      ensures this.version == version && this.committed == committed
    {
      this.version, this.committed := version, committed;
    }

    /** The part of `_apply_migrations` under the lock. `false` is the RuntimeError. */
    method ApplyMigrations(migrations: seq<int>) returns (ok: bool)
      requires Ascending(migrations) && forall i :: 0 <= i < |migrations| ==> migrations[i] > 0
      modifies this
      ensures var current := if old(version).None? then 0 else old(version).value;
              var max := if migrations == [] then 0 else migrations[|migrations| - 1];
              && ok == (current <= max)
              && (ok ==> version == Some(if migrations == [] then current else max)
                         && committed == old(committed) + migrations[Covered(migrations, current)..])
              && (!ok ==> version == Some(current) && committed == old(committed))
    {
      hide Covered;
      var current;
      if version.None? {
        version := Some(0);
        current := 0;
      } else {
        current := version.value;
      }
      LoopEnd(migrations, current);
      var max := if migrations != [] then migrations[|migrations| - 1] else 0;
      if current > max {
        return false;
      }
      if current < max {
        ApplyNewer(migrations, current);
      }
      return true;
    }

    /** The loop over all migrations, which skips those up to the current version. */
    method ApplyNewer(migrations: seq<int>, current: int)
      requires Ascending(migrations) && version == Some(current)
      modifies this
      ensures var covered := Covered(migrations, current);
              && version == Some(Level(migrations, current, covered, |migrations|))
              && committed == old(committed) + Done(migrations, covered, |migrations|)
    {
      hide Covered, Done, Level, Ascending;
      ghost var covered := Covered(migrations, current);
      LoopStart(migrations, current, covered);
      for i := 0 to |migrations|
        invariant version == Some(Level(migrations, current, covered, i))
        invariant committed == old(committed) + Done(migrations, covered, i)
      {
        LoopTurn(migrations, current, i);
        if migrations[i] <= current {
          continue;
        }
        committed := committed + [migrations[i]];
        version := Some(migrations[i]);
      }
    }
  }

  lemma LoopStart(migrations: seq<int>, current: int, covered: nat)
    ensures Done(migrations, covered, 0) == [] && Level(migrations, current, covered, 0) == current
  {
  }
}
