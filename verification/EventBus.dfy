/**
 The event bus of backend/event_bus.py: a bounded drop-oldest queue and a replay ring for
 every run, and tombstones for cleaned runs.

 An event is a payload and the number of its fields, which is all its size estimate uses.
 `drain` suspends between looking its queue up and taking from it, so it is two methods, and
 a run of the bus is any sequence of calls.
 */
module EventBus {
  import opened Common

  const MAX_RING_EVENTS := 500
  const MAX_RING_BYTES := 2 * 1024 * 1024
  const MAX_CLEANED_IDS := 1000
  const MAX_QUEUE_SIZE := 1000
  const RING_BYTES_OVERHEAD := 64
  const RING_BYTES_PER_FIELD := 32

  type RunId = string

  /** `EventsDropped` is the marker `emit` logs when it drops an event. */
  datatype Event = Event(payload: int, fields: nat) | EventsDropped(run: RunId)
  datatype Item = Live(event: Event) | Poison

  function SizeOf(e: Event): nat {
    RING_BYTES_OVERHEAD + RING_BYTES_PER_FIELD * match e case Event(_, fields) => fields case EventsDropped(_) => 2
  }

  // ---------------------------------------------------------------------------------
  // The replay window
  // ---------------------------------------------------------------------------------

  function Bytes(log: seq<Event>): nat {
    if log == [] then 0 else SizeOf(log[0]) + Bytes(log[1..])
  }

  predicate Fits(log: seq<Event>) {
    |log| <= MAX_RING_EVENTS && Bytes(log) <= MAX_RING_BYTES
  }

  /** The longest suffix that fits; `WindowIsLongest` shows it is. */
  function Window(log: seq<Event>): seq<Event> {
    if Fits(log) then log else Window(log[1..])
  }

  lemma {:induction false} BytesOfSuffix(log: seq<Event>, n: nat)
    requires n <= |log|
    ensures Bytes(log[n..]) <= Bytes(log)
  {
    if n > 0 {
      BytesOfSuffix(log[1..], n - 1);
      assert log[1..][n - 1..] == log[n..];
    }
  }

  lemma {:induction false} BytesSnoc(log: seq<Event>, e: Event)
    ensures Bytes(log + [e]) == Bytes(log) + SizeOf(e)
  {
    if log == [] {
      assert log + [e] == [e] && [e][1..] == [];
    } else {
      BytesSnoc(log[1..], e);
      assert (log + [e])[1..] == log[1..] + [e];
    }
  }

  /** The window is a suffix that fits, and every suffix that fits is a suffix of it. */
  lemma {:induction false} WindowIsLongest(log: seq<Event>)
    ensures |Window(log)| <= |log| && Window(log) == log[|log| - |Window(log)|..]
    ensures |Window(log)| <= 500 && Bytes(Window(log)) <= 2097152
    ensures forall n :: 0 <= n <= |log| && |log| - n <= 500 && Bytes(log[n..]) <= 2097152 ==> |log| - n <= |Window(log)|
  {
    if !Fits(log) {
      WindowIsLongest(log[1..]);
      forall n | 0 <= n <= |log| && |log| - n <= 500 && Bytes(log[n..]) <= 2097152
        ensures |log| - n <= |Window(log)|
      {
        assert log[0..] == log;
        assert log[1..][n - 1..] == log[n..];
      }
    }
  }

  /** The size estimate of a log: 64 for every event and 32 for every field; a marker has two. */
  lemma {:induction false} BytesAddUp(log: seq<Event>)
    ensures Bytes(log) == 64 * |log| + 32 * Fields(log)
  {
    if log != [] {
      BytesAddUp(log[1..]);
    }
  }

  function Fields(log: seq<Event>): nat {
    if log == [] then 0 else Fields(log[1..]) + if log[0].Event? then log[0].fields else 2
  }

  /** Trimming as events arrive gives the same window as trimming the whole log. */
  lemma {:induction false} WindowIsIncremental(log: seq<Event>, e: Event)
    ensures Window(Window(log) + [e]) == Window(log + [e])
  {
    if !Fits(log) {
      WindowIsIncremental(log[1..], e);
      BytesSnoc(log, e);
      assert (log + [e])[1..] == log[1..] + [e];
    }
  }

  /** `get_snapshot` may run on another thread, and the lock it takes does not cover the ring: it
      can see the ring after the append and before the last pop. It then sees a suffix of the log
      that exceeds each cap by at most the new event. */
  lemma TornSnapshot(log: seq<Event>, e: Event, popped: nat)
    requires popped <= |Window(log) + [e]| - |Window(log + [e])|
    ensures var seen := (Window(log) + [e])[popped..];
            && |seen| <= |log| + 1 && seen == (log + [e])[|log| + 1 - |seen|..]
            && |Window(log + [e])| <= |seen| <= 501 && Bytes(seen) <= 2097152 + SizeOf(e)
  {
    hide Window, Bytes;
    WindowIsLongest(log);
    var ring := Window(log) + [e];
    BytesSnoc(Window(log), e);
    BytesOfSuffix(ring, popped);
    assert ring == (log + [e])[|log| + 1 - |ring|..];
  }

  // ---------------------------------------------------------------------------------
  // Tombstones
  // ---------------------------------------------------------------------------------

  /** `_cleaned[run] = None` and the FIFO eviction: an id already present keeps its position. */
  function Tombstone(cleaned: seq<RunId>, run: RunId): seq<RunId> {
    var marked := if run in cleaned then cleaned else cleaned + [run];
    if |marked| > MAX_CLEANED_IDS then marked[1..] else marked
  }

  function LastIds(ids: seq<RunId>): seq<RunId> {
    if |ids| <= MAX_CLEANED_IDS then ids else ids[|ids| - MAX_CLEANED_IDS..]
  }

  /** `inserted` lists every time an id was newly tombstoned. */
  lemma TombstonesAreLastInsertions(inserted: seq<RunId>, run: RunId)
    requires Distinct(LastIds(inserted))
    ensures Tombstone(LastIds(inserted), run)
            == LastIds(if run in LastIds(inserted) then inserted else inserted + [run])
    ensures Distinct(Tombstone(LastIds(inserted), run)) && run in Tombstone(LastIds(inserted), run)
  {
    var cleaned := LastIds(inserted);
    if run !in cleaned {
      var marked := Tombstone(cleaned, run);
      assert marked[|marked| - 1] == run;
    }
  }

  /** An id stays tombstoned through exactly the next 999 insertions. */
  lemma TombstoneLifetime(inserted: seq<RunId>, p: nat)
    requires p < |inserted| && Distinct(LastIds(inserted))
    requires forall i :: p < i < |inserted| ==> inserted[i] != inserted[p]
    ensures inserted[p] in LastIds(inserted) <==> |inserted| - 1 - p < 1000
  {
    var kept := LastIds(inserted);
    var offset := |inserted| - |kept|;
    if p >= offset {
      assert kept[p - offset] == inserted[p];
    }
  }

  // ---------------------------------------------------------------------------------
  // Runs of the bus
  // ---------------------------------------------------------------------------------

  function Pushed(items: seq<Item>, item: Item): seq<Item> {
    (if |items| >= MAX_QUEUE_SIZE then items[1..] else items) + [item]
  }

  /** What waits for each live run, everything logged for it, and the tombstones. */
  datatype State = State(queues: map<RunId, seq<Item>>, logs: map<RunId, seq<Event>>, cleaned: seq<RunId>) {
    function Items(run: RunId): seq<Item> {
      if run in queues then queues[run] else []
    }

    function Log(run: RunId): seq<Event> {
      if run in logs then logs[run] else []
    }
  }

  /** What an emit logs: the event, and in marking mode a marker if it drops an older one. */
  function Entries(run: RunId, e: Event, mark: bool, items: seq<Item>): seq<Event> {
    [e] + if mark && |items| == MAX_QUEUE_SIZE then [EventsDropped(run)] else []
  }

  /** `Take` is the second half of a drain of a live run. */
  datatype Call =
    | Emit(run: RunId, event: Event, mark: bool)
    | OpenDrain(run: RunId)
    | Take(run: RunId)
    | Cleanup(run: RunId)

  function Step(s: State, call: Call): State {
    match call
    case Emit(run, e, mark) =>
      if run in s.cleaned then s
      else
        s.(queues := s.queues[run := Pushed(s.Items(run), Live(e))],
           logs := s.logs[run := s.Log(run) + Entries(run, e, mark, s.Items(run))])
    case OpenDrain(run) =>
      if run in s.cleaned then s else s.(queues := s.queues[run := s.Items(run)])
    case Take(run) =>
      if s.Items(run) == [] then s else s.(queues := s.queues[run := s.Items(run)[1..]])
    case Cleanup(run) => State(s.queues - {run}, s.logs - {run}, Tombstone(s.cleaned, run))
  }

  function Run(s: State, calls: seq<Call>): State {
    if calls == [] then s else Step(Run(s, calls[..|calls| - 1]), calls[|calls| - 1])
  }

  /** The ids that a run of calls newly tombstones. */
  function Inserted(s: State, calls: seq<Call>): seq<RunId> {
    if calls == [] then []
    else
      var before, call := calls[..|calls| - 1], calls[|calls| - 1];
      Inserted(s, before)
      + if call.Cleanup? && call.run !in Run(s, before).cleaned then [call.run] else []
  }

  /** The tombstones are the last insertions, and no tombstoned run is live. */
  ghost predicate Sane(s: State, inserted: seq<RunId>) {
    && s.cleaned == LastIds(inserted) && Distinct(s.cleaned) && s.logs.Keys <= s.queues.Keys
    && forall run :: run in s.cleaned ==> run !in s.queues
  }

  lemma StepKeepsSane(s: State, inserted: seq<RunId>, call: Call)
    requires Sane(s, inserted)
    ensures Sane(Step(s, call), inserted + if call.Cleanup? && call.run !in s.cleaned then [call.run] else [])
  {
    hide LastIds, Pushed;
    assert inserted + [] == inserted;
    if call.Cleanup? {
      TombstonesAreLastInsertions(inserted, call.run);
      hide Distinct;
      assert forall id :: id in Tombstone(s.cleaned, call.run) ==> id == call.run || id in s.cleaned;
    }
  }

  /** Nothing waits or is logged for the run, emits change nothing, and new drains are turned away. */
  ghost predicate Silent(s: State, run: RunId) {
    && run in s.cleaned && run !in s.queues && run !in s.logs
    && (forall e, mark :: Step(s, Emit(run, e, mark)) == s)
    && Step(s, OpenDrain(run)) == s
  }

  lemma {:induction false} TombstoneHistory(s: State, inserted: seq<RunId>, run: RunId, calls: seq<Call>)
    requires Sane(s, inserted) && run !in s.cleaned
    ensures var (s', new') := (Step(s, Cleanup(run)), Inserted(Step(s, Cleanup(run)), calls));
            && Sane(Run(s', calls), inserted + [run] + new')
            && (|new'| < MAX_CLEANED_IDS || Cleanup(run) !in calls ==>
                  run !in new' && (run in Run(s', calls).cleaned <==> |new'| < MAX_CLEANED_IDS))
  {
    hide Sane, Step, LastIds, Distinct;
    var s' := Step(s, Cleanup(run));
    if calls == [] {
      StepKeepsSane(s, inserted, Cleanup(run));
      assert inserted + [run] + [] == inserted + [run];
    } else {
      var n := |calls| - 1;
      TombstoneHistory(s, inserted, run, calls[..n]);
      StepKeepsSane(Run(s', calls[..n]), inserted + [run] + Inserted(s', calls[..n]), calls[n]);
      assert inserted + [run] + Inserted(s', calls)
          == inserted + [run] + Inserted(s', calls[..n]) + Inserted(s', calls)[|Inserted(s', calls[..n])|..];
    }
    Lifetime(Run(s', calls), inserted, run, Inserted(s', calls));
  }

  /** `TombstoneLifetime` for an id inserted before `newer`. */
  lemma Lifetime(s: State, inserted: seq<RunId>, run: RunId, newer: seq<RunId>)
    requires Sane(s, inserted + [run] + newer)
    ensures run !in newer ==> (run in s.cleaned <==> |newer| < MAX_CLEANED_IDS)
  {
    hide LastIds, Distinct;
    if run !in newer {
      var all := inserted + [run] + newer;
      forall i | |inserted| < i < |all|
        ensures all[i] != run
      {
        assert all[i] == newer[i - |inserted| - 1];
      }
      TombstoneLifetime(all, |inserted|);
    }
  }

  /** Over any calls after the cleanup of a run: it stays silent while fewer than 1000 ids have been
      tombstoned since, and, unless it is cleaned up again, exactly that long. */
  lemma CleanedRunIsSilent(s: State, inserted: seq<RunId>, run: RunId, calls: seq<Call>)
    requires Sane(s, inserted) && run !in s.cleaned
    ensures var (s', since) := (Step(s, Cleanup(run)), |Inserted(Step(s, Cleanup(run)), calls)|);
            && (since < 1000 ==> Silent(Run(s', calls), run))
            && (Cleanup(run) !in calls ==> (Silent(Run(s', calls), run) <==> since < 1000))
  {
    hide LastIds, Distinct, Run, Inserted;
    TombstoneHistory(s, inserted, run, calls);
  }

  // ---------------------------------------------------------------------------------
  // The books of a run
  // ---------------------------------------------------------------------------------

  /** The events emitted for a run. */
  function Emitted(calls: seq<Call>, run: RunId): seq<Event> {
    if calls == [] then []
    else
      var call := calls[|calls| - 1];
      Emitted(calls[..|calls| - 1], run) + if call.Emit? && call.run == run then [call.event] else []
  }

  /** How many of them the consumer took: the takes that found something waiting. */
  function Taken(s: State, calls: seq<Call>, run: RunId): nat {
    if calls == [] then 0
    else
      var before, call := calls[..|calls| - 1], calls[|calls| - 1];
      Taken(s, before, run) + if call == Take(run) && Run(s, before).Items(run) != [] then 1 else 0
  }

  /** How many were dropped: the emits that found a thousand items waiting. Only those in marking mode
      count if `marking`. */
  function Drops(s: State, calls: seq<Call>, run: RunId, marking: bool): nat {
    if calls == [] then 0
    else
      var before, call := calls[..|calls| - 1], calls[|calls| - 1];
      Drops(s, before, run, marking)
      + if call.Emit? && call.run == run && (marking ==> call.mark) && |Run(s, before).Items(run)| == 1000 then 1 else 0
  }

  /** What a run's log holds: every event as it was emitted, and behind it, in marking mode, a marker if
      a thousand items were waiting. */
  function Marked(s: State, calls: seq<Call>, run: RunId): seq<Event> {
    if calls == [] then []
    else
      var before, call := calls[..|calls| - 1], calls[|calls| - 1];
      Marked(s, before, run)
      + if !call.Emit? || call.run != run then []
        else if call.mark && |Run(s, before).Items(run)| == 1000 then [call.event, EventsDropped(run)]
        else [call.event]
  }

  ghost predicate Spared(calls: seq<Call>, run: RunId) {
    Cleanup(run) !in calls
  }

  ghost predicate LastOf(waiting: seq<Item>, emitted: seq<Event>) {
    && |waiting| <= |emitted|
    && forall i :: 0 <= i < |waiting| ==> waiting[i] == Live(emitted[|emitted| - |waiting| + i])
  }

  lemma LastOfMoves(waiting: seq<Item>, emitted: seq<Event>, e: Event)
    requires LastOf(waiting, emitted)
    ensures LastOf(waiting + [Live(e)], emitted + [e])
    ensures waiting != [] ==> LastOf(waiting[1..], emitted) && LastOf(waiting[1..] + [Live(e)], emitted + [e])
  {
  }

  lemma NothingWaits()
    ensures LastOf([], [])
  {
  }

  /** Over any calls for a run that is new and is not cleaned up: what waits are the last of the events
      emitted, in order and a thousand at most; what was taken, was dropped and waits adds up to what
      was emitted; and the log is what was emitted with one marker for each drop in marking mode. The
      calls of other runs change none of it. */
  lemma {:induction false} BooksBalance(s: State, calls: seq<Call>, run: RunId)
    requires run !in s.queues && run !in s.logs && run !in s.cleaned && Spared(calls, run)
    ensures var (t, emitted) := (Run(s, calls), Emitted(calls, run));
            var waiting := t.Items(run);
            && run !in t.cleaned && |waiting| <= 1000
            && |emitted| == Taken(s, calls, run) + Drops(s, calls, run, false) + |waiting|
            && LastOf(waiting, emitted)
            && t.Log(run) == Marked(s, calls, run)
            && |t.Log(run)| == |emitted| + Drops(s, calls, run, true)
  {
    hide Step, LastOf;
    if calls == [] {
      NothingWaits();
    } else {
      var n := |calls| - 1;
      assert Spared(calls[..n], run);
      BooksBalance(s, calls[..n], run);
      assert calls[n] != Cleanup(run);
      if calls[n].run == run {
        OwnCall(Run(s, calls[..n]), calls[n], run);
        OwnBooks(s, calls, run);
        hide *;
        var (call, before) := (calls[n], Run(s, calls[..n]));
        LastOfMoves(before.Items(run), Emitted(calls[..n], run), if call.Emit? then call.event else EventsDropped(run));
        assert Emitted(calls[..n], run) + [] == Emitted(calls[..n], run);
      } else {
        ForeignCall(Run(s, calls[..n]), calls[n], run);
        NoBooks(s, calls, run);
      }
    }
  }

  lemma NoBooks(s: State, calls: seq<Call>, run: RunId)
    requires calls != [] && calls[|calls| - 1].run != run
    ensures var before := calls[..|calls| - 1];
            && Emitted(calls, run) == Emitted(before, run) && Taken(s, calls, run) == Taken(s, before, run)
            && (forall marking :: Drops(s, calls, run, marking) == Drops(s, before, run, marking))
            && Marked(s, calls, run) == Marked(s, before, run)
  {
    hide Run;
  }

  lemma OwnBooks(s: State, calls: seq<Call>, run: RunId)
    requires calls != [] && calls[|calls| - 1].run == run
    ensures var (before, call) := (calls[..|calls| - 1], calls[|calls| - 1]);
            var (items, emit) := (Run(s, before).Items(run), call.Emit?);
            var full := emit && |items| == 1000;
            && Run(s, calls) == Step(Run(s, before), call)
            && Emitted(calls, run) == Emitted(before, run) + (if emit then [call.event] else [])
            && Taken(s, calls, run) == Taken(s, before, run) + (if call.Take? && items != [] then 1 else 0)
            && Drops(s, calls, run, false) == Drops(s, before, run, false) + (if full then 1 else 0)
            && Drops(s, calls, run, true) == Drops(s, before, run, true) + (if full && call.mark then 1 else 0)
            && Marked(s, calls, run)
               == Marked(s, before, run) + if !emit then [] else if full && call.mark
                                           then [call.event, EventsDropped(run)] else [call.event]
  {
    hide Step, State.Items;
  }

  lemma ForeignCall(s: State, call: Call, run: RunId)
    requires call.run != run && run !in s.cleaned
    ensures var t := Step(s, call);
            t.Items(run) == s.Items(run) && t.Log(run) == s.Log(run) && run !in t.cleaned
  {
    hide Pushed, Entries;
  }

  lemma OwnCall(s: State, call: Call, run: RunId)
    requires call.run == run && run !in s.cleaned && !call.Cleanup? && |s.Items(run)| <= 1000
    ensures var (t, items) := (Step(s, call), s.Items(run));
            && run !in t.cleaned
            && t.Items(run) == (if call.Emit? then (if |items| == 1000 then items[1..] else items) + [Live(call.event)]
                                else if call.Take? && items != [] then items[1..] else items)
            && t.Log(run) == s.Log(run) + if !call.Emit? then []
                                          else if call.mark && |items| == 1000
                                               then [call.event, EventsDropped(run)] else [call.event]
  {
    if !call.Emit? {
      assert s.Log(run) + [] == s.Log(run);
    }
  }

  // ---------------------------------------------------------------------------------
  // The queue
  // ---------------------------------------------------------------------------------

  /** A bounded `asyncio.Queue` with its history: what was accepted, and which of it, by index,
      was taken by a consumer or dropped to make room. */
  class Queue {
    var items: seq<Item>
    ghost var accepted: seq<Event>
    ghost var drained: seq<nat>
    ghost var dropped: seq<nat>

    ghost predicate Poisoned()
      reads this
    {
      items != [] && items[|items| - 1] == Poison
    }

    /** The events still waiting. */
    ghost function Waiting(): seq<Item>
      reads this
    {
      if Poisoned() then items[..|items| - 1] else items
    }

    /** What waits is the tail of what was accepted; everything before it was taken or dropped,
        never both, and what was taken was taken in order. */
    ghost predicate Valid()
      reads this
    {
      && |items| <= MAX_QUEUE_SIZE
      && |accepted| == |drained| + |dropped| + |Waiting()|
      && (forall i :: 0 <= i < |Waiting()| ==> Waiting()[i] == Live(accepted[|accepted| - |Waiting()| + i]))
      && Gone(drained, dropped, |accepted| - |Waiting()|)
    }

    /** Ready for more. */
    ghost predicate Open()
      reads this
    {
      Valid() && !Poisoned()
    }

    constructor ()
      ensures Valid() && !Poisoned() && items == [] && accepted == [] && drained == [] && dropped == []
    {
      items, accepted, drained, dropped := [], [], [], [];
    }

    /** `put_nowait`, and on `QueueFull` `get_nowait` and `put_nowait` again. */
    method PutDroppingOldest(item: Item) returns (wasFull: bool)
      requires Valid() && !Poisoned()
      modifies this
      ensures Valid() && (Poisoned() <==> item.Poison?) && wasFull == (|old(items)| == MAX_QUEUE_SIZE)
      ensures items == Pushed(old(items), item)
      ensures accepted == if item.Live? then old(accepted) + [item.event] else old(accepted)
      ensures drained == old(drained)
      ensures dropped == if wasFull then old(dropped) + [|old(accepted)| - MAX_QUEUE_SIZE] else old(dropped)
    {
      hide Gone;
      ghost var first := |accepted| - |items|;
      wasFull := |items| >= MAX_QUEUE_SIZE;
      if wasFull {
        items := items[1..];
        GoneExtends(drained, dropped, first);
        dropped := dropped + [first];
      }
      items := items + [item];
      if item.Live? {
        accepted := accepted + [item.event];
        assert Waiting() == items;
      } else {
        assert Waiting() == items[..|items| - 1];
      }
    }

    /** `get` on a non-empty queue. */
    method Get() returns (item: Item)
      requires Valid() && items != []
      modifies this
      ensures Valid() && [item] + items == old(items) && accepted == old(accepted) && dropped == old(dropped)
      ensures item.Live? ==>
                var i := |accepted| - |old(Waiting())|;
                drained == old(drained) + [i] && item.event == accepted[i]
      ensures item.Poison? ==> drained == old(drained)
      ensures Poisoned() ==> old(Poisoned())
    {
      hide Gone;
      ghost var first := |accepted| - |Waiting()|;
      item := items[0];
      ghost var was := Waiting();
      items := items[1..];
      if was != [] {
        assert item == was[0];
        GoneExtends(drained, dropped, first);
        drained := drained + [first];
        assert Waiting() == was[1..];
      }
    }
  }

  /** `drained` and `dropped` split the indices below `n`, each in rising order. */
  ghost predicate Gone(drained: seq<nat>, dropped: seq<nat>, n: int) {
    && n == |drained| + |dropped|
    && (forall i, j :: 0 <= i < j < |drained| ==> drained[i] < drained[j])
    && (forall i, j :: 0 <= i < j < |dropped| ==> dropped[i] < dropped[j])
    && (forall k :: k in drained ==> k < n && k !in dropped)
    && (forall k :: k in dropped ==> k < n)
  }

  lemma GoneExtends(drained: seq<nat>, dropped: seq<nat>, n: nat)
    requires Gone(drained, dropped, n)
    ensures Gone(drained + [n], dropped, n + 1) && Gone(drained, dropped + [n], n + 1)
  {
    assert forall i :: 0 <= i < |drained| ==> drained[i] in drained;
    assert forall i :: 0 <= i < |dropped| ==> dropped[i] in dropped;
  }

  /** Delivery is in order and without repeats: the events taken, followed by those waiting, are
      a subsequence of the accepted ones, given by rising indices; the rest was dropped. */
  lemma DeliveryIsSubsequence(q: Queue)
    requires q.Valid()
    ensures var first := |q.accepted| - |q.Waiting()|;
            var delivered := q.drained + seq(|q.Waiting()|, i requires 0 <= i => first + i);
            && (forall i, j :: 0 <= i < j < |delivered| ==> 0 <= delivered[i] < delivered[j] < |q.accepted|)
            && |delivered| + |q.dropped| == |q.accepted|
            && (forall k :: k in delivered ==> k !in q.dropped)
  {
    var first := |q.accepted| - |q.Waiting()|;
    assert forall i :: 0 <= i < |q.drained| ==> q.drained[i] in q.drained;
    assert forall k :: k in q.dropped ==> k < first;
  }

  // ---------------------------------------------------------------------------------
  // The bus
  // ---------------------------------------------------------------------------------

  /** A ring entry keeps the event with its size. */
  type Entry = (Event, nat)

  function Sized(log: seq<Event>): seq<Entry> {
    seq(|log|, i requires 0 <= i < |log| => (log[i], SizeOf(log[i])))
  }

  /** A ring is the window of its log, and its byte count is that of the ring. */
  ghost predicate IsRing(buf: seq<Entry>, bytes: nat, log: seq<Event>) {
    buf == Sized(Window(log)) && bytes == Bytes(Window(log))
  }

  /** The pop loop of `_add_to_ring`. */
  method Trim(buf: seq<Entry>, bytes: nat, ghost log: seq<Event>) returns (buf': seq<Entry>, bytes': nat)
    requires buf == Sized(log) && bytes == Bytes(log)
    ensures IsRing(buf', bytes', log)
  {
    buf', bytes' := buf, bytes;
    ghost var kept := log;
    while |buf'| > MAX_RING_EVENTS || bytes' > MAX_RING_BYTES
      invariant buf' == Sized(kept) && bytes' == Bytes(kept) && Window(kept) == Window(log)
      decreases |buf'|
    {
      if buf' == [] {
        // an empty ring is within both caps: the source's guard is never taken
        assert false;
        break;
      }
      bytes' := bytes' - buf'[0].1;
      buf' := buf'[1..];
      kept := kept[1..];
    }
  }

  /** Appends to a ring and trims it. */
  method Append(buf: seq<Entry>, bytes: nat, e: Event, ghost log: seq<Event>) returns (buf': seq<Entry>, bytes': nat)
    requires IsRing(buf, bytes, log)
    ensures IsRing(buf', bytes', log + [e])
  {
    hide Window, Bytes, Fits;
    WindowIsIncremental(log, e);
    BytesSnoc(Window(log), e);
    buf', bytes' := Trim(buf + [(e, SizeOf(e))], bytes + SizeOf(e), Window(log) + [e]);
  }

  class Bus {
    var queues: map<RunId, Queue>
    var ringBuffers: map<RunId, seq<Entry>>
    var ringBytes: map<RunId, nat>
    var cleaned: seq<RunId>

    ghost var logged: map<RunId, seq<Event>>   // everything added to the ring of a run
    ghost var inserted: seq<RunId>             // every new tombstone

    ghost predicate RingsValid()
      reads this`ringBuffers, this`ringBytes, this`logged, this`queues
    {
      && ringBuffers.Keys == ringBytes.Keys == logged.Keys <= queues.Keys
      && forall run :: run in logged ==> IsRing(ringBuffers[run], ringBytes[run], logged[run])
    }

    /** Queues are distinct objects, ready for more. */
    ghost predicate QueuesValid()
      reads this`queues, queues.Values
    {
      && (forall run :: run in queues ==> queues[run].Open())
      && (forall a, b :: a in queues && b in queues && a != b ==> queues[a] != queues[b])
    }

    ghost predicate TombstonesValid()
      reads this`cleaned, this`inserted
    {
      cleaned == LastIds(inserted) && Distinct(cleaned)
    }

    ghost predicate Valid()
      reads this, queues.Values
    {
      RingsValid() && QueuesValid() && TombstonesValid() && forall run :: run in queues ==> run !in cleaned
    }

    constructor ()
      ensures Valid() && View() == State(map[], map[], [])
    {
      queues, ringBuffers, ringBytes, cleaned := map[], map[], map[], [];
      logged, inserted := map[], [];
    }

    /** What waits for each live run. */
    ghost function Waiting(): (w: map<RunId, seq<Item>>)
      reads this`queues, queues.Values
      ensures w.Keys == queues.Keys && forall run :: run in w ==> w[run] == queues[run].items
    {
      map run | run in queues :: queues[run].items
    }

    ghost function Items(run: RunId): seq<Item>
      reads this`queues, queues.Values
    {
      if run in queues then queues[run].items else []
    }

    ghost function View(): (s: State)
      reads this, queues.Values
    {
      State(Waiting(), logged, cleaned)
    }

    /** Everything accepted for a live run since it was created. */
    ghost function Accepted(run: RunId): seq<Event>
      reads this`queues, queues.Values
    {
      if run in queues then queues[run].accepted else []
    }

    /** Everything logged for a live run since it was created. */
    ghost function Log(run: RunId): seq<Event>
      reads this`logged
    {
      if run in logged then logged[run] else []
    }

    /** `_add_to_ring`. */
    method AddToRing(run: RunId, e: Event)
      requires RingsValid() && run in queues
      modifies this`ringBuffers, this`ringBytes, this`logged
      ensures RingsValid() && logged == old(logged)[run := old(Log(run)) + [e]]
    {
      hide IsRing;
      EmptyRing();
      var buf := if run in ringBuffers then ringBuffers[run] else [];
      var bytes := if run in ringBytes then ringBytes[run] else 0;
      buf, bytes := Append(buf, bytes, e, Log(run));
      StoreRing(run, buf, bytes, Log(run) + [e]);
    }

    method StoreRing(run: RunId, buf: seq<Entry>, bytes: nat, ghost log: seq<Event>)
      requires RingsValid() && run in queues && IsRing(buf, bytes, log)
      modifies this`ringBuffers, this`ringBytes, this`logged
      ensures RingsValid() && logged == old(logged)[run := log]
    {
      hide IsRing;
      ringBuffers := ringBuffers[run := buf];
      ringBytes := ringBytes[run := bytes];
      logged := logged[run := log];
    }

    /** `self._queues.get(run_id)`, or a new queue. */
    method QueueFor(run: RunId) returns (queue: Queue)
      requires QueuesValid() && RingsValid()
      modifies this`queues
      ensures QueuesValid() && RingsValid() && queues == old(queues)[run := queue]
      ensures if run in old(queues) then queue == old(queues)[run] else fresh(queue)
      ensures Waiting() == old(Waiting())[run := old(Items(run))] && Items(run) == old(Items(run))
      ensures Accepted(run) == old(Accepted(run))
    {
      hide IsRing, Queue.Valid, Queue.Poisoned;
      if run in queues {
        return queues[run];
      }
      queue := new Queue();
      queues := queues[run := queue];
    }

    /** Puts an event into the queue of a run. */
    method Enqueue(run: RunId, e: Event) returns (wasFull: bool)
      requires QueuesValid() && run in queues
      modifies queues[run]
      ensures QueuesValid() && wasFull == (|old(Items(run))| == MAX_QUEUE_SIZE)
      ensures Waiting() == old(Waiting())[run := Pushed(old(Items(run)), Live(e))]
      ensures Accepted(run) == old(Accepted(run)) + [e]
    {
      hide Queue.Valid, Queue.Poisoned, Pushed;
      wasFull := queues[run].PutDroppingOldest(Live(e));
    }

    /** Looks the queue up and logs the event. */
    method Register(run: RunId, e: Event) returns (queue: Queue)
      requires QueuesValid() && RingsValid()
      modifies this`queues, this`ringBuffers, this`ringBytes, this`logged
      ensures QueuesValid() && RingsValid() && queues == old(queues)[run := queue]
      ensures if run in old(queues) then queue == old(queues)[run] else fresh(queue)
      ensures Waiting() == old(Waiting())[run := old(Items(run))] && Items(run) == old(Items(run))
      ensures Accepted(run) == old(Accepted(run))
      ensures logged == old(logged)[run := old(Log(run)) + [e]]
    {
      hide Bus.QueuesValid, Bus.RingsValid, Bus.Waiting, Bus.Items, Bus.Log, Bus.Accepted;
      queue := QueueFor(run);
      AddToRing(run, e);
    }

    /** The common part of `emit` and `_emit_from_threadsafe`. */
    method Accept(run: RunId, e: Event) returns (wasFull: bool)
      requires QueuesValid() && RingsValid()
      modifies this`queues, this`ringBuffers, this`ringBytes, this`logged, if run in queues then {queues[run]} else {}
      ensures QueuesValid() && RingsValid() && run in queues && queues == old(queues)[run := queues[run]]
      ensures run in old(queues) ==> queues[run] == old(queues)[run]
      ensures wasFull == (|old(Items(run))| == MAX_QUEUE_SIZE)
      ensures Waiting() == old(Waiting())[run := Pushed(old(Items(run)), Live(e))]
      ensures Accepted(run) == old(Accepted(run)) + [e]
      ensures logged == old(logged)[run := old(Log(run)) + [e]]
    {
      hide Bus.QueuesValid, Bus.RingsValid, Bus.Waiting, Bus.Items, Bus.Log, Bus.Accepted, Pushed;
      var queue := Register(run, e);
      wasFull := Enqueue(run, e);
    }

    /** An emit of a run that is not tombstoned. */
    method EmitLive(run: RunId, e: Event, mark: bool)
      requires QueuesValid() && RingsValid()
      modifies this`queues, this`ringBuffers, this`ringBytes, this`logged, if run in queues then {queues[run]} else {}
      ensures QueuesValid() && RingsValid() && run in queues && queues == old(queues)[run := queues[run]]
      ensures run in old(queues) ==> queues[run] == old(queues)[run]
      ensures Waiting() == old(Waiting())[run := Pushed(old(Items(run)), Live(e))]
      ensures Accepted(run) == old(Accepted(run)) + [e]
      ensures logged == old(logged)[run := old(Log(run)) + Entries(run, e, mark, old(Items(run)))]
    {
      hide Bus.QueuesValid, Bus.RingsValid, Bus.Waiting, Bus.Items, Bus.Accepted, Pushed;
      ghost var before := Log(run);
      var wasFull := Accept(run, e);
      if wasFull && mark {
        AddToRing(run, EventsDropped(run));
        assert before + [e] + [EventsDropped(run)] == before + ([e] + [EventsDropped(run)]);
      } else {
        assert [e] + [] == [e];
      }
    }

    /** `emit` with `mark`, `_emit_from_threadsafe` without: they differ only in the marker that
        `emit` logs when it drops an event. A tombstoned run ignores both. */
    method Emit(run: RunId, e: Event, mark: bool)
      requires Valid()
      modifies this`queues, this`ringBuffers, this`ringBytes, this`logged, if run in queues then {queues[run]} else {}
      ensures Valid() && View() == Step(old(View()), Call.Emit(run, e, mark))
      ensures Accepted(run) == old(Accepted(run)) + if run in cleaned then [] else [e]
      ensures forall other :: other in old(queues) ==> other in queues && queues[other] == old(queues)[other]
    {
      hide Bus.QueuesValid, Bus.RingsValid, Bus.TombstonesValid, Bus.Waiting, Bus.Accepted, Pushed, Entries;
      if run in cleaned {
        assert Accepted(run) + [] == Accepted(run);
      } else {
        EmitLive(run, e, mark);
      }
    }

    /** The first half of `drain`: `_get_queue`, which stops a consumer of a tombstoned run. */
    method OpenDrain(run: RunId) returns (queue: Option<Queue>)
      requires Valid()
      modifies this`queues
      ensures Valid() && View() == Step(old(View()), Call.OpenDrain(run))
      ensures queue.None? <==> run in cleaned
      ensures queue.Some? ==> run in queues && queues[run] == queue.value
      ensures forall other :: other in old(queues) ==> other in queues && queues[other] == old(queues)[other]
    {
      hide Bus.QueuesValid, Bus.RingsValid, Bus.TombstonesValid, Bus.Waiting;
      if run in cleaned {
        return None;
      }
      var q := QueueFor(run);
      queue := Some(q);
    }

    /** The second half, once the queue is not empty. The run may have been cleaned up in between:
        its consumer still gets what waits, and stops (`None`) at the poison. */
    method FinishDrain(queue: Queue) returns (event: Option<Event>)
      requires Valid() && queue.Valid() && queue.items != []
      modifies queue
      ensures Valid() && queue.Valid()
      ensures queue.items == old(queue.items)[1..] && queue.accepted == old(queue.accepted)
      ensures event == match old(queue.items)[0] case Live(e) => Some(e) case Poison => None
      ensures forall run :: run in queues && queues[run] == queue ==> View() == Step(old(View()), Call.Take(run))
    {
      hide IsRing, TombstonesValid, Queue.Valid, Queue.Poisoned;
      ghost var was := queue.items;
      var item := queue.Get();
      assert was[1..] == queue.items;
      event := if item.Live? then Some(item.event) else None;
    }

    /** `get_snapshot`: the longest recent part of the log that fits the caps. */
    method GetSnapshot(run: RunId) returns (events: seq<Event>)
      requires Valid()
      ensures events == Window(View().Log(run))
    {
      hide Window;
      EmptyWindow();
      var buf := if run in ringBuffers then ringBuffers[run] else [];
      events := seq(|buf|, i requires 0 <= i < |buf| => buf[i].0);
    }

    /** `_cleaned[run_id] = None` and the eviction of the oldest tombstone. */
    method AddTombstone(run: RunId)
      requires TombstonesValid()
      modifies this`cleaned, this`inserted
      ensures TombstonesValid() && run in cleaned && cleaned == Tombstone(old(cleaned), run)
      ensures forall id :: id in cleaned ==> id == run || id in old(cleaned)
      ensures inserted == if run in old(cleaned) then old(inserted) else old(inserted) + [run]
    {
      TombstonesAreLastInsertions(inserted, run);
      inserted := if run in cleaned then inserted else inserted + [run];
      cleaned := if run in cleaned then cleaned else cleaned + [run];
      if |cleaned| > MAX_CLEANED_IDS {
        cleaned := cleaned[1..];
      }
    }

    /** `cleanup_run`: tombstone the id, forget the run and poison its queue. */
    method CleanupRun(run: RunId)
      requires Valid()
      modifies this, if run in queues then {queues[run]} else {}
      ensures Valid() && run in cleaned && View() == Step(old(View()), Call.Cleanup(run))
      ensures inserted == if run in old(cleaned) then old(inserted) else old(inserted) + [run]
      ensures queues == old(queues) - {run}
      ensures run in old(queues) ==>
                var q := old(queues)[run];
                && q.Valid() && q.Poisoned() && q.items == Pushed(old(q.items), Poison)
                && q.accepted == old(q.accepted) && q.drained == old(q.drained)
    {
      hide Bus.QueuesValid, Bus.RingsValid, Bus.TombstonesValid, Bus.Waiting, Tombstone, Pushed;
      hide Queue.Valid, Queue.Open, Queue.Poisoned;
      var queue := Retire(run);
      if queue.Some? {
        Kill(queue.value);
      }
    }

    /** The part of `cleanup_run` under the lock. */
    method Retire(run: RunId) returns (queue: Option<Queue>)
      requires Valid()
      modifies this
      ensures Valid() && run in cleaned && View() == Step(old(View()), Call.Cleanup(run))
      ensures inserted == if run in old(cleaned) then old(inserted) else old(inserted) + [run]
      ensures queues == old(queues) - {run}
      ensures queue == if run in old(queues) then Some(old(queues)[run]) else None
      ensures queue.Some? ==> queue.value.Open() && queue.value !in queues.Values
    {
      hide Bus.QueuesValid, Bus.RingsValid, Bus.TombstonesValid, Bus.Waiting, Tombstone, Queue.Open;
      AddTombstone(run);
      queue := Forget(run);
    }

    /** Poisons a queue that no run has. */
    method Kill(queue: Queue)
      requires queue.Open() && queue !in queues.Values && QueuesValid()
      modifies queue
      ensures QueuesValid() && Waiting() == old(Waiting())
      ensures queue.Valid() && queue.Poisoned() && queue.items == Pushed(old(queue.items), Poison)
      ensures queue.accepted == old(queue.accepted) && queue.drained == old(queue.drained)
    {
      hide Pushed, Queue.Valid, Bus.QueuesValid, Bus.Waiting;
      var wasFull := queue.PutDroppingOldest(Poison);
    }

    /** The pops of `cleanup_run`. */
    method Forget(run: RunId) returns (queue: Option<Queue>)
      requires RingsValid() && QueuesValid()
      modifies this`queues, this`ringBuffers, this`ringBytes, this`logged
      ensures RingsValid() && QueuesValid() && queues == old(queues) - {run} && logged == old(logged) - {run}
      ensures queue == if run in old(queues) then Some(old(queues)[run]) else None
      ensures queue.Some? ==> queue.value.Open() && queue.value !in queues.Values
      ensures Waiting() == old(Waiting()) - {run}
    {
      hide IsRing, Queue.Valid, Queue.Poisoned;
      queue := if run in queues then Some(queues[run]) else None;
      queues := queues - {run};
      ForgetRing(run);
    }

    method ForgetRing(run: RunId)
      requires ringBuffers.Keys == ringBytes.Keys == logged.Keys && logged.Keys - {run} <= queues.Keys
      requires forall id :: id in logged ==> IsRing(ringBuffers[id], ringBytes[id], logged[id])
      modifies this`ringBuffers, this`ringBytes, this`logged
      ensures RingsValid() && logged == old(logged) - {run}
    {
      hide IsRing;
      ringBuffers := ringBuffers - {run};
      ringBytes := ringBytes - {run};
      logged := logged - {run};
    }
  }

  lemma EmptyRing()
    ensures IsRing([], 0, [])
  {
  }

  lemma EmptyWindow()
    ensures Window([]) == [] && Bytes([]) == 0
  {
  }
}
