/**
 One WebSocket connection of backend/ws_manager.py: the sliding-log limit on inbound frames,
 and the bounded outbound queue with its sequence numbers.
 */
module WsManager {

  const OUTBOUND_BUFFER_SIZE := 2048
  const INBOUND_FRAME_MAX := 4096
  const INBOUND_RATE_LIMIT := 10
  const WINDOW := 1.0

  // ---------------------------------------------------------------------------------
  // The sliding-log limiter
  // ---------------------------------------------------------------------------------

  /** The entries later than `cutoff`. */
  function Prune(log: seq<real>, cutoff: real): seq<real> {
    if log == [] then []
    else Prune(log[..|log| - 1], cutoff) + if log[|log| - 1] > cutoff then [log[|log| - 1]] else []
  }

  /** `held` is the list the connection keeps; `accepted` is every accepted frame, with nothing
      ever forgotten. */
  datatype Log = Log(held: seq<real>, accepted: seq<real>)

  function Step(log: Log, now: real): Log {
    var kept := Prune(log.held, now - WINDOW);
    if |kept| >= INBOUND_RATE_LIMIT then Log(kept, log.accepted)
    else Log(kept + [now], log.accepted + [now])
  }

  function Replay(times: seq<real>): Log {
    if times == [] then Log([], []) else Step(Replay(times[..|times| - 1]), times[|times| - 1])
  }

  predicate Accepts(times: seq<real>, now: real) {
    |Prune(Replay(times).held, now - WINDOW)| < INBOUND_RATE_LIMIT
  }

  ghost predicate Rising(times: seq<real>) {
    forall i, j :: 0 <= i <= j < |times| ==> times[i] <= times[j]
  }

  lemma {:induction false} PruneTwice(log: seq<real>, early: real, late: real)
    requires early <= late
    ensures Prune(Prune(log, early), late) == Prune(log, late)
  {
    if log != [] {
      var init := log[..|log| - 1];
      PruneTwice(init, early, late);
      var once, last := Prune(log, early), log[|log| - 1];
      if last > early {
        assert once == Prune(init, early) + [last];
        assert once[..|once| - 1] == Prune(init, early) && once[|once| - 1] == last;
      } else {
        assert once == Prune(init, early);
      }
    }
  }

  lemma PruneSnoc(log: seq<real>, t: real, cutoff: real)
    ensures Prune(log + [t], cutoff) == Prune(log, cutoff) + if t > cutoff then [t] else []
  {
    assert (log + [t])[..|log|] == log;
  }

  /** The held list is the recent part of the full history. */
  ghost predicate Consistent(log: Log, last: real) {
    && log.held == Prune(log.accepted, last - WINDOW)
    && Rising(log.accepted)
    && forall i :: 0 <= i < |log.accepted| ==> log.accepted[i] <= last
  }

  lemma StepKeepsConsistent(log: Log, last: real, now: real)
    requires Consistent(log, last) && last <= now
    ensures Consistent(Step(log, now), now)
    ensures Prune(log.held, now - WINDOW) == Prune(log.accepted, now - WINDOW)
  {
    hide Prune;
    PruneTwice(log.accepted, last - WINDOW, now - WINDOW);
    PruneSnoc(log.accepted, now, now - WINDOW);
  }

  lemma {:induction false} ReplayConsistent(times: seq<real>, now: real)
    requires Rising(times) && (times != [] ==> times[|times| - 1] <= now)
    ensures Prune(Replay(times).held, now - WINDOW) == Prune(Replay(times).accepted, now - WINDOW)
    ensures Consistent(Step(Replay(times), now), now)
  {
    if times == [] {
      StepKeepsConsistent(Replay(times), now, now);
    } else {
      var last := times[|times| - 1];
      ReplayConsistent(times[..|times| - 1], last);
      StepKeepsConsistent(Replay(times), last, now);
    }
  }

  /** In a rising log the recent entries are the last ones. */
  lemma {:induction false} PruneOfRising(log: seq<real>, cutoff: real, n: nat)
    requires Rising(log)
    ensures |Prune(log, cutoff)| <= |log|
    ensures 0 < n <= |log| ==> (|Prune(log, cutoff)| >= n <==> log[|log| - n] > cutoff)
  {
    if log != [] {
      var init := log[..|log| - 1];
      PruneOfRising(init, cutoff, if n > 0 then n - 1 else 0);
      if log[|log| - 1] <= cutoff {
        NothingRecent(log, cutoff);
      }
    }
  }

  lemma {:induction false} NothingRecent(log: seq<real>, cutoff: real)
    requires forall i :: 0 <= i < |log| ==> log[i] <= cutoff
    ensures Prune(log, cutoff) == []
  {
    if log != [] {
      NothingRecent(log[..|log| - 1], cutoff);
    }
  }

  /** The frames that were admitted, from the verdicts alone. */
  function Admitted(times: seq<real>): seq<real> {
    if times == [] then []
    else
      var before, now := times[..|times| - 1], times[|times| - 1];
      Admitted(before) + if Accepts(before, now) then [now] else []
  }

  /** The history with nothing forgotten is the history of the verdicts. */
  lemma {:induction false} AcceptedIsAdmitted(times: seq<real>)
    ensures Replay(times).accepted == Admitted(times)
  {
    if times != [] {
      AcceptedIsAdmitted(times[..|times| - 1]);
    }
  }

  /** The decision without the pruned list, over every run: a frame is rejected exactly when ten frames
      were admitted before it and the tenth most recent of them is less than a second old. */
  lemma RejectedExactlyWhenTenAreRecent(times: seq<real>, now: real)
    requires Rising(times) && (times != [] ==> times[|times| - 1] <= now)
    ensures var history := Admitted(times);
            !Accepts(times, now) <==> |history| >= 10 && now - history[|history| - 10] < 1.0
  {
    ReplayConsistent(times, now);
    AcceptedRises(times);
    AcceptedIsAdmitted(times);
    PruneOfRising(Replay(times).accepted, now - WINDOW, INBOUND_RATE_LIMIT);
  }

  lemma AcceptedRises(times: seq<real>)
    requires Rising(times)
    ensures Rising(Replay(times).accepted)
  {
    if times != [] {
      ReplayConsistent(times[..|times| - 1], times[|times| - 1]);
    }
  }

  /** Any eleven admitted frames span at least one second. */
  lemma {:induction false} ElevenSpanOneSecond(times: seq<real>, i: nat)
    requires Rising(times) && i + 10 < |Admitted(times)|
    ensures Admitted(times)[i + 10] - Admitted(times)[i] >= 1.0
  {
    hide Accepts;
    if times != [] {
      var before, now := times[..|times| - 1], times[|times| - 1];
      if i + 10 < |Admitted(before)| {
        ElevenSpanOneSecond(before, i);
      } else {
        RejectedExactlyWhenTenAreRecent(before, now);
      }
    }
  }

  lemma OneMoreFrame(times: seq<real>, now: real)
    requires Rising(times) && (times != [] ==> times[|times| - 1] <= now)
    ensures Rising(times + [now])
    ensures var kept := Prune(Replay(times).held, now - WINDOW);
            Replay(times + [now]).held == if |kept| < INBOUND_RATE_LIMIT then kept + [now] else kept
    ensures Admitted(times + [now]) == if Accepts(times, now) then Admitted(times) + [now] else Admitted(times)
  {
    hide Prune;
    assert (times + [now])[..|times|] == times;
  }

  // ---------------------------------------------------------------------------------
  // The connection
  // ---------------------------------------------------------------------------------

  /** The `type` entry of a JSON object. */
  datatype TypeField = Missing | Text(text: string) | NotText
  /** What a frame's payload parses to. `TooDeep` nests beyond the recursion limit of the JSON
      parser, whose RecursionError the handler does not catch. */
  datatype Payload = NotJson | TooDeep | JsonObject(kind: TypeField) | JsonOther
  datatype Frame = Frame(length: nat, payload: Payload)
  /** `Raises`: the payload is nested too deep, or is JSON but not an object, which has no `get`. */
  datatype Reply = FrameTooLarge | RateLimited | Ignored | Kind(kind: TypeField) | Raises

  class Connection<Event> {
    var msgTimestamps: seq<real>
    var lastPong: real
    var outbound: seq<Event>
    var nextSeq: nat

    // the whole life of the connection
    ghost var frameTimes: seq<real>
    ghost var admittedTimes: seq<real>
    ghost var offered: seq<Event>
    ghost var kept: seq<nat>
    ghost var sent: seq<(Event, nat)>

    ghost predicate Valid()
      reads this
    {
      InboundValid() && OutboundValid()
    }

    /** The timestamps kept are those the limiter holds after the frames so far, and the frames that
        were admitted are those the verdicts admit. */
    ghost predicate InboundValid()
      reads this`msgTimestamps, this`frameTimes, this`admittedTimes
    {
      msgTimestamps == Replay(frameTimes).held && Rising(frameTimes) && admittedTimes == Admitted(frameTimes)
    }

    /** What was sent and what waits are, in order, distinct events among those offered, and the
        sequence numbers sent are 1, 2, 3, ... */
    ghost predicate OutboundValid()
      reads this`outbound, this`nextSeq, this`offered, this`kept, this`sent
    {
      && |outbound| <= OUTBOUND_BUFFER_SIZE
      && |kept| == |sent| + |outbound| && nextSeq == |sent|
      && (forall i :: 0 <= i < |kept| ==> kept[i] < |offered|)
      && (forall i, j :: 0 <= i < j < |kept| ==> kept[i] < kept[j])
      && (forall i :: 0 <= i < |sent| ==> sent[i] == (offered[kept[i]], i + 1))
      && (forall i :: 0 <= i < |outbound| ==> outbound[i] == offered[kept[|sent| + i]])
    }

    constructor (now: real)
      ensures Valid() && admittedTimes == [] && frameTimes == [] && offered == [] && sent == []
      ensures lastPong == now
    {
      msgTimestamps, lastPong, outbound, nextSeq := [], now, [], 0;
      frameTimes, admittedTimes, offered, kept, sent := [], [], [], [], [];
    }

    /** `handle_message`; `pongNow` is the second clock reading. Oversized frames are not counted. A frame
        is limited exactly if ten were admitted within the second before it; the others are admitted,
        whatever their payload. */
    method HandleMessage(frame: Frame, now: real, pongNow: real) returns (reply: Reply)
      requires Valid() && (frameTimes != [] ==> frameTimes[|frameTimes| - 1] <= now)
      modifies this`msgTimestamps, this`lastPong, this`frameTimes, this`admittedTimes
      ensures Valid()
      ensures reply == FrameTooLarge <==> frame.length > 4096
      ensures frameTimes == if reply == FrameTooLarge then old(frameTimes) else old(frameTimes) + [now]
      ensures reply == RateLimited <==>
                var history := old(admittedTimes);
                frame.length <= 4096 && |history| >= 10 && now - history[|history| - 10] < 1.0
      ensures admittedTimes == if reply == FrameTooLarge || reply == RateLimited then old(admittedTimes)
                               else old(admittedTimes) + [now]
      ensures reply != FrameTooLarge && reply != RateLimited ==>
                reply == match frame.payload
                         case NotJson => Ignored
                         case TooDeep | JsonOther => Raises
                         case JsonObject(kind) => Kind(kind)
      ensures lastPong == if reply == Kind(Text("pong")) then pongNow else old(lastPong)
    {
      hide Prune, Admitted, Accepts, Connection.InboundValid, Connection.OutboundValid;
      if frame.length > INBOUND_FRAME_MAX {
        return FrameTooLarge;
      }
      var admitted := Admit(now);
      if !admitted {
        return RateLimited;
      }
      match frame.payload {
        case NotJson => return Ignored;
        case TooDeep | JsonOther => return Raises;
        case JsonObject(kind) =>
          if kind == Text("pong") {
            lastPong := pongNow;
          }
          return Kind(kind);
      }
    }

    /** The limiter's part of `handle_message`: prune, count, and log the frame if it is admitted. */
    method Admit(now: real) returns (admitted: bool)
      requires InboundValid() && (frameTimes != [] ==> frameTimes[|frameTimes| - 1] <= now)
      modifies this`msgTimestamps, this`frameTimes, this`admittedTimes
      ensures InboundValid() && frameTimes == old(frameTimes) + [now]
      ensures var history := old(admittedTimes);
              !admitted <==> |history| >= 10 && now - history[|history| - 10] < 1.0
      ensures admittedTimes == if admitted then old(admittedTimes) + [now] else old(admittedTimes)
    {
      hide Prune, Replay, Admitted, Rising;
      RejectedExactlyWhenTenAreRecent(frameTimes, now);
      OneMoreFrame(frameTimes, now);
      frameTimes := frameTimes + [now];
      msgTimestamps := Prune(msgTimestamps, now - WINDOW);
      admitted := |msgTimestamps| < INBOUND_RATE_LIMIT;
      if admitted {
        msgTimestamps := msgTimestamps + [now];
        admittedTimes := admittedTimes + [now];
      }
    }

    /** One connection's share of `broadcast`: a full queue drops the new event. */
    method Offer(event: Event) returns (queued: bool)
      requires Valid()
      modifies this`outbound, this`offered, this`kept
      ensures Valid() && offered == old(offered) + [event]
      ensures queued == (|old(outbound)| < 2048)
      ensures outbound == if queued then old(outbound) + [event] else old(outbound)
    {
      hide Connection.InboundValid;
      offered := offered + [event];
      queued := |outbound| < OUTBOUND_BUFFER_SIZE;
      if queued {
        kept := kept + [|offered| - 1];
        outbound := outbound + [event];
      }
    }

    /** One turn of `_send_loop`: take the oldest event and number it. */
    method SendNext() returns (event: Event, number: nat)
      requires Valid() && outbound != []
      modifies this`outbound, this`nextSeq, this`sent
      ensures Valid() && sent == old(sent) + [(event, number)]
      ensures [event] + outbound == old(outbound) && number == |old(sent)| + 1
    {
      hide Connection.InboundValid;
      event := outbound[0];
      outbound := outbound[1..];
      nextSeq := nextSeq + 1;
      number := nextSeq;
      sent := sent + [(event, number)];
    }
  }
}
