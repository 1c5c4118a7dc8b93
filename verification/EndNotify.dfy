/**
 Notifications of a direct session, as its read loop dispatches them. The end of a battle may be notified several times;
 only the first delivery counts. Frame broadcasts advance the number of the last frame seen.
 */
module EndNotify {
  import opened Basics
  import opened Bytes
  import opened RequestBody
  import opened SessionTerminal

  function Ascii(s: string): seq<byte> {
    seq(|s|, i requires 0 <= i < |s| => s[i] as int % 256)
  }

  const FRAME_OP: seq<byte> := Ascii("/battle.v1.FrameBroadcast")
  const END_OP: seq<byte> := Ascii("/battle.v1.BattleEndNotify")

  // A notification handed to the subscribers of its operation.
  datatype Push = Push(operation: seq<byte>, payload: seq<byte>)

  // The hook that finds the frame number in a broadcast, a matter of the game's own protocol.
  type FrameNumber = seq<byte> -> Option<nat>

  datatype View = View(
    flag: bool,
    failed: bool,
    reason: Option<Reason>,
    raw: Option<seq<byte>>,     // the first end notification
    replays: nat,
    differs: nat,
    lastSeen: nat,
    delivered: seq<Push>)

  // ---------------------------------------------------------------------------------------------
  // One notification
  // ---------------------------------------------------------------------------------------------

  // The first reason is kept.
  function Marked(v: View, reason: Reason): View {
    if v.flag then v else v.(flag := true, failed := v.failed || !EndsNormally(reason), reason := Some(reason))
  }

  function Noted(v: View, payload: seq<byte>): View {
    if payload == [] then v
    else
      var counted :=
        match v.raw
        case None => v.(raw := Some(payload))
        case Some(first) => v.(replays := v.replays + 1, differs := v.differs + if first == payload then 0 else 1);
      Marked(counted, BattleEnded)
  }

  function Tracked(v: View, payload: seq<byte>, frameNumber: FrameNumber): View {
    match frameNumber(payload)
    case None => v
    case Some(n) => if n > v.lastSeen then v.(lastSeen := n) else v
  }

  function Dispatched(v: View, body: seq<byte>, frameNumber: FrameNumber): View {
    match ParseRequestBody(body, 0)
    case Err(_) => v
    case Ok(p) =>
      if p.operation == END_OP then
        var first := p.payload != [] && v.raw == None;
        var noted := Noted(v, p.payload);
        if first then noted.(delivered := noted.delivered + [Push(END_OP, p.payload)]) else noted
      else
        var tracked := if p.operation == FRAME_OP then Tracked(v, p.payload, frameNumber) else v;
        tracked.(delivered := tracked.delivered + [Push(p.operation, p.payload)])
  }

  class Session {
    const frameNumber: FrameNumber
    var flag: bool
    var failed: bool
    var reason: Option<Reason>
    var noticed: bool
    var raw: seq<byte>
    var replays: nat
    var differs: nat
    var lastSeen: nat
    var delivered: seq<Push>

    function Contents(): View
      reads this
    {
      View(flag, failed, reason, if noticed then Some(raw) else None, replays, differs, lastSeen, delivered)
    }

    constructor (frameNumber: FrameNumber)
      ensures Contents() == View(false, false, None, None, 0, 0, 0, []) && this.frameNumber == frameNumber
    {
      this.frameNumber := frameNumber;
      flag, failed, reason := false, false, None;
      noticed, raw, replays, differs := false, [], 0, 0;
      lastSeen, delivered := 0, [];
    }

    method MarkEnded(why: Reason) returns (won: bool)
      modifies this`flag, this`failed, this`reason
      ensures won == !old(flag) && Contents() == Marked(old(Contents()), why)
    {
      if flag {
        return false;
      }
      flag := true;
      if !EndsNormally(why) {
        failed := true;
      }
      reason := Some(why);
      won := true;
    }

    method NoteEndNotify(payload: seq<byte>) returns (first: bool)
      modifies this
      ensures first == (payload != [] && !old(noticed)) && Contents() == Noted(old(Contents()), payload)
    {
      if payload == [] {
        return false;
      }
      first := !noticed;
      if first {
        noticed, raw := true, payload;
      } else {
        replays := replays + 1;
        if raw != payload {
          differs := differs + 1;
        }
      }
      var won := MarkEnded(BattleEnded);
    }

    method TrackFrame(payload: seq<byte>)
      modifies this`lastSeen
      ensures Contents() == Tracked(old(Contents()), payload, frameNumber)
    {
      var n := frameNumber(payload);
      if n.Some? && n.value > lastSeen {
        lastSeen := n.value;
      }
    }

    method DispatchNotify(body: seq<byte>)
      modifies this
      ensures Contents() == Dispatched(old(Contents()), body, frameNumber)
    {
      var p := ParseRequestBody(body, 0);
      if p.Err? {
        return;
      }
      assert |FRAME_OP| != |END_OP|;
      if p.value.operation == FRAME_OP {
        TrackFrame(p.value.payload);
      }
      if p.value.operation == END_OP {
        var first := NoteEndNotify(p.value.payload);
        if !first {
          return;
        }
      }
      delivered := delivered + [Push(p.value.operation, p.value.payload)];
    }

    /** The read loop's notifications, one after the other. */
    method DispatchAll(bodies: seq<seq<byte>>)
      modifies this
      ensures Contents() == Run(old(Contents()), bodies, frameNumber)
    {
      for i := 0 to |bodies|
        invariant Contents() == Run(old(Contents()), bodies[..i], frameNumber)
      {
        DispatchNotify(bodies[i]);
        assert bodies[..i + 1][..i] == bodies[..i];
      }
      assert bodies[..|bodies|] == bodies;
    }
  }

  // ---------------------------------------------------------------------------------------------
  // Any sequence of notifications
  // ---------------------------------------------------------------------------------------------

  function Run(v: View, bodies: seq<seq<byte>>, frameNumber: FrameNumber): View {
    if bodies == [] then v else Dispatched(Run(v, bodies[..|bodies| - 1], frameNumber), bodies[|bodies| - 1], frameNumber)
  }

  // The pushes that could be parsed.
  function Pushes(bodies: seq<seq<byte>>): seq<Push> {
    if bodies == [] then []
    else
      var before, p := Pushes(bodies[..|bodies| - 1]), ParseRequestBody(bodies[|bodies| - 1], 0);
      if p.Err? then before else before + [Push(p.value.operation, p.value.payload)]
  }

  // The non-empty end notifications, in order.
  function EndPayloads(pushes: seq<Push>): seq<seq<byte>> {
    if pushes == [] then []
    else
      var before, p := EndPayloads(pushes[..|pushes| - 1]), pushes[|pushes| - 1];
      if p.operation == END_OP && p.payload != [] then before + [p.payload] else before
  }

  function Others(pushes: seq<Push>): seq<Push> {
    if pushes == [] then []
    else
      var before, p := Others(pushes[..|pushes| - 1]), pushes[|pushes| - 1];
      if p.operation == END_OP then before else before + [p]
  }

  function CountDiffering(payloads: seq<seq<byte>>, first: seq<byte>): nat {
    if payloads == [] then 0
    else CountDiffering(payloads[..|payloads| - 1], first) + if payloads[|payloads| - 1] == first then 0 else 1
  }

  // What the end notifications among the pushes make of a session that had none.
  predicate EndedBy(v: View, w: View, ends: seq<seq<byte>>) {
    && (w.flag <==> v.flag || ends != [])
    && w.reason == (if v.flag || ends == [] then v.reason else Some(BattleEnded))
    && w.failed == v.failed
    && w.raw == (if ends == [] then None else Some(ends[0]))
    && w.replays == v.replays + (if ends == [] then 0 else |ends| - 1)
    && w.differs == v.differs + (if ends == [] then 0 else CountDiffering(ends, ends[0]))
  }

  function FirstOf(ends: seq<seq<byte>>): seq<seq<byte>> {
    if ends == [] then [] else [ends[0]]
  }

  // What reaches the subscribers: the first end notification, and everything else.
  predicate DeliveredBy(v: View, w: View, pushes: seq<Push>) {
    && EndPayloads(w.delivered) == EndPayloads(v.delivered) + FirstOf(EndPayloads(pushes))
    && Others(w.delivered) == Others(v.delivered) + Others(pushes)
  }

  /** Whatever the notifications, only the first non-empty end of the battle counts: it is the payload kept and the one
      delivered; those after it are counted, and counted apart if they differ; the session is terminal exactly if there was
      one or it already was, and a reason recorded before stays. Every other notification is delivered, in order. */
  lemma {:induction false} FirstEndCounts(v: View, bodies: seq<seq<byte>>, frameNumber: FrameNumber)
    requires v.raw == None
    ensures EndedBy(v, Run(v, bodies, frameNumber), EndPayloads(Pushes(bodies)))
    ensures DeliveredBy(v, Run(v, bodies, frameNumber), Pushes(bodies))
  {
    if bodies == [] {
      assert EndPayloads(v.delivered) + [] == EndPayloads(v.delivered) && Others(v.delivered) + [] == Others(v.delivered);
    } else {
      var front, body := bodies[..|bodies| - 1], bodies[|bodies| - 1];
      FirstEndCounts(v, front, frameNumber);
      var p := ParseRequestBody(body, 0);
      if p.Ok? {
        var push := Push(p.value.operation, p.value.payload);
        PushEnds(v, Run(v, front, frameNumber), Pushes(front), push);
        if push.operation == END_OP {
          EndIsDelivered(v, Run(v, front, frameNumber), Pushes(front), push);
        } else {
          OtherIsDelivered(v, Run(v, front, frameNumber), Pushes(front), push);
        }
        DispatchedIs(Run(v, front, frameNumber), body, push, frameNumber);
      }
    }
  }

  // What one push changes, its frame number aside.
  function Pushed(w: View, p: Push): View {
    if p.operation == END_OP then
      if p.payload == [] then w
      else if w.raw == None then Noted(w, p.payload).(delivered := w.delivered + [p])
      else Noted(w, p.payload)
    else w.(delivered := w.delivered + [p])
  }

  lemma DispatchedIs(w: View, body: seq<byte>, p: Push, frameNumber: FrameNumber)
    requires ParseRequestBody(body, 0).Ok?
    requires p == Push(ParseRequestBody(body, 0).value.operation, ParseRequestBody(body, 0).value.payload)
    ensures Dispatched(w, body, frameNumber) == Pushed(w, p).(lastSeen := Dispatched(w, body, frameNumber).lastSeen)
  {
  }

  lemma LastPush(pushes: seq<Push>, p: Push)
    ensures EndPayloads(pushes + [p]) ==
            if p.operation == END_OP && p.payload != [] then EndPayloads(pushes) + [p.payload] else EndPayloads(pushes)
    ensures Others(pushes + [p]) == if p.operation == END_OP then Others(pushes) else Others(pushes) + [p]
  {
    assert (pushes + [p])[..|pushes|] == pushes;
  }

  lemma EndCounts(v: View, w: View, ends: seq<seq<byte>>, payload: seq<byte>)
    requires v.raw == None && EndedBy(v, w, ends) && payload != []
    ensures EndedBy(v, Noted(w, payload), ends + [payload])
  {
    var more := ends + [payload];
    assert more[..|more| - 1] == ends;
    if ends == [] {
      assert CountDiffering(more, payload) == 0;
    } else {
      assert more[0] == ends[0];
    }
  }

  lemma PushEnds(v: View, w: View, pushes: seq<Push>, p: Push)
    requires v.raw == None && EndedBy(v, w, EndPayloads(pushes))
    ensures EndedBy(v, Pushed(w, p), EndPayloads(pushes + [p]))
  {
    LastPush(pushes, p);
    if p.operation == END_OP && p.payload != [] {
      EndCounts(v, w, EndPayloads(pushes), p.payload);
    }
  }

  lemma FirstIsKept(before: seq<seq<byte>>, ends: seq<seq<byte>>, payload: seq<byte>)
    ensures before + FirstOf(ends + [payload]) ==
            if ends == [] then before + FirstOf(ends) + [payload] else before + FirstOf(ends)
  {
  }

  lemma OneMore(before: seq<Push>, pushes: seq<Push>, p: Push)
    ensures before + (pushes + [p]) == before + pushes + [p]
  {
  }

  lemma EndIsDelivered(v: View, w: View, pushes: seq<Push>, p: Push)
    requires DeliveredBy(v, w, pushes) && (w.raw == None <==> EndPayloads(pushes) == []) && p.operation == END_OP
    ensures DeliveredBy(v, Pushed(w, p), pushes + [p])
  {
    assert Others(w.delivered + [p]) == Others(w.delivered) by { LastPush(w.delivered, p); }
    assert Others(pushes + [p]) == Others(pushes) by { LastPush(pushes, p); }
    if p.payload != [] {
      assert EndPayloads(w.delivered + [p]) == EndPayloads(w.delivered) + [p.payload] by { LastPush(w.delivered, p); }
      assert EndPayloads(pushes + [p]) == EndPayloads(pushes) + [p.payload] by { LastPush(pushes, p); }
      FirstIsKept(EndPayloads(v.delivered), EndPayloads(pushes), p.payload);
    } else {
      assert EndPayloads(pushes + [p]) == EndPayloads(pushes) by { LastPush(pushes, p); }
    }
  }

  lemma OtherIsDelivered(v: View, w: View, pushes: seq<Push>, p: Push)
    requires DeliveredBy(v, w, pushes) && p.operation != END_OP
    ensures DeliveredBy(v, Pushed(w, p), pushes + [p])
  {
    assert EndPayloads(w.delivered + [p]) == EndPayloads(w.delivered) by { LastPush(w.delivered, p); }
    assert EndPayloads(pushes + [p]) == EndPayloads(pushes) by { LastPush(pushes, p); }
    assert Others(w.delivered + [p]) == Others(w.delivered) + [p] by { LastPush(w.delivered, p); }
    assert Others(pushes + [p]) == Others(pushes) + [p] by { LastPush(pushes, p); }
    OneMore(Others(v.delivered), Others(pushes), p);
  }

  // The frame numbers among the broadcasts.
  function FrameNumbers(pushes: seq<Push>, frameNumber: FrameNumber): set<nat> {
    set p | p in pushes && p.operation == FRAME_OP && frameNumber(p.payload).Some? :: frameNumber(p.payload).value
  }

  /** The last frame seen is the greatest number broadcast, or what it was before if none is greater. */
  lemma {:induction false} LastSeenIsGreatest(v: View, bodies: seq<seq<byte>>, frameNumber: FrameNumber)
    ensures var numbers, last := FrameNumbers(Pushes(bodies), frameNumber), Run(v, bodies, frameNumber).lastSeen;
            last in numbers + {v.lastSeen} && forall n :: n in numbers + {v.lastSeen} ==> n <= last
  {
    if bodies != [] {
      var front, body := bodies[..|bodies| - 1], bodies[|bodies| - 1];
      LastSeenIsGreatest(v, front, frameNumber);
      var p := ParseRequestBody(body, 0);
      if p.Ok? {
        var push := Push(p.value.operation, p.value.payload);
        assert |FRAME_OP| != |END_OP|;
        assert FrameNumbers(Pushes(bodies), frameNumber) == FrameNumbers(Pushes(front), frameNumber) +
          if push.operation == FRAME_OP && frameNumber(push.payload).Some? then {frameNumber(push.payload).value} else {};
      }
    }
  }
}
