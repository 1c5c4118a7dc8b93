/**
 The bodies of the migration glue run alone, with nobody interfering: asking for a switch, the switch loop with its
 migrations, and the bookkeeping of swallowed write errors. How they interleave is the matter of `NetMigrate`.
 */
module FlowConn {
  import opened Basics
  import opened NetMigrate

  // What the network answers to one attempt: no socket, a socket whose hello fails, or a usable socket.
  datatype Attempt = DialFails | HelloFails | Succeeds

  class FlowPacketConn {
    const cfg: Config
    var clock: nat
    var closes: seq<nat>         // how often each socket ever dialled has been closed
    var cur: Endpoint
    var closed: bool
    var switching: bool
    var pending: bool
    var windowStart: Option<nat>
    var lastSwitchAt: Option<nat>
    var swallowSince: Option<nat>
    var switches: nat
    var swallowed: nat
    var dead: Option<DeadReason>
    var deadNotes: nat

    // Exactly the current socket is open, none if the flow is closed; no socket was closed twice.
    predicate Valid()
      reads this
    {
      && cur.sock < |closes|
      && forall x :: 0 <= x < |closes| ==> closes[x] == if x == cur.sock && !closed then 0 else 1
    }

    constructor (cfg: Config, now: nat)
      ensures Valid() && !closed && !switching && dead == None && cur == Endpoint(0, 1) && deadNotes == 0
      ensures this.cfg == cfg && swallowed == 0 && windowStart == None && lastSwitchAt == None
    {
      this.cfg, clock, closes, cur := cfg, now, [0], Endpoint(0, 1);
      closed, switching, pending := false, false, false;
      windowStart, lastSwitchAt, swallowSince := None, None, None;
      switches, swallowed, dead, deadNotes := 0, 0, None, 0;
    }

    // A reading of the clock, which never goes back.
    method Now() returns (now: nat)
      modifies this`clock
      ensures clock == now >= old(clock)
    {
      var d: nat :| true;
      clock := clock + d;
      now := clock;
    }

    method CloseSocket(sock: nat)
      requires sock < |closes|
      modifies this`closes
      ensures closes == old(closes)[sock := old(closes)[sock] + 1]
    {
      closes := closes[sock := closes[sock] + 1];
    }

    /** A request while a switch runs is merged into it; one too soon after the last is dropped; any other opens the window
        and starts a loop. */
    method RequestSwitch() returns (start: bool)
      modifies this`clock, this`switching, this`pending, this`windowStart
      ensures old(clock) <= clock
      ensures start <==> !closed && !old(switching) && !(lastSwitchAt.Some? && clock - lastSwitchAt.value < cfg.retryBase)
      ensures start ==> switching && pending && windowStart == Some(clock)
      ensures !start ==> switching == old(switching) && windowStart == old(windowStart)
      ensures !start ==> pending == (old(pending) || (old(switching) && !closed))
    {
      if closed {
        return false;
      }
      var now := Now();
      if switching {
        pending := true;
        return false;
      }
      if lastSwitchAt.Some? && now - lastSwitchAt.value < cfg.retryBase {
        return false;
      }
      switching, pending, windowStart := true, true, Some(now);
      start := true;
    }

    // Dial, and say hello if the edge wants one; a refused socket is closed.
    method DialEndpoint(attempt: Attempt) returns (sock: Option<nat>)
      modifies this`closes
      ensures sock == if attempt == Succeeds || (attempt == HelloFails && !cfg.edgeHello) then Some(old(|closes|)) else None
      ensures attempt == DialFails ==> closes == old(closes)
      ensures attempt != DialFails ==> closes == old(closes) + [if sock.Some? then 0 else 1]
    {
      if attempt == DialFails {
        return None;
      }
      var dialled := |closes|;
      closes := closes + [0];
      if cfg.edgeHello && attempt == HelloFails {
        CloseSocket(dialled);
        return None;
      }
      sock := Some(dialled);
    }

    // The attempt yields a socket.
    predicate Usable(attempt: Attempt) {
      attempt == Succeeds || (attempt == HelloFails && !cfg.edgeHello)
    }

    /** One migration: a usable socket replaces the current one, which is closed after the replacement, and the swallow
        budget starts anew; a failed attempt leaves the flow on its socket, and a closed flow takes no other. Whatever
        happens, no socket is leaked and none is closed twice. */
    method Migrate(attempt: Attempt) returns (ok: bool)
      requires Valid()
      modifies this`clock, this`closes, this`cur, this`lastSwitchAt, this`swallowed, this`swallowSince, this`switches
      ensures Valid() && old(clock) <= clock && |closes| >= |old(closes)|
      ensures ok == (!closed && Usable(attempt))
      ensures ok ==> cur.sock >= |old(closes)| && cur.gen == old(cur).gen + 1 && switches == old(switches) + 1
      ensures ok ==> swallowed == 0 && swallowSince == None && lastSwitchAt == Some(clock)
      ensures !ok ==> cur == old(cur) && switches == old(switches) && swallowed == old(swallowed)
      ensures !ok ==> swallowSince == old(swallowSince)
      ensures !Usable(attempt) ==> lastSwitchAt == Some(clock)
      ensures closed && Usable(attempt) ==> lastSwitchAt == old(lastSwitchAt)
    {
      var sock := DialEndpoint(attempt);
      if sock == None {
        var now := Now();
        lastSwitchAt := Some(now);
        return false;
      }
      if closed {
        CloseSocket(sock.value);
        return false;
      }
      var prev := cur;
      cur := Endpoint(sock.value, prev.gen + 1);
      CloseSocket(prev.sock);
      swallowed, swallowSince := 0, None;
      var now := Now();
      lastSwitchAt := Some(now);
      switches := switches + 1;
      ok := true;
    }

    /** The switch loop on a request just taken, with no other merged in: it tries once, and once more if the first attempt
        fails on an open flow; it ends with the flow on a new generation if an attempt succeeded and untouched if none did. */
    method SwitchLoop(network: nat -> Attempt) returns (attempts: nat)
      requires Valid() && switching && pending
      modifies this`clock, this`closes, this`cur, this`switching, this`pending,
               this`lastSwitchAt, this`swallowed, this`swallowSince, this`switches
      ensures Valid() && !switching
      ensures attempts == if closed || Usable(network(0)) then 1 else 2
      ensures var ok := !closed && (Usable(network(0)) || Usable(network(1)));
              && cur.gen == old(cur).gen + (if ok then 1 else 0) && switches == old(switches) + (if ok then 1 else 0)
              && (ok ==> cur.sock >= |old(closes)| && swallowed == 0 && swallowSince == None && !pending)
              && (!ok ==> cur == old(cur) && swallowed == old(swallowed) && swallowSince == old(swallowSince))
    {
      attempts := 0;
      while true
        invariant Valid() && switching
        invariant attempts <= 1 && (attempts == 0 <==> pending)
        invariant attempts == 1 ==> !closed && !Usable(network(0))
        invariant cur == old(cur) && switches == old(switches) && swallowed == old(swallowed) && swallowSince == old(swallowSince)
        invariant |closes| >= |old(closes)|
        decreases 2 - attempts
      {
        var ok := Migrate(network(attempts));
        attempts := attempts + 1;
        if ok {
          pending := false;
        }
        if !pending || closed {
          switching := false;
          return;
        }
        pending := false;
      }
    }

    /** Death is marked once and counted once; whoever marks later learns the first reason. */
    method MarkDead(reason: DeadReason) returns (first: DeadReason)
      modifies this`dead, this`deadNotes
      ensures dead == Some(first) && first == (if old(dead) == None then reason else old(dead).value)
      ensures deadNotes == old(deadNotes) + if old(dead) == None then 1 else 0
    {
      if dead == None {
        dead := Some(reason);
        deadNotes := deadNotes + 1;
      }
      first := dead.value;
    }

    // Counts a swallowed error and judges the flow.
    method NoteSwallowed()
      modifies this`clock, this`swallowed, this`swallowSince, this`dead, this`deadNotes
      ensures old(clock) <= clock && swallowed == old(swallowed) + 1
      ensures swallowSince == Some(if old(swallowSince) == None then clock else old(swallowSince).value)
      ensures old(dead).Some? ==> dead == old(dead) && deadNotes == old(deadNotes)
      ensures old(dead) == None ==>
                if swallowed > cfg.swallowMax || clock - swallowSince.value > 2 * cfg.window
                then dead == Some(DeadSwallow) && deadNotes == old(deadNotes) + 1
                else dead == None && deadNotes == old(deadNotes)
    {
      swallowed := swallowed + 1;
      var now := Now();
      if swallowSince == None {
        swallowSince := Some(now);
      }
      if swallowed > cfg.swallowMax || now - swallowSince.value > 2 * cfg.window {
        var first := MarkDead(DeadSwallow);
      }
    }

    /** A write error asks for a switch, and is swallowed exactly if it falls within the window of a switch, perhaps the one
        it asked for. A swallowed error kills a living flow exactly if it is one too many or errors have gone on for more
        than twice the window; an error passed up changes neither the count nor the verdict. */
    method OnWriteError() returns (swallow: bool, at: nat)
      modifies this`clock, this`switching, this`pending, this`windowStart, this`swallowed, this`swallowSince,
               this`dead, this`deadNotes
      ensures old(clock) <= at <= clock
      ensures swallow <==> windowStart.Some? && at - windowStart.value <= cfg.window
      ensures swallowed == old(swallowed) + if swallow then 1 else 0
      ensures !swallow || old(dead).Some? ==> dead == old(dead) && deadNotes == old(deadNotes)
      ensures swallow ==> swallowSince == Some(if old(swallowSince) == None then clock else old(swallowSince).value)
      ensures swallow && old(dead) == None ==>
                if swallowed > cfg.swallowMax || clock - swallowSince.value > 2 * cfg.window
                then dead == Some(DeadSwallow) && deadNotes == old(deadNotes) + 1
                else dead == None && deadNotes == old(deadNotes)
    {
      var start := RequestSwitch();
      at := Now();
      swallow := windowStart.Some? && at - windowStart.value <= cfg.window;
      if swallow {
        NoteSwallowed();
      }
    }

    /** Closing is idempotent: it closes the current socket once and keeps the endpoint. */
    method Close()
      requires Valid()
      modifies this`closed, this`closes
      ensures Valid() && closed && cur == old(cur)
    {
      if closed {
        return;
      }
      closed := true;
      CloseSocket(cur.sock);
    }
  }
}
