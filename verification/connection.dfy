/**
 The connection lifecycle of the bridge: `attach`, `reconnect` and `disconnect` over the
 flags `_connected` and `_disconnecting` (src/runtimeInterface.ts:17-18, 252-299). The socket
 and the retry timer are external: their events are the inputs of a step function. Waiting
 times (the 10000 ms retry period, the handshake timeout) are not modelled.
 */
module Connection {

  /** Where the current socket `_ws` is. */
  datatype Phase =
    | NoSocket       // `_ws` was never assigned
    | Dialing        // a socket is handshaking, listeners attached
    | Aborting       // `close()` was called on a handshaking socket; its error is still to come
    | Open           // the socket is open (`readyState === 1`)
    | Closed         // `close()` was called on the open socket
    | Dropped        // the remote side closed the open socket (`readyState === 3`); no listener saw it
    | RetryPending   // a pre-open error removed the listeners; `reconnect` is sleeping
    | Dead           // the retry found `_disconnecting` set and resolved without a socket
    | Crashed        // an error on a connection that had opened was thrown

  datatype Link = Link(connected: bool, disconnecting: bool, phase: Phase)

  /** The bridge as the constructor leaves it. */
  const Initial := Link(false, false, NoSocket)

  datatype Input =
    | Attach        // a call of `attach(host, port)`
    | Opened        // the socket's `open` event
    | Errored       // the socket's `error` event
    | RetryFired    // the end of `reconnect`'s sleep
    | Disconnect    // a call of `disconnect()`
    | PeerClosed    // the socket's `close` event, which has no listener

  datatype Effect =
    | OpenSocket     // `new WebSocket(url, …)` with the listeners attached
    | ScheduleRetry  // `reconnect` starts sleeping
    | ResolveAttach  // the caller's `attach` promise resolves
    | CloseSocket    // `_ws.close()`
    | Fatal          // `throw new Error(…)` from the error listener
    | NoSocketError  // `disconnect` read `close` of an undefined `_ws`

  datatype Moved = Moved(link: Link, effects: seq<Effect>)

  /** What `waitForConnection` waits for. */
  predicate Ready(l: Link)
  {
    l.phase == Open
  }

  /** Phases in which the current socket still has its listeners. */
  predicate Listening(p: Phase)
  {
    p == Dialing || p == Aborting || p == Open || p == Closed || p == Dropped
  }

  /** Facts every reachable link keeps: `_connected` is set exactly by an open. */
  predicate Consistent(l: Link)
  {
    && (l.phase == NoSocket ==> !l.connected)
    && (l.phase == Open || l.phase == Closed || l.phase == Dropped || l.phase == Crashed ==> l.connected)
  }

  /**
   One input. Attach opens a socket unless disconnecting (then it resolves at once); an
   error before any open schedules a retry, after an open it is fatal; a retry re-attaches
   unless disconnecting (then it resolves); disconnect sets the flag and closes the socket.
   A close from the remote side reaches no listener: only the socket stops being open.
   */
  function Step(l: Link, input: Input): (r: Moved)
    ensures l.disconnecting ==> r.link.disconnecting
    ensures l.connected ==> r.link.connected
    ensures input == Disconnect && l.phase != Crashed ==> r.link.disconnecting
    ensures OpenSocket in r.effects ==> !l.disconnecting
    ensures ScheduleRetry in r.effects <==> input == Errored && Listening(l.phase) && !l.connected
    ensures Fatal in r.effects <==> input == Errored && Listening(l.phase) && l.connected
    ensures r.link.connected && !l.connected ==> input == Opened && Ready(r.link)
    ensures input == PeerClosed ==>
      r.effects == [] && r.link.connected == l.connected && r.link.disconnecting == l.disconnecting
    ensures input == PeerClosed && l.phase == Open ==> !Ready(r.link)
    ensures |r.effects| <= 1
    ensures Consistent(l) ==> Consistent(r.link)
  {
    if l.phase == Crashed then Moved(l, [])
    else
      match input
      case Attach =>
        if l.disconnecting then Moved(l, [ResolveAttach])
        else Moved(l.(phase := Dialing), [OpenSocket])
      case Opened =>
        if l.phase == Dialing then Moved(l.(connected := true, phase := Open), [ResolveAttach])
        else Moved(l, [])
      case Errored =>
        if !Listening(l.phase) then Moved(l, [])
        else if !l.connected then Moved(l.(phase := RetryPending), [ScheduleRetry])
        else Moved(l.(phase := Crashed), [Fatal])
      case RetryFired =>
        if l.phase != RetryPending then Moved(l, [])
        else if l.disconnecting then Moved(l.(phase := Dead), [ResolveAttach])
        else Moved(l.(phase := Dialing), [OpenSocket])
      case Disconnect =>
        var d := l.(disconnecting := true);
        (match l.phase
         case NoSocket => Moved(d, [NoSocketError])
         case Dialing => Moved(d.(phase := Aborting), [CloseSocket])
         case Open => Moved(d.(phase := Closed), [CloseSocket])
         case _ => Moved(d, [CloseSocket]))
      case PeerClosed =>
        if l.phase == Open then Moved(l.(phase := Dropped), []) else Moved(l, [])
  }

  /** A run of inputs through any step function, in order, collecting the effects. */
  function RunWith(step: (Link, Input) -> Moved, l: Link, inputs: seq<Input>): Moved
    decreases |inputs|
  {
    if |inputs| == 0 then Moved(l, [])
    else
      var m := step(l, inputs[0]);
      var rest := RunWith(step, m.link, inputs[1..]);
      Moved(rest.link, m.effects + rest.effects)
  }

  /** A run of inputs through the bridge's connection logic. */
  function Run(l: Link, inputs: seq<Input>): Moved
  {
    RunWith(Step, l, inputs)
  }

  lemma {:induction false} RunWithAppend(step: (Link, Input) -> Moved, l: Link, a: seq<Input>, b: seq<Input>)
    ensures RunWith(step, l, a + b).link == RunWith(step, RunWith(step, l, a).link, b).link
    ensures RunWith(step, l, a + b).effects
         == RunWith(step, l, a).effects + RunWith(step, RunWith(step, l, a).link, b).effects
    decreases |a|
  {
    if |a| == 0 {
      assert a + b == b;
    } else {
      var m := step(l, a[0]);
      assert (a + b)[0] == a[0];
      assert (a + b)[1..] == a[1..] + b;
      RunWithAppend(step, m.link, a[1..], b);
      var mid := RunWith(step, m.link, a[1..]);
      var last := RunWith(step, mid.link, b);
      assert m.effects + (mid.effects + last.effects) == (m.effects + mid.effects) + last.effects;
    }
  }

  lemma RunCons(l: Link, inputs: seq<Input>)
    requires |inputs| > 0
    ensures var m := Step(l, inputs[0]);
      Run(l, inputs) == Moved(Run(m.link, inputs[1..]).link, m.effects + Run(m.link, inputs[1..]).effects)
  {
  }

  lemma RunAppend(l: Link, a: seq<Input>, b: seq<Input>)
    ensures Run(l, a + b).link == Run(Run(l, a).link, b).link
    ensures Run(l, a + b).effects == Run(l, a).effects + Run(Run(l, a).link, b).effects
  {
    RunWithAppend(Step, l, a, b);
  }

  /** Every state reachable from a consistent one is consistent. */
  lemma {:induction false} RunKeepsConsistent(l: Link, inputs: seq<Input>)
    requires Consistent(l)
    ensures Consistent(Run(l, inputs).link)
    decreases |inputs|
  {
    if |inputs| > 0 {
      RunKeepsConsistent(Step(l, inputs[0]).link, inputs[1..]);
    }
  }

  /**
   `disconnect` is permanent: once the flag is set it stays set, and no later input opens a
   socket, whatever the inputs.
   */
  lemma {:induction false} DisconnectIsPermanent(l: Link, inputs: seq<Input>)
    requires l.disconnecting
    ensures Run(l, inputs).link.disconnecting
    ensures OpenSocket !in Run(l, inputs).effects
    decreases |inputs|
  {
    if |inputs| > 0 {
      DisconnectIsPermanent(Step(l, inputs[0]).link, inputs[1..]);
    }
  }

  /** `attach` while disconnecting resolves at once and opens nothing. */
  lemma AttachWhileDisconnecting(l: Link)
    requires l.disconnecting && l.phase != Crashed
    ensures Step(l, Attach) == Moved(l, [ResolveAttach])
  {
  }

  /** An error on a socket that opened is fatal, in every reachable state. */
  lemma ErrorAfterOpenIsFatal(inputs: seq<Input>)
    requires Ready(Run(Initial, inputs).link)
    ensures Step(Run(Initial, inputs).link, Errored).effects == [Fatal]
    ensures Step(Run(Initial, inputs).link, Errored).link.phase == Crashed
  {
    RunKeepsConsistent(Initial, inputs);
  }

  /** A handshake that fails `k` times. */
  function Failures(k: nat): seq<Input>
    decreases k
  {
    if k == 0 then [] else [Errored, RetryFired] + Failures(k - 1)
  }

  function RetryEffects(k: nat): (s: seq<Effect>)
    ensures ResolveAttach !in s
    decreases k
  {
    if k == 0 then [] else [ScheduleRetry, OpenSocket] + RetryEffects(k - 1)
  }

  lemma {:induction false} FailuresFromDialing(k: nat)
    ensures Run(Link(false, false, Dialing), Failures(k)) == Moved(Link(false, false, Dialing), RetryEffects(k))
    decreases k
  {
    if k > 0 {
      var d := Link(false, false, Dialing);
      var s := Failures(k);
      assert s[0] == Errored && s[1..] == [RetryFired] + Failures(k - 1);
      assert s[1..][1..] == Failures(k - 1);
      RunCons(d, s);
      var r := Link(false, false, RetryPending);
      assert Step(d, Errored) == Moved(r, [ScheduleRetry]);
      RunCons(r, s[1..]);
      assert Step(r, RetryFired) == Moved(d, [OpenSocket]);
      FailuresFromDialing(k - 1);
    }
  }

  /**
   A handshake that fails `k` times and then succeeds: `attach` retries `k` times, opens
   `k + 1` sockets, and resolves exactly once, after the successful open.
   */
  lemma RetryUntilOpen(k: nat)
    ensures Run(Initial, [Attach] + Failures(k) + [Opened])
         == Moved(Link(true, false, Open), [OpenSocket] + RetryEffects(k) + [ResolveAttach])
    ensures var e := Run(Initial, [Attach] + Failures(k) + [Opened]).effects;
      |e| > 0 && e[|e| - 1] == ResolveAttach && ResolveAttach !in e[..|e| - 1]
  {
    var ins := [Attach] + Failures(k) + [Opened];
    assert ins == [Attach] + (Failures(k) + [Opened]);
    assert ins[1..] == Failures(k) + [Opened];
    RunCons(Initial, ins);
    var d := Link(false, false, Dialing);
    RunCons(Run(d, Failures(k)).link, [Opened]);
    assert [Opened][1..] == [];
    RunAppend(Link(false, false, Dialing), Failures(k), [Opened]);
    FailuresFromDialing(k);
    var e := [OpenSocket] + RetryEffects(k) + [ResolveAttach];
    assert e[..|e| - 1] == [OpenSocket] + RetryEffects(k);
  }

  /**
   A retry that fires after `disconnect` resolves the waiting `attach` without re-attaching,
   and nothing that follows opens a socket.
   */
  lemma DisconnectDuringRetry(l: Link, later: seq<Input>)
    requires l.phase == RetryPending
    ensures var e := Run(l, [Disconnect, RetryFired] + later).effects;
      |e| >= 2 && e[..2] == [CloseSocket, ResolveAttach]
    ensures OpenSocket !in Run(l, [Disconnect, RetryFired] + later).effects
  {
    var ins := [Disconnect, RetryFired] + later;
    var l1 := Step(l, Disconnect).link;
    var l2 := Step(l1, RetryFired).link;
    assert ins[1..] == [RetryFired] + later;
    assert ins[1..][1..] == later;
    RunCons(l, ins);
    RunCons(l1, ins[1..]);
    DisconnectIsPermanent(l2, later);
  }

  /** Phases from which, without a new `attach`, no socket is ever open again. */
  predicate Stalled(l: Link)
  {
    (l.phase == Dropped && l.connected) || l.phase == Crashed
  }

  lemma {:induction false} StalledStays(l: Link, later: seq<Input>)
    requires Stalled(l) && Attach !in later
    ensures Stalled(Run(l, later).link)
    ensures OpenSocket !in Run(l, later).effects && ResolveAttach !in Run(l, later).effects
    decreases |later|
  {
    if |later| > 0 {
      assert later[0] in later;
      assert forall x :: x in later[1..] ==> x in later;
      RunCons(l, later);
      StalledStays(Step(l, later[0]).link, later[1..]);
    }
  }

  /**
   A close from the remote side leaves the bridge not ready, and no later input short of a
   new `attach` makes it ready again: every command then waits in `waitForConnection`
   forever.
   */
  lemma PeerCloseStalls(l: Link, later: seq<Input>)
    requires Consistent(l) && l.phase == Open && Attach !in later
    ensures !Ready(Run(l, [PeerClosed] + later).link)
    ensures OpenSocket !in Run(l, [PeerClosed] + later).effects
  {
    var ins := [PeerClosed] + later;
    assert ins[1..] == later;
    RunCons(l, ins);
    StalledStays(l.(phase := Dropped), later);
  }
}
