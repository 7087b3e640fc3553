/**
 The inbound dispatcher `handleMessage` (src/runtimeInterface.ts:207-241) as a pure step
 from the pending table and one parsed frame to the new table and what the step did.
 */
module Dispatcher {
  import opened Wrappers
  import opened Json
  import opened Protocol
  import opened Correlator

  /** One `emit(event, args)` queued by `sendEvent` (deferred with `setImmediate`). */
  datatype Published = Published(event: Value, args: Value)

  /** One call of a pending `resolve` function with the reply's `content.data`. */
  datatype Resolution = Resolution(id: string, handler: Awaited, data: Value)

  /** What `handleMessage` throws. */
  datatype Fault =
    | RemoteError(error: Value)   // `throw new Error(data.content.error)`
    | TypeError                   // a property read on null or undefined `content`

  datatype Effects =
    | Handled(outbound: seq<Envelope>, published: seq<Published>, resolved: seq<Resolution>)
    | Raised(fault: Fault)

  /** The table after the step, and what the step sent, published, resolved or threw. */
  datatype Dispatched = Dispatched(table: Table, effects: Effects)

  const Quiet := Handled([], [], [])

  /** The five shapes of inbound frame, plus frames whose `content` cannot be read. */
  datatype Shape = EventPush | PingProbe | UnknownPush | ErrorReply | DataReply | Unreadable

  /** The shape of a frame, in the order `handleMessage` tests it. */
  function Classify(f: Envelope): Shape
  {
    if f.isRequest && f.kind == "event" then
      if Nullish(f.content) then Unreadable else EventPush
    else if f.isRequest && f.kind == "ping" then PingProbe
    else if f.isRequest then UnknownPush
    else if Nullish(f.content) then Unreadable
    else if Truthy(Prop(f.content, "error")) then ErrorReply
    else DataReply
  }

  /**
   `handleMessage` on one frame. A ping is echoed, an event is published, other pushes are
   ignored, an error reply throws before anything is deleted, and a data reply resolves its
   pending entry, if any, and deletes its id.
   */
  function Dispatch(table: Table, f: Envelope): (r: Dispatched)
    ensures Classify(f) == PingProbe ==> r == Dispatched(table, Handled([PingReply(f.id)], [], []))
    ensures Classify(f) == EventPush ==>
      r == Dispatched(table, Handled([], [Published(Prop(f.content, "event"), Prop(f.content, "args"))], []))
    ensures Classify(f) == UnknownPush ==> r == Dispatched(table, Quiet)
    ensures Classify(f) == ErrorReply ==> r == Dispatched(table, Raised(RemoteError(Prop(f.content, "error"))))
    ensures Classify(f) == Unreadable ==> r == Dispatched(table, Raised(TypeError))
    ensures Classify(f) == DataReply ==>
      && r.table == table - {f.id}
      && r.effects.Handled? && r.effects.outbound == [] && r.effects.published == []
      && r.effects.resolved == (if f.id in table then [Resolution(f.id, table[f.id], Prop(f.content, "data"))] else [])
    ensures r.table.Keys <= table.Keys
    ensures forall k :: k in r.table ==> r.table[k] == table[k]
    ensures r.effects.Raised? ==> r.table == table
  {
    var content := f.content;
    if f.isRequest then
      if f.kind == "event" then
        if Nullish(content) then Dispatched(table, Raised(TypeError))
        else Dispatched(table, Handled([], [Published(Prop(content, "event"), Prop(content, "args"))], []))
      else if f.kind == "ping" then
        Dispatched(table, Handled([PingReply(f.id)], [], []))
      else
        Dispatched(table, Quiet)
    else if Nullish(content) then
      Dispatched(table, Raised(TypeError))
    else if Truthy(Prop(content, "error")) then
      Dispatched(table, Raised(RemoteError(Prop(content, "error"))))
    else
      var resolved := if f.id in table then [Resolution(f.id, table[f.id], Prop(content, "data"))] else [];
      Dispatched(table - {f.id}, Handled([], [], resolved))
  }

  /** A ping probe is answered by exactly one ping reply and touches nothing else. */
  lemma PingEcho(table: Table, f: Envelope)
    requires f.isRequest && f.kind == "ping"
    ensures var r := Dispatch(table, f);
      && r.table == table
      && r.effects.Handled?
      && r.effects.outbound == [Envelope(f.id, false, "ping", Obj(map[]))]
      && r.effects.published == [] && r.effects.resolved == []
  {
  }

  /** An event push publishes exactly its `content.event` and `content.args`. */
  lemma EventForwarding(table: Table, f: Envelope)
    requires f.isRequest && f.kind == "event" && f.content.Obj?
    ensures var r := Dispatch(table, f);
      && r.table == table
      && r.effects.Handled?
      && r.effects.published == [Published(Prop(f.content, "event"), Prop(f.content, "args"))]
      && r.effects.outbound == [] && r.effects.resolved == []
  {
  }

  /** Any other push type is ignored. */
  lemma UnknownPushIgnored(table: Table, f: Envelope)
    requires f.isRequest && f.kind != "event" && f.kind != "ping"
    ensures Dispatch(table, f) == Dispatched(table, Handled([], [], []))
  {
  }

  /** A data reply to a pending id runs that id's handler once, then forgets only that id. */
  lemma CorrelatedReply(table: Table, f: Envelope)
    requires !f.isRequest && f.content.Obj? && !Truthy(Prop(f.content, "error"))
    requires f.id in table
    ensures var r := Dispatch(table, f);
      && r.effects == Handled([], [], [Resolution(f.id, table[f.id], Prop(f.content, "data"))])
      && f.id !in r.table
      && r.table.Keys == table.Keys - {f.id}
      && forall k :: k in table && k != f.id ==> k in r.table && r.table[k] == table[k]
  {
  }

  /** A data reply to an id that is not pending runs nothing and changes nothing. */
  lemma UnmatchedReply(table: Table, f: Envelope)
    requires !f.isRequest && f.content.Obj? && !Truthy(Prop(f.content, "error"))
    requires f.id !in table
    ensures Dispatch(table, f) == Dispatched(table, Handled([], [], []))
  {
  }

  /**
   An error reply throws with its `content.error` before the delete is reached, so the
   pending entry of its id stays in the table and its handler never runs.
   */
  lemma ErrorReplyKeepsEntry(table: Table, f: Envelope)
    requires !f.isRequest && f.content.Obj? && Truthy(Prop(f.content, "error"))
    ensures Dispatch(table, f) == Dispatched(table, Raised(RemoteError(Prop(f.content, "error"))))
    ensures f.id in table ==> f.id in Dispatch(table, f).table
  {
  }

  /** A reply is resolved at most once: a second copy of the same reply resolves nothing. */
  lemma ReplyResolvesOnce(table: Table, f: Envelope)
    requires !f.isRequest && f.content.Obj? && !Truthy(Prop(f.content, "error"))
    ensures var first := Dispatch(table, f);
      Dispatch(first.table, f) == Dispatched(first.table, Handled([], [], []))
  {
  }

  /**
   What a run of frames did: the table after it, everything the frames before the first
   throw sent, published and resolved, and that throw, if any.
   */
  datatype Drained = Drained(
    table: Table,
    outbound: seq<Envelope>,
    published: seq<Published>,
    resolved: seq<Resolution>,
    fault: Option<Fault>)

  /** A run of frames through any step function, stopping at the first frame that throws. */
  function DrainWith(step: (Table, Envelope) -> Dispatched, table: Table, frames: seq<Envelope>): Drained
    decreases |frames|
  {
    if |frames| == 0 then Drained(table, [], [], [], None)
    else
      var d := step(table, frames[0]);
      match d.effects
      case Raised(e) => Drained(table, [], [], [], Some(e))
      case Handled(o, p, s) =>
        var rest := DrainWith(step, d.table, frames[1..]);
        Drained(rest.table, o + rest.outbound, p + rest.published, s + rest.resolved, rest.fault)
  }

  /**
   `handleMessage` on a run of frames, in arrival order, stopping at the first frame that
   throws. The work of the frames before it stays done and reported; the table is what it
   was before the throwing frame.
   */
  function Drain(table: Table, frames: seq<Envelope>): Drained
  {
    DrainWith(Dispatch, table, frames)
  }

  /** One step of the fold past a frame that did not throw. */
  lemma DrainWithHandled(step: (Table, Envelope) -> Dispatched, table: Table, frames: seq<Envelope>)
    requires |frames| > 0 && step(table, frames[0]).effects.Handled?
    ensures var d := step(table, frames[0]);
      var rest := DrainWith(step, d.table, frames[1..]);
      DrainWith(step, table, frames)
        == Drained(rest.table, d.effects.outbound + rest.outbound, d.effects.published + rest.published,
                   d.effects.resolved + rest.resolved, rest.fault)
  {
  }

  lemma Regroup<T>(x: seq<T>, y: seq<T>, z: seq<T>)
    ensures x + (y + z) == (x + y) + z
  {
  }

  lemma {:induction false} DrainWithAppend(step: (Table, Envelope) -> Dispatched, table: Table, a: seq<Envelope>, b: seq<Envelope>)
    requires DrainWith(step, table, a).fault.None?
    ensures var ra := DrainWith(step, table, a);
      var rb := DrainWith(step, ra.table, b);
      DrainWith(step, table, a + b)
        == Drained(rb.table, ra.outbound + rb.outbound, ra.published + rb.published,
                   ra.resolved + rb.resolved, rb.fault)
    decreases |a|
  {
    if |a| == 0 {
      assert a + b == b;
    } else {
      var d := step(table, a[0]);
      assert d.effects.Handled?;
      assert (a + b)[0] == a[0];
      assert (a + b)[1..] == a[1..] + b;
      DrainWithHandled(step, table, a);
      DrainWithHandled(step, table, a + b);
      DrainWithAppend(step, d.table, a[1..], b);
      var mid := DrainWith(step, d.table, a[1..]);
      var last := DrainWith(step, mid.table, b);
      Regroup(d.effects.outbound, mid.outbound, last.outbound);
      Regroup(d.effects.published, mid.published, last.published);
      Regroup(d.effects.resolved, mid.resolved, last.resolved);
    }
  }

  /**
   A run splits at any point before a throw: the frames that come later add their own
   effects after everything the earlier frames did, so a later throw takes back none of it.
   */
  lemma DrainAppend(table: Table, a: seq<Envelope>, b: seq<Envelope>)
    requires Drain(table, a).fault.None?
    ensures var ra := Drain(table, a);
      var rb := Drain(ra.table, b);
      Drain(table, a + b)
        == Drained(rb.table, ra.outbound + rb.outbound, ra.published + rb.published,
                   ra.resolved + rb.resolved, rb.fault)
  {
    DrainWithAppend(Dispatch, table, a, b);
  }

  /**
   A reply that resolved its caller stays reported when the next frame throws: the run
   shows both the resolution and the fault, and the resolved id is gone from the table.
   */
  lemma ResolvedBeforeThrow(table: Table, f: Envelope, g: Envelope)
    requires IsDataReply(f) && f.id in table
    requires Dispatch(table - {f.id}, g).effects.Raised?
    ensures Drain(table, [f, g])
         == Drained(table - {f.id}, [], [], [Resolution(f.id, table[f.id], Prop(f.content, "data"))],
                    Some(Dispatch(table - {f.id}, g).effects.fault))
  {
    var t1 := table - {f.id};
    assert [f][1..] == [];
    assert Drain(t1, []) == Drained(t1, [], [], [], None);
    DrainDataReply(table, [f]);
    assert [f, g] == [f] + [g];
    DrainAppend(table, [f], [g]);
    assert [g] + [] == [g];
    DrainStopsAtThrow(t1, g, []);
  }

  /** A frame that throws ends the run there: it and the frames after it do nothing. */
  lemma DrainStopsAtThrow(table: Table, f: Envelope, later: seq<Envelope>)
    requires Dispatch(table, f).effects.Raised?
    ensures Drain(table, [f] + later)
         == Drained(table, [], [], [], Some(Dispatch(table, f).effects.fault))
  {
    assert ([f] + later)[0] == f;
  }

  predicate IsDataReply(f: Envelope)
  {
    !f.isRequest && f.content.Obj? && !Truthy(Prop(f.content, "error"))
  }

  function IdsOf(frames: seq<Envelope>): set<string>
  {
    set i | 0 <= i < |frames| :: frames[i].id
  }

  predicate DistinctIds(frames: seq<Envelope>)
  {
    forall i, j :: 0 <= i < j < |frames| ==> frames[i].id != frames[j].id
  }

  /** One data reply to a pending id, in the shape the correlation proof uses. */
  lemma DataReplyStep(table: Table, f: Envelope)
    requires IsDataReply(f) && f.id in table
    ensures Dispatch(table, f)
         == Dispatched(table - {f.id}, Handled([], [], [Resolution(f.id, table[f.id], Prop(f.content, "data"))]))
  {
    assert Classify(f) == DataReply;
  }

  lemma IdsOfCons(frames: seq<Envelope>)
    requires |frames| > 0
    ensures IdsOf(frames) == {frames[0].id} + IdsOf(frames[1..])
  {
    var tail := frames[1..];
    forall x | x in IdsOf(frames) ensures x in {frames[0].id} + IdsOf(tail) {
      var i :| 0 <= i < |frames| && frames[i].id == x;
      if i > 0 { assert tail[i - 1] == frames[i]; }
    }
    forall x | x in IdsOf(tail) ensures x in IdsOf(frames) {
      var i :| 0 <= i < |tail| && tail[i].id == x;
      assert frames[i + 1] == tail[i];
    }
  }

  /** `Drain` past a leading data reply to a pending id. */
  lemma DrainDataReply(table: Table, frames: seq<Envelope>)
    requires |frames| > 0 && IsDataReply(frames[0]) && frames[0].id in table
    ensures var f := frames[0];
      var rest := Drain(table - {f.id}, frames[1..]);
      Drain(table, frames)
        == Drained(rest.table, rest.outbound, rest.published,
                   [Resolution(f.id, table[f.id], Prop(f.content, "data"))] + rest.resolved, rest.fault)
  {
    DataReplyStep(table, frames[0]);
    var rest := Drain(table - {frames[0].id}, frames[1..]);
    var none: seq<Envelope> := [];
    var unpublished: seq<Published> := [];
    assert none + rest.outbound == rest.outbound;
    assert unpublished + rest.published == rest.published;
  }

  /** The replies after the first still meet the correlation lemma's requirements. */
  lemma RepliesTail(table: Table, frames: seq<Envelope>)
    requires |frames| > 0
    requires forall i :: 0 <= i < |frames| ==> IsDataReply(frames[i]) && frames[i].id in table
    requires DistinctIds(frames)
    ensures forall i :: 0 <= i < |frames[1..]| ==>
      IsDataReply(frames[1..][i]) && frames[1..][i].id in table - {frames[0].id}
    ensures DistinctIds(frames[1..])
  {
    var tail := frames[1..];
    forall i | 0 <= i < |tail|
      ensures IsDataReply(tail[i]) && tail[i].id in table - {frames[0].id}
    {
      assert tail[i] == frames[i + 1];
    }
    forall i, j | 0 <= i < j < |tail| ensures tail[i].id != tail[j].id {
      assert tail[i] == frames[i + 1] && tail[j] == frames[j + 1];
    }
  }

  /**
   Correlation: data replies to distinct pending ids, arriving in any order, resolve each
   id's own handler exactly once, in arrival order, with that reply's data; the table loses
   exactly those ids; nothing is sent or published.
   */
  lemma {:induction false} RepliesResolveTheirCallers(table: Table, frames: seq<Envelope>)
    requires forall i :: 0 <= i < |frames| ==> IsDataReply(frames[i]) && frames[i].id in table
    requires DistinctIds(frames)
    ensures var r := Drain(table, frames);
      && r.table == table - IdsOf(frames)
      && r.fault == None
      && r.outbound == [] && r.published == []
      && |r.resolved| == |frames|
      && forall i :: 0 <= i < |frames| ==>
           r.resolved[i] == Resolution(frames[i].id, table[frames[i].id], Prop(frames[i].content, "data"))
    decreases |frames|
  {
    if |frames| > 0 {
      var f := frames[0];
      var t1 := table - {f.id};
      var tail := frames[1..];
      RepliesTail(table, frames);
      RepliesResolveTheirCallers(t1, tail);
      DrainDataReply(table, frames);
      IdsOfCons(frames);
      var rest := Drain(t1, tail);
      var all := [Resolution(f.id, table[f.id], Prop(f.content, "data"))] + rest.resolved;
      forall i | 1 <= i < |frames|
        ensures all[i] == Resolution(frames[i].id, table[frames[i].id], Prop(frames[i].content, "data"))
      {
        assert frames[i] == tail[i - 1];
      }
    }
  }
}
