/**
 The pending-request table `_debuggerMessages` and the command builders that fill it
 (src/runtimeInterface.ts:15, 28-205). The uuid a builder draws is a parameter, fresh for
 the table.
 */
module Correlator {
  import opened Wrappers
  import opened Protocol

  /** Which awaited builder's `resolve` function a pending entry holds. */
  datatype Awaited = BreakpointReply | StackReply | VariablesReply | EvaluateReply

  /** Pending ids and the resolve function registered under each. */
  type Table = map<string, Awaited>

  /**
   The four awaited builders register their `resolve`; `clearBreakpoints` and the six
   `uiAction` builders are fire-and-forget.
   */
  function Awaiting(c: Command): Option<Awaited>
  {
    match c
    case SetBreakpoint(_, _) => Some(BreakpointReply)
    case Stack(_, _) => Some(StackReply)
    case Variables(_) => Some(VariablesReply)
    case Evaluate(_, _, _) => Some(EvaluateReply)
    case ClearBreakpoints(_) => None
    case Ui(_) => None
  }

  /** The result of one command builder: the new table and the frame it sent. */
  datatype Issued = Issued(table: Table, frame: Envelope)

  /**
   One command builder, sending `c` under the uuid `id`, fresh for the table whenever the
   builder registers it. The frame is a request under
   `id`; an awaited command adds exactly its own id, with its own resolve function, and keeps
   every other entry; a fire-and-forget command leaves the table as it was.
   */
  function Issue(table: Table, c: Command, id: string): (r: Issued)
    requires Awaiting(c).Some? ==> id !in table
    ensures r.frame.id == id && r.frame.isRequest && Decode(r.frame) == Some(c)
    ensures Awaiting(c).Some? ==> r.table.Keys == table.Keys + {id} && r.table[id] == Awaiting(c).value
    ensures Awaiting(c).None? ==> r.table == table
    ensures forall k :: k in table ==> k in r.table && r.table[k] == table[k]
  {
    var f := Frame(c, id);
    match Awaiting(c)
    case Some(h) => Issued(table[id := h], f)
    case None => Issued(table, f)
  }

  /** Exactly the awaited commands leave a pending entry behind. */
  lemma IssueRegistersIffAwaited(table: Table, c: Command, id: string)
    requires id !in table
    ensures id in Issue(table, c, id).table <==> (c.SetBreakpoint? || c.Stack? || c.Variables? || c.Evaluate?)
  {
  }
}
