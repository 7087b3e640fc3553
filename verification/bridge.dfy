/**
 The bridge object `SdbRuntimeInterface` as a whole: its connection and its pending table.
 Every command builder first waits for the socket to be open (`waitForConnection`,
 src/runtimeInterface.ts:243-250); here that wait is the precondition `Ready`.
 */
module Bridge {
  import opened Wrappers
  import opened Json
  import opened Protocol
  import opened Correlator
  import opened Dispatcher
  import opened Connection

  datatype Bridge = Bridge(link: Link, table: Table)

  /** A command builder once the connection is ready: the connection state is not touched. */
  function Send(b: Bridge, c: Command, id: string): (r: (Bridge, Envelope))
    requires Ready(b.link)
    requires id !in b.table
    ensures r.0.link == b.link
    ensures r.1.id == id && r.1.isRequest && Decode(r.1) == Some(c)
    ensures Awaiting(c).Some? <==> id in r.0.table
    ensures forall k :: k in b.table ==> k in r.0.table && r.0.table[k] == b.table[k]
  {
    var issued := Issue(b.table, c, id);
    (Bridge(b.link, issued.table), issued.frame)
  }

  /** A frame arriving on the open socket goes to `handleMessage`. */
  function Receive(b: Bridge, f: Envelope): (r: (Bridge, Effects))
    requires Ready(b.link)
    ensures r.0.link == b.link
    ensures r.0.table.Keys <= b.table.Keys
    ensures r.1.Raised? ==> r.0.table == b.table
  {
    var d := Dispatch(b.table, f);
    (Bridge(b.link, d.table), d.effects)
  }

  /**
   A `setBreakpoint` answered by a data reply under its id resolves the breakpoint promise
   with the reply's `content.data`, and leaves the table as it was before the command.
   */
  lemma SetBreakpointRoundTrip(b: Bridge, path: string, line: int, id: string, data: Value)
    requires Ready(b.link) && id !in b.table
    ensures var (b1, f) := Send(b, SetBreakpoint(path, line), id);
      var reply := Envelope(id, false, "setBreakpoint", Obj(map["data" := data]));
      Receive(b1, reply) == (b, Handled([], [], [Resolution(id, BreakpointReply, data)]))
  {
    var (b1, f) := Send(b, SetBreakpoint(path, line), id);
    var reply := Envelope(id, false, "setBreakpoint", Obj(map["data" := data]));
    assert Prop(reply.content, "error") == Undefined;
    assert b1.table - {id} == b.table;
  }

  /**
   The commands `cs` issued one after the other under the distinct fresh ids `ids`, before
   any reply arrives: the table gains exactly the ids of the awaited commands, each with its
   own command's resolve function, and keeps every older entry.
   */
  function IssueAll(table: Table, cs: seq<Command>, ids: seq<string>): (t: Table)
    requires |cs| == |ids|
    requires forall i :: 0 <= i < |ids| ==> ids[i] !in table
    requires forall i, j :: 0 <= i < j < |ids| ==> ids[i] != ids[j]
    ensures forall k :: k in table ==> k in t && t[k] == table[k]
    ensures forall k :: k in t ==> k in table || k in ids
    ensures forall i :: 0 <= i < |ids| && Awaiting(cs[i]).Some? ==> ids[i] in t && t[ids[i]] == Awaiting(cs[i]).value
    ensures forall i :: 0 <= i < |ids| && Awaiting(cs[i]).None? ==> ids[i] !in t
    decreases |cs|
  {
    if |cs| == 0 then table
    else
      var t1 := Issue(table, cs[0], ids[0]).table;
      assert forall i :: 1 <= i < |ids| ==> ids[1..][i - 1] == ids[i] && cs[1..][i - 1] == cs[i];
      IssueAll(t1, cs[1..], ids[1..])
  }

  /**
   Correlation is a bijection between issued ids and resolved handlers. After awaited
   commands are issued under distinct fresh ids, data replies carrying exactly those ids,
   each once, in any order, resolve every reply with the handler of the command that used its
   id, and the table is back to what it was before the commands.
   */
  lemma ConcurrentRequestsCorrelate(table: Table, cs: seq<Command>, ids: seq<string>, replies: seq<Envelope>)
    requires |cs| == |ids|
    requires forall i :: 0 <= i < |cs| ==> Awaiting(cs[i]).Some?
    requires forall i :: 0 <= i < |ids| ==> ids[i] !in table
    requires forall i, j :: 0 <= i < j < |ids| ==> ids[i] != ids[j]
    requires forall j :: 0 <= j < |replies| ==> IsDataReply(replies[j]) && replies[j].id in ids
    requires forall i :: 0 <= i < |ids| ==> ids[i] in IdsOf(replies)
    requires DistinctIds(replies)
    ensures var r := Drain(IssueAll(table, cs, ids), replies);
      && r.table == table
      && r.fault == None
      && |r.resolved| == |replies|
      && forall j, i :: 0 <= j < |replies| && 0 <= i < |ids| && replies[j].id == ids[i] ==>
           r.resolved[j] == Resolution(ids[i], Awaiting(cs[i]).value, Prop(replies[j].content, "data"))
  {
    var t1 := IssueAll(table, cs, ids);
    forall j | 0 <= j < |replies| ensures replies[j].id in t1 {
      var i :| 0 <= i < |ids| && ids[i] == replies[j].id;
    }
    RepliesResolveTheirCallers(t1, replies);
    forall k | k in IdsOf(replies) ensures k in ids {
      var j :| 0 <= j < |replies| && replies[j].id == k;
    }
    RemoveIssued(table, t1, ids, IdsOf(replies));
  }

  /** Removing exactly the freshly added ids gives back the table they were added to. */
  lemma RemoveIssued(table: Table, t1: Table, ids: seq<string>, gone: set<string>)
    requires forall k :: k in table ==> k in t1 && t1[k] == table[k]
    requires forall k :: k in t1 ==> k in table || k in ids
    requires forall i :: 0 <= i < |ids| ==> ids[i] !in table && ids[i] in gone
    requires forall k :: k in gone ==> k in ids
    ensures t1 - gone == table
  {
    forall k | k in gone ensures k !in table {
      var i :| 0 <= i < |ids| && ids[i] == k;
    }
  }
}
