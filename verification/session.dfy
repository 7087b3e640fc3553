/**
 The debug-adapter session `SolidityDebugSession` (src/sdbDebug.ts): each front-end request
 handler as a translation into calls on the debugger runtime and messages back to the front
 end, and the mapping of runtime events to front-end events.

 The runtime (`LibSdbRuntime`) is not part of this model: it is a record of function values
 over its own state `S`. The `vscode-debugadapter` line, column and path conversions and
 `path.basename` are function values too.
 */
module Session {
  import opened Wrappers
  import opened Json
  import Text

  /** The one thread the adapter reports. */
  const ThreadId: int := 1
  const ThreadName: string := "thread 1"

  /** What the runtime reports for one breakpoint. */
  datatype RtBreakpoint = RtBreakpoint(verified: bool, line: int, id: int)
  datatype RtFrame = RtFrame(index: int, name: string, file: string, line: int)
  datatype RtStack = RtStack(frames: seq<RtFrame>, count: int)

  /** The calls a handler makes on the runtime, with their arguments. */
  datatype RuntimeCall =
    | ClearBreakpoints(path: string)
    | SetBreakPoint(path: string, line: int)
    | Stack(startFrame: int, endFrame: int)
    | Variables
    | Continue(reverse: Option<bool>)
    | StepOver(reverse: Option<bool>)
    | StepIn
    | StepOut
    | Evaluate(expression: string, context: Option<string>, frameId: Option<int>)
    | Serve(host: string, port: int)
    | Start(stopOnEntry: bool)

  /**
   The runtime: how each call changes its state, and the answers of the calls that return
   something, read from the state the call is made in.
   */
  datatype Runtime<!S> = Runtime(
    perform: (S, RuntimeCall) -> S,
    breakpointFor: (S, string, int) -> RtBreakpoint,
    stackFor: (S, int, int) -> RtStack,
    variablesFor: S -> seq<Value>)

  /** The conversions the adapter library applies between runtime and front-end positions. */
  datatype Adapter = Adapter(
    lineToDebugger: int -> int,
    lineToClient: int -> int,
    columnToClient: int -> int,
    pathToClient: string -> string,
    basename: string -> string)

  datatype Source = Source(name: string, path: string, adapterData: string)
  datatype Breakpoint = Breakpoint(verified: bool, line: int, id: int)
  datatype Thread = Thread(id: int, name: string)
  datatype StackFrame = StackFrame(id: int, name: string, source: Source, line: int)
  datatype Scope = Scope(name: string, variablesReference: int, expensive: bool)

  datatype ClientEvent =
    | Initialized
    | Stopped(reason: string, threadId: int)
    | BreakpointChanged(reason: string, verified: bool, id: int)
    | Output(output: string, source: Source, line: int, column: int)
    | Terminated

  /** The response bodies the handlers fill in; `NoBody` is a response sent as it came. */
  datatype Body =
    | Capabilities(fields: map<string, Value>)
    | Breakpoints(breakpoints: seq<Breakpoint>)
    | Threads(threads: seq<Thread>)
    | StackTrace(stackFrames: seq<StackFrame>, totalFrames: int)
    | Scopes(scopes: seq<Scope>)
    | VariableList(variables: seq<Value>)
    | EvaluateResult(result: Value, variablesReference: int)
    | NoBody

  /** A message to the front end: `sendEvent` or `sendResponse`. */
  datatype Outgoing = Event(event: ClientEvent) | Response(body: Body)

  /** What one handler did: the runtime state after it, its runtime calls and its messages. */
  datatype Turn<S> = Turn(runtime: S, calls: seq<RuntimeCall>, sent: seq<Outgoing>)

  /** The runtime state after a sequence of calls. */
  function Replay<S>(rt: Runtime<S>, s: S, calls: seq<RuntimeCall>): S
    decreases |calls|
  {
    if |calls| == 0 then s else rt.perform(Replay(rt, s, calls[..|calls| - 1]), calls[|calls| - 1])
  }

  lemma ReplaySnoc<S>(rt: Runtime<S>, s: S, calls: seq<RuntimeCall>, c: RuntimeCall)
    ensures Replay(rt, s, calls + [c]) == rt.perform(Replay(rt, s, calls), c)
  {
    assert (calls + [c])[..|calls|] == calls;
  }

  /** `createSource`. */
  function SourceOf(ad: Adapter, filePath: string): Source
  {
    Source(ad.basename(filePath), ad.pathToClient(filePath), "mock-adapter-data")
  }

  // ---- the event handlers registered by the constructor

  /** What the runtime emits. `Other` is any event name the session has no listener for. */
  datatype RuntimeEvent =
    | StopOnEntry
    | StopOnStepOver
    | StopOnStepIn
    | StopOnStepOut
    | StopOnBreakpoint
    | StopOnException
    | BreakpointValidated(bp: RtBreakpoint)
    | OutputText(text: string, filePath: string, line: int, column: int)
    | End
    | Other(name: string)

  /** The stop reason of each stop event. */
  function StopReason(e: RuntimeEvent): Option<string>
  {
    match e
    case StopOnEntry => Some("entry")
    case StopOnStepOver => Some("step")
    case StopOnStepIn => Some("stepin")
    case StopOnStepOut => Some("stepout")
    case StopOnBreakpoint => Some("breakpoint")
    case StopOnException => Some("exception")
    case _ => None
  }

  /**
   The listener for one runtime event. A stop event becomes one stopped event on thread 1
   with its reason, `end` becomes one terminated event, a validated breakpoint becomes a
   `changed` breakpoint event, output becomes an output event with a newline appended, and an
   event without a listener sends nothing.
   */
  function OnRuntimeEvent(ad: Adapter, e: RuntimeEvent): (r: seq<ClientEvent>)
    ensures StopReason(e).Some? ==> r == [Stopped(StopReason(e).value, ThreadId)]
    ensures e.End? ==> r == [Terminated]
    ensures e.Other? ==> r == []
    ensures e.BreakpointValidated? ==> r == [BreakpointChanged("changed", e.bp.verified, e.bp.id)]
    ensures e.OutputText? ==>
      r == [Output(e.text + "\n", SourceOf(ad, e.filePath), ad.lineToClient(e.line), ad.columnToClient(e.column))]
    ensures |r| <= 1
  {
    match e
    case BreakpointValidated(bp) => [BreakpointChanged("changed", bp.verified, bp.id)]
    case OutputText(text, file, line, column) =>
      [Output(text + "\n", SourceOf(ad, file), ad.lineToClient(line), ad.columnToClient(column))]
    case End => [Terminated]
    case Other(_) => []
    case _ => [Stopped(StopReason(e).value, ThreadId)]
  }

  /** The reason table, and no two stop events share a reason. */
  lemma StopReasonTable()
    ensures StopReason(StopOnEntry) == Some("entry")
    ensures StopReason(StopOnStepOver) == Some("step")
    ensures StopReason(StopOnStepIn) == Some("stepin")
    ensures StopReason(StopOnStepOut) == Some("stepout")
    ensures StopReason(StopOnBreakpoint) == Some("breakpoint")
    ensures StopReason(StopOnException) == Some("exception")
    ensures forall e1, e2 :: StopReason(e1).Some? && StopReason(e1) == StopReason(e2) ==> e1 == e2
  {
  }

  // ---- the request handlers

  /** The three capabilities the adapter announces. */
  const CapabilityKeys: set<string> :=
    {"supportsConfigurationDoneRequest", "supportsEvaluateForHovers", "supportsStepBack"}

  /**
   `initializeRequest`: the initialized event goes out before the response; the response
   body (`{}` when there was none) gets the three capabilities set to true and keeps every
   other field it had.
   */
  function InitializeRequest(body: Option<map<string, Value>>): (sent: seq<Outgoing>)
    ensures |sent| == 2 && sent[0] == Event(Initialized)
    ensures sent[1].Response? && sent[1].body.Capabilities?
    ensures var prior := body.GetOr(map[]); var caps := sent[1].body.fields;
      && caps.Keys == prior.Keys + CapabilityKeys
      && (forall k :: k in CapabilityKeys ==> caps[k] == Bool(true))
      && (forall k :: k in prior && k !in CapabilityKeys ==> caps[k] == prior[k])
  {
    var prior := body.GetOr(map[]);
    var caps := prior["supportsConfigurationDoneRequest" := Bool(true)]
                     ["supportsEvaluateForHovers" := Bool(true)]
                     ["supportsStepBack" := Bool(true)];
    [Event(Initialized), Response(Capabilities(caps))]
  }

  /** The front-end breakpoint made from the runtime's answer. */
  function ClientBreakpoint(ad: Adapter, b: RtBreakpoint): Breakpoint
  {
    Breakpoint(b.verified, ad.lineToClient(b.line), b.id)
  }

  /**
   After `n` of the requested lines: the clear and then one `setBreakPoint` per line so far,
   and one front-end breakpoint per line so far, made from the runtime's answer in the state
   that call was made in.
   */
  ghost predicate Answered<S>(rt: Runtime<S>, ad: Adapter, s: S, path: string, ls: seq<int>,
                              calls: seq<RuntimeCall>, bps: seq<Breakpoint>, n: nat)
  {
    && n <= |ls|
    && |calls| == n + 1 && calls[0] == ClearBreakpoints(path)
    && (forall j :: 0 <= j < n ==> calls[j + 1] == SetBreakPoint(path, ad.lineToDebugger(ls[j])))
    && |bps| == n
    && (forall j :: 0 <= j < n ==>
          bps[j] == ClientBreakpoint(ad, rt.breakpointFor(Replay(rt, s, calls[..j + 1]), path, ad.lineToDebugger(ls[j]))))
  }

  lemma AnswerNext<S>(rt: Runtime<S>, ad: Adapter, s: S, path: string, ls: seq<int>,
                      calls: seq<RuntimeCall>, bps: seq<Breakpoint>, n: nat)
    requires Answered(rt, ad, s, path, ls, calls, bps, n) && n < |ls|
    ensures var call := SetBreakPoint(path, ad.lineToDebugger(ls[n]));
      var answer := rt.breakpointFor(Replay(rt, s, calls), path, ad.lineToDebugger(ls[n]));
      && Answered(rt, ad, s, path, ls, calls + [call], bps + [ClientBreakpoint(ad, answer)], n + 1)
      && Replay(rt, s, calls + [call]) == rt.perform(Replay(rt, s, calls), call)
  {
    var call := SetBreakPoint(path, ad.lineToDebugger(ls[n]));
    var calls' := calls + [call];
    ReplaySnoc(rt, s, calls, call);
    assert calls'[..n + 1] == calls;
    var answer := rt.breakpointFor(Replay(rt, s, calls), path, ad.lineToDebugger(ls[n]));
    var bps' := bps + [ClientBreakpoint(ad, answer)];
    forall j | 0 <= j < n
      ensures bps'[j] == ClientBreakpoint(ad, rt.breakpointFor(Replay(rt, s, calls'[..j + 1]), path, ad.lineToDebugger(ls[j])))
    {
      assert calls'[..j + 1] == calls[..j + 1];
    }
  }

  /**
   `setBreakPointsRequest`: the path is cleared first; then one `setBreakPoint` per requested
   line, in request order; the response holds one breakpoint per line, in the same order,
   each with the `verified` flag and `id` of the runtime's answer for that line, given in the
   state that call was made in. Absent `lines` means none, and the clear still happens.
   */
  method SetBreakPointsRequest<S>(rt: Runtime<S>, ad: Adapter, s: S, path: string, lines: Option<seq<int>>)
    returns (t: Turn<S>)
    ensures var ls := lines.GetOr([]);
      && |t.calls| == |ls| + 1
      && t.calls[0] == ClearBreakpoints(path)
      && (forall i :: 0 <= i < |ls| ==> t.calls[i + 1] == SetBreakPoint(path, ad.lineToDebugger(ls[i])))
      && t.runtime == Replay(rt, s, t.calls)
      && |t.sent| == 1 && t.sent[0].Response? && t.sent[0].body.Breakpoints?
      && |t.sent[0].body.breakpoints| == |ls|
      && (forall i :: 0 <= i < |ls| ==>
            var answer := rt.breakpointFor(Replay(rt, s, t.calls[..i + 1]), path, ad.lineToDebugger(ls[i]));
            && t.sent[0].body.breakpoints[i].verified == answer.verified
            && t.sent[0].body.breakpoints[i].id == answer.id
            && t.sent[0].body.breakpoints[i].line == ad.lineToClient(answer.line))
  {
    var ls := if lines.Some? then lines.value else [];
    var calls := [ClearBreakpoints(path)];
    ReplaySnoc(rt, s, [], ClearBreakpoints(path));
    var st := rt.perform(s, ClearBreakpoints(path));
    var bps: seq<Breakpoint> := [];
    var i := 0;
    while i < |ls|
      invariant Answered(rt, ad, s, path, ls, calls, bps, i)
      invariant st == Replay(rt, s, calls)
    {
      var line := ad.lineToDebugger(ls[i]);
      var answer := rt.breakpointFor(st, path, line);
      var call := SetBreakPoint(path, line);
      AnswerNext(rt, ad, s, path, ls, calls, bps, i);
      calls := calls + [call];
      st := rt.perform(st, call);
      bps := bps + [ClientBreakpoint(ad, answer)];
      i := i + 1;
    }
    t := Turn(st, calls, [Response(Breakpoints(bps))]);
  }

  /** `threadsRequest`: exactly one thread, thread 1. */
  function ThreadsRequest(): (sent: seq<Outgoing>)
    ensures |sent| == 1 && sent[0].Response? && sent[0].body.Threads?
    ensures |sent[0].body.threads| == 1 && sent[0].body.threads[0].id == ThreadId
  {
    [Response(Threads([Thread(ThreadId, ThreadName)]))]
  }

  const DefaultStartFrame: int := 0
  const DefaultLevels: int := 1000

  /** The front-end frame made from a runtime frame. */
  function ClientFrame(ad: Adapter, f: RtFrame): StackFrame
  {
    StackFrame(f.index, f.name, SourceOf(ad, f.file), ad.lineToClient(f.line))
  }

  /**
   `stackTraceRequest`: `startFrame` defaults to 0 and `levels` to 1000; the runtime is asked
   for frames from `startFrame` to `startFrame + levels`; the response has one frame per
   runtime frame, in order, keeping its index and name, and `totalFrames` is the runtime's
   count.
   */
  function StackTraceRequest<S>(rt: Runtime<S>, ad: Adapter, s: S, startFrame: Option<int>, levels: Option<int>): (t: Turn<S>)
    ensures |t.calls| == 1 && t.calls[0].Stack?
    ensures t.calls[0].startFrame == (if startFrame.Some? then startFrame.value else 0)
    ensures t.calls[0].endFrame - t.calls[0].startFrame == (if levels.Some? then levels.value else 1000)
    ensures t.runtime == Replay(rt, s, t.calls)
    ensures var stk := rt.stackFor(s, t.calls[0].startFrame, t.calls[0].endFrame);
      && |t.sent| == 1 && t.sent[0].Response? && t.sent[0].body.StackTrace?
      && t.sent[0].body.totalFrames == stk.count
      && |t.sent[0].body.stackFrames| == |stk.frames|
      && forall i :: 0 <= i < |stk.frames| ==>
           && t.sent[0].body.stackFrames[i].id == stk.frames[i].index
           && t.sent[0].body.stackFrames[i].name == stk.frames[i].name
           && t.sent[0].body.stackFrames[i].line == ad.lineToClient(stk.frames[i].line)
           && t.sent[0].body.stackFrames[i].source == SourceOf(ad, stk.frames[i].file)
  {
    var start := startFrame.GetOr(DefaultStartFrame);
    var end := start + levels.GetOr(DefaultLevels);
    var call := Stack(start, end);
    ReplaySnoc(rt, s, [], call);
    var stk := rt.stackFor(s, start, end);
    var frames := seq(|stk.frames|, i requires 0 <= i < |stk.frames| => ClientFrame(ad, stk.frames[i]));
    Turn(rt.perform(s, call), [call], [Response(StackTrace(frames, stk.count))])
  }

  /** The variable-handle table of the adapter library: `create` hands out an unused handle. */
  datatype Handles = Handles(next: int, values: map<int, string>) {
    predicate Valid()
    {
      forall h :: h in values ==> h < next
    }

    function Create(value: string): (r: (Handles, int))
      requires Valid()
      ensures r.0.Valid()
      ensures r.1 !in values
      ensures r.0.values == values[r.1 := value]
    {
      (Handles(next + 1, values[next := value]), next)
    }
  }

  /**
   `scopesRequest`: exactly two scopes, "Local" (not expensive) and then "Global"
   (expensive), with two new handles standing for `"local_" + frameId` and
   `"global_" + frameId`; the handles already in use keep their values.
   */
  function ScopesRequest(h: Handles, frameId: int): (r: (Handles, seq<Outgoing>))
    requires h.Valid()
    ensures r.0.Valid()
    ensures |r.1| == 1 && r.1[0].Response? && r.1[0].body.Scopes?
    ensures var sc := r.1[0].body.scopes;
      && |sc| == 2
      && sc[0].name == "Local" && !sc[0].expensive
      && sc[1].name == "Global" && sc[1].expensive
      && sc[0].variablesReference != sc[1].variablesReference
      && sc[0].variablesReference !in h.values && sc[1].variablesReference !in h.values
      && r.0.values.Keys == h.values.Keys + {sc[0].variablesReference, sc[1].variablesReference}
      && r.0.values[sc[0].variablesReference] == "local_" + Text.IntToString(frameId)
      && r.0.values[sc[1].variablesReference] == "global_" + Text.IntToString(frameId)
    ensures forall k :: k in h.values ==> r.0.values[k] == h.values[k]
  {
    var (h1, local) := h.Create("local_" + Text.IntToString(frameId));
    var (h2, global) := h1.Create("global_" + Text.IntToString(frameId));
    (h2, [Response(Scopes([Scope("Local", local, false), Scope("Global", global, true)]))])
  }

  /** Distinct frames get distinct scope keys. */
  lemma ScopeKeysIdentifyFrame(a: int, b: int)
    requires "local_" + Text.IntToString(a) == "local_" + Text.IntToString(b)
    ensures a == b
  {
    var p := "local_";
    assert ("local_" + Text.IntToString(a))[|p|..] == Text.IntToString(a);
    assert ("local_" + Text.IntToString(b))[|p|..] == Text.IntToString(b);
    Text.IntToStringInjective(a, b);
  }

  /** `variablesRequest`: the runtime's variables, as they are. */
  function VariablesRequest<S>(rt: Runtime<S>, s: S): (t: Turn<S>)
    ensures t.calls == [Variables] && t.runtime == Replay(rt, s, t.calls)
    ensures t.sent == [Response(VariableList(rt.variablesFor(s)))]
  {
    ReplaySnoc(rt, s, [], Variables);
    Turn(rt.perform(s, Variables), [Variables], [Response(VariableList(rt.variablesFor(s)))])
  }

  /** The six execution-control requests. */
  datatype ControlRequest = ContinueReq | ReverseContinueReq | NextReq | StepBackReq | StepInReq | StepOutReq

  predicate Backwards(req: ControlRequest)
  {
    req == ReverseContinueReq || req == StepBackReq
  }

  /** The runtime call each control request makes. */
  function ControlCall(req: ControlRequest): RuntimeCall
  {
    match req
    case ContinueReq => Continue(None)
    case ReverseContinueReq => Continue(Some(true))
    case NextReq => StepOver(None)
    case StepBackReq => StepOver(Some(true))
    case StepInReq => StepIn
    case StepOutReq => StepOut
  }

  /**
   A control request makes exactly one runtime call and sends the response unchanged.
   Reverse-continue is `continue(true)`, step-back is `stepOver(true)`; every forward
   request passes no flag.
   */
  function ControlRequestHandler<S>(rt: Runtime<S>, s: S, req: ControlRequest): (t: Turn<S>)
    ensures t.sent == [Response(NoBody)] && |t.calls| == 1 && t.runtime == Replay(rt, s, t.calls)
    ensures req == ContinueReq || req == ReverseContinueReq <==> t.calls[0].Continue?
    ensures req == NextReq || req == StepBackReq <==> t.calls[0].StepOver?
    ensures req == StepInReq <==> t.calls[0] == StepIn
    ensures req == StepOutReq <==> t.calls[0] == StepOut
    ensures t.calls[0].Continue? || t.calls[0].StepOver? ==>
      t.calls[0].reverse == (if Backwards(req) then Some(true) else None)
  {
    var call := ControlCall(req);
    ReplaySnoc(rt, s, [], call);
    Turn(rt.perform(s, call), [call], [Response(NoBody)])
  }

  /**
   `evaluateRequest`: the evaluator is asked with the request's expression, context and
   frame, and a callback. The handler itself sends nothing: any response comes from the
   callback (`EvaluateAnswered`).
   */
  function EvaluateRequest<S>(rt: Runtime<S>, s: S, expression: string, context: Option<string>, frameId: Option<int>): (t: Turn<S>)
    ensures t.calls == [Evaluate(expression, context, frameId)] && t.runtime == Replay(rt, s, t.calls)
    ensures t.sent == []
  {
    var call := Evaluate(expression, context, frameId);
    ReplaySnoc(rt, s, [], call);
    Turn(rt.perform(s, call), [call], [])
  }

  /**
   One run of the evaluator's callback with its `reply`: a response whose result is that
   reply, with no variables reference. It asks nothing of the runtime.
   */
  function EvaluateAnswered<S>(s: S, reply: Value): (t: Turn<S>)
    ensures t.runtime == s && t.calls == []
    ensures |t.sent| == 1 && t.sent[0].Response? && t.sent[0].body.EvaluateResult?
    ensures t.sent[0].body.result == reply && t.sent[0].body.variablesReference == 0
  {
    Turn(s, [], [Response(EvaluateResult(reply, 0))])
  }

  const ServeHost: string := "127.0.0.1"
  const ServePort: int := 8455

  /** `launchRequest`: the runtime's interface serves on 127.0.0.1:8455; the response follows. */
  function LaunchRequest<S>(rt: Runtime<S>, s: S): (t: Turn<S>)
    ensures t.calls == [Serve(ServeHost, ServePort)] && t.runtime == Replay(rt, s, t.calls)
    ensures t.sent == [Response(NoBody)]
  {
    ReplaySnoc(rt, s, [], Serve(ServeHost, ServePort));
    Turn(rt.perform(s, Serve(ServeHost, ServePort)), [Serve(ServeHost, ServePort)], [Response(NoBody)])
  }

  /** The serve callback of `launchRequest`: the runtime starts, stopping on entry iff asked to. */
  function LaunchServed<S>(rt: Runtime<S>, s: S, stopOnEntry: Option<bool>): (t: Turn<S>)
    ensures |t.calls| == 1 && t.calls[0].Start? && t.sent == []
    ensures t.calls[0].stopOnEntry <==> stopOnEntry == Some(true)
    ensures t.runtime == Replay(rt, s, t.calls)
  {
    var call := Start(stopOnEntry == Some(true));
    ReplaySnoc(rt, s, [], call);
    Turn(rt.perform(s, call), [call], [])
  }
}
