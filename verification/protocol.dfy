/**
 The envelope exchanged with the remote debugger in both directions, the commands the bridge
 sends, and how a command is laid out in an envelope (src/runtimeInterface.ts). JSON text and
 its parsing are not modelled: an envelope is the object before `JSON.stringify` and after
 `JSON.parse`.
 */
module Protocol {
  import opened Wrappers
  import opened Json

  /** One frame: `id`, `isRequest`, `type` (here `kind`, `type` being a keyword) and `content`. */
  datatype Envelope = Envelope(id: string, isRequest: bool, kind: string, content: Value)

  /** The `action` carried by a `uiAction` command. */
  datatype UiAction = Continue | ContinueReverse | StepOver | StepBack | StepIn | StepOut

  /** The control operations of the bridge, one constructor per command builder. */
  datatype Command =
    | ClearBreakpoints(path: string)
    | SetBreakpoint(path: string, line: int)
    | Stack(startFrame: int, endFrame: int)
    | Variables(args: Option<map<string, Value>>)
    | Ui(action: UiAction)
    | Evaluate(expression: string, context: Option<string>, frameId: Option<int>)

  function ActionName(a: UiAction): string
  {
    match a
    case Continue => "continue"
    case ContinueReverse => "continueReverse"
    case StepOver => "stepOver"
    case StepBack => "stepBack"
    case StepIn => "stepIn"
    case StepOut => "stepOut"
  }

  /** The six action names a `uiAction` frame may carry. */
  const ActionNames: set<string> :=
    {"continue", "continueReverse", "stepOver", "stepBack", "stepIn", "stepOut"}

  function ActionOfName(name: string): Option<UiAction>
  {
    if name == "continue" then Some(Continue)
    else if name == "continueReverse" then Some(ContinueReverse)
    else if name == "stepOver" then Some(StepOver)
    else if name == "stepBack" then Some(StepBack)
    else if name == "stepIn" then Some(StepIn)
    else if name == "stepOut" then Some(StepOut)
    else None
  }

  /** The `type` tag of a command's frame. */
  function KindOf(c: Command): string
  {
    match c
    case ClearBreakpoints(_) => "clearBreakpoints"
    case SetBreakpoint(_, _) => "setBreakpoint"
    case Stack(_, _) => "stack"
    case Variables(_) => "variables"
    case Ui(_) => "uiAction"
    case Evaluate(_, _, _) => "evaluate"
  }

  /** An optional argument as it sits in the content object: absent means `undefined`. */
  function OptStr(o: Option<string>): Value
  {
    if o.Some? then Str(o.value) else Undefined
  }

  function OptNum(o: Option<int>): Value
  {
    if o.Some? then Num(o.value) else Undefined
  }

  /** The `content` object a command builder writes. `variables` sends `args || null`. */
  function ContentOf(c: Command): Value
  {
    match c
    case ClearBreakpoints(path) => Obj(map["path" := Str(path)])
    case SetBreakpoint(path, line) => Obj(map["path" := Str(path), "line" := Num(line)])
    case Stack(s, e) => Obj(map["startFrame" := Num(s), "endFrame" := Num(e)])
    case Variables(args) => if args.Some? then Obj(args.value) else Null
    case Ui(a) => Obj(map["action" := Str(ActionName(a))])
    case Evaluate(x, ctx, fid) =>
      Obj(map["expression" := Str(x), "context" := OptStr(ctx), "frameId" := OptNum(fid)])
  }

  function StrAt(v: Value, key: string): Option<string>
  {
    var p := Prop(v, key);
    if p.Str? then Some(p.s) else None
  }

  function NumAt(v: Value, key: string): Option<int>
  {
    var p := Prop(v, key);
    if p.Num? then Some(p.n) else None
  }

  /** An optional field: `undefined` reads as None, anything but a string or `undefined` fails. */
  function OptStrAt(v: Value, key: string): Option<Option<string>>
  {
    var p := Prop(v, key);
    if p.Undefined? then Some(None) else if p.Str? then Some(Some(p.s)) else None
  }

  function OptNumAt(v: Value, key: string): Option<Option<int>>
  {
    var p := Prop(v, key);
    if p.Undefined? then Some(None) else if p.Num? then Some(Some(p.n)) else None
  }

  /**
   How the remote debugger reads a command frame: the inverse of `Frame`, and a
   definition of the frame layout that is independent of the builders.
   */
  function Decode(f: Envelope): Option<Command>
  {
    var v := f.content;
    if !f.isRequest then None
    else if f.kind == "clearBreakpoints" then
      var p := StrAt(v, "path");
      if p.Some? then Some(ClearBreakpoints(p.value)) else None
    else if f.kind == "setBreakpoint" then
      var p := StrAt(v, "path");
      var l := NumAt(v, "line");
      if p.Some? && l.Some? then Some(SetBreakpoint(p.value, l.value)) else None
    else if f.kind == "stack" then
      var s := NumAt(v, "startFrame");
      var e := NumAt(v, "endFrame");
      if s.Some? && e.Some? then Some(Stack(s.value, e.value)) else None
    else if f.kind == "variables" then
      if v.Null? then Some(Variables(None))
      else if v.Obj? then Some(Variables(Some(v.fields)))
      else None
    else if f.kind == "uiAction" then
      var a := StrAt(v, "action");
      if a.Some? && ActionOfName(a.value).Some? then Some(Ui(ActionOfName(a.value).value)) else None
    else if f.kind == "evaluate" then
      var x := StrAt(v, "expression");
      var ctx := OptStrAt(v, "context");
      var fid := OptNumAt(v, "frameId");
      if x.Some? && ctx.Some? && fid.Some? then Some(Evaluate(x.value, ctx.value, fid.value))
      else None
    else None
  }

  /**
   The frame a command builder sends under the fresh id `id`: a request frame with the
   command's tag, whose content the remote side reads back as exactly that command.
   */
  function Frame(c: Command, id: string): (f: Envelope)
    ensures f.id == id && f.isRequest
    ensures Decode(f) == Some(c)
    ensures f.kind == "uiAction" <==> c.Ui?
    ensures c.Ui? ==> StrAt(f.content, "action") == Some(ActionName(c.action))
  {
    Envelope(id, true, KindOf(c), ContentOf(c))
  }

  /** Every `uiAction` frame names one of the six actions, and distinct actions are told apart. */
  lemma UiActionFrames(a: UiAction, id: string)
    ensures Frame(Ui(a), id).kind == "uiAction"
    ensures ActionName(a) in ActionNames
    ensures ActionOfName(ActionName(a)) == Some(a)
  {
  }

  /** The reply to a `ping` probe: same id, not a request, type `ping`, empty content. */
  function PingReply(id: string): Envelope
  {
    Envelope(id, false, "ping", Obj(map[]))
  }
}
