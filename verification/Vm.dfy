/** The VM as a transition system. The native recursion of a call is an explicit
    list of suspended frames; an exception unwinds it frame by frame. */
module Vm {
  import opened Options
  import opened Bytecode
  import opened Values

  type Globals = map<string, VmValue>

  /** An active handler: where its code starts, the stack depth at TRY_BEGIN. */
  datatype Handler = Handler(target: nat, depth: nat)

  /** `caught` is the exception each catch slot holds for its RETHROW, `just`
      the one a handler has taken and not stored yet. */
  datatype Frame = Frame(
    m: Module, ip: nat, stack: seq<VmValue>, locals: seq<VmValue>,
    handlers: seq<Handler>, caught: map<nat, Exn<VmValue>>, just: Option<Exn<VmValue>>)

  /** The suspended callers, innermost first. */
  datatype Callers = Top | Caller(frame: Frame, rest: Callers)

  /** `Fault` is what the C++ leaves undefined: a slot or target out of range. */
  datatype Config =
    | Run(f: Frame, k: Callers, g: Globals)
    | Unwind(x: Exn<VmValue>, k: Callers, g: Globals)
    | Done(v: VmValue, g: Globals)
    | Uncaught(x: Exn<VmValue>, g: Globals)
    | Fault

  function Push(f: Frame, w: VmValue): Frame { f.(stack := f.stack + [w], ip := f.ip + 1) }

  function Next(f: Frame): Frame { f.(ip := f.ip + 1) }

  function TopOf(f: Frame): VmValue
    requires |f.stack| > 0
  { f.stack[|f.stack| - 1] }

  function Drop(f: Frame, n: nat): Frame
    requires n <= |f.stack|
  { f.(stack := f.stack[..|f.stack| - n]) }

  function RaiseError(kind: ErrorKind, f: Frame, k: Callers, g: Globals): Config {
    Unwind(Managed(VError(kind), 0), Caller(f, k), g)
  }

  /** `L` with the captured values in their slots, from the `i`-th on. */
  function WriteCaptures(L: seq<VmValue>, specs: seq<Capture>, caps: seq<VmValue>, i: nat): seq<VmValue>
    requires |specs| == |caps| && i <= |specs|
    requires forall j | i <= j < |specs| :: specs[j].localSlot < |L|
    decreases |specs| - i
  {
    if i == |specs| then L
    else WriteCaptures(L[specs[i].localSlot := caps[i]], specs, caps, i + 1)
  }

  /** A frame's slots when it starts: the arguments, then the captures. */
  function InitialLocals(m: Module, args: seq<VmValue>, caps: seq<VmValue>): seq<VmValue>
    requires |args| == m.arity && |caps| == |m.captures|
    requires forall j | 0 <= j < |m.captures| :: m.captures[j].localSlot < m.arity + m.localCount
  {
    WriteCaptures(args + seq(m.localCount, _ => VNil), m.captures, caps, 0)
  }

  function NewFrame(m: Module, args: seq<VmValue>, caps: seq<VmValue>): Frame
    requires |args| == m.arity && |caps| == |m.captures|
    requires forall j | 0 <= j < |m.captures| :: m.captures[j].localSlot < m.arity + m.localCount
  {
    Frame(m, 0, [], InitialLocals(m, args, caps), [], map[], None)
  }

  /** CALL: the callee and its `n` arguments are on the stack. */
  function Dispatch(P: Prims, n: nat, f: Frame, k: Callers, g: Globals): Config {
    if |f.stack| < n + 1 then RaiseError(Internal, f, k, g) else
    var base := |f.stack| - n - 1;
    var callee := f.stack[base];
    var args := f.stack[base + 1..];
    if callee.VFn? then
      var m := callee.m;
      if m.arity != n then RaiseError(ArityMismatch(m.arity, n), f, k, g)
      else if n > MAX_BOUND_PARAMETERS then RaiseError(TooManyParameters, f, k, g)
      else if |m.captures| != |callee.caps| then RaiseError(Internal, f, k, g)
      else if exists j | 0 <= j < |m.captures| :: m.captures[j].localSlot >= m.arity + m.localCount then Fault
      else Run(NewFrame(m, args, callee.caps), Caller(Next(f).(stack := f.stack[..base]), k), g)
    else
      match P.vmCall(callee, args)
      case Returns(v) => Run(Next(f).(stack := f.stack[..base] + [v]), k, g)
      case Raises(x) => Unwind(x, Caller(f, k), g)
  }

  function ReturnFrom(f: Frame, k: Callers, g: Globals): Config {
    var v := if |f.stack| == 0 then VNil else TopOf(f);
    if k.Top? then Done(v, g)
    else Run(k.frame.(stack := k.frame.stack + [v]), k.rest, g)
  }

  function Bool(b: bool): VmValue { if b then VTrue else VFalse }

  function Exec(P: Prims, i: Instr, f: Frame, k: Callers, g: Globals): Config {
    match i
    case PushConst(c) => Run(Push(f, ConstVmValue(c)), k, g)
    case PushNil => Run(Push(f, VNil), k, g)
    case PushTrue => Run(Push(f, VTrue), k, g)
    case PushFalse => Run(Push(f, VFalse), k, g)
    case PushVar(x) =>
      if x in g then Run(Push(f, g[x]), k, g) else RaiseError(Unresolved(x), f, k, g)
    case StoreGlobal(x) =>
      if |f.stack| == 0 then RaiseError(Internal, f, k, g) else Run(Next(f), k, g[x := TopOf(f)])
    case PushLocal(s) => if s < |f.locals| then Run(Push(f, f.locals[s]), k, g) else Fault
    case PushLocalClear(s) =>
      if s < |f.locals| then Run(Push(f, f.locals[s]).(locals := f.locals[s := VNil]), k, g) else Fault
    case StoreLocal(s) =>
      if |f.stack| == 0 then RaiseError(Internal, f, k, g)
      else if s >= |f.locals| then Fault
      else Run(Drop(Next(f), 1).(locals := f.locals[s := TopOf(f)]), k, g)
    case Pop => if |f.stack| == 0 then RaiseError(Internal, f, k, g) else Run(Drop(Next(f), 1), k, g)
    case Dup => if |f.stack| == 0 then RaiseError(Internal, f, k, g) else Run(Push(f, TopOf(f)), k, g)
    case Jump(off) => Run(f.(ip := f.ip + 1 + off), k, g)
    case JumpIfFalse(off) =>
      if |f.stack| == 0 then RaiseError(Internal, f, k, g)
      else if VmTruthy(TopOf(f)) then Run(Drop(Next(f), 1), k, g)
      else Run(Drop(f.(ip := f.ip + 1 + off), 1), k, g)
    case JumpIfTrue(off) =>
      if |f.stack| == 0 then RaiseError(Internal, f, k, g)
      else if !VmTruthy(TopOf(f)) then Run(Drop(Next(f), 1), k, g)
      else Run(Drop(f.(ip := f.ip + 1 + off), 1), k, g)
    case JumpBack(off) => if off <= f.ip + 1 then Run(f.(ip := f.ip + 1 - off), k, g) else Fault
    case Invoke(n) => Dispatch(P, n, f, k, g)
    case MakeFn(m) =>
      if |f.stack| < |m.captures| then RaiseError(Internal, f, k, g)
      else
        var base := |f.stack| - |m.captures|;
        Run(Next(f).(stack := f.stack[..base] + [VFn(m, f.stack[base..])]), k, g)
    case Return => ReturnFrom(f, k, g)
    case Raise =>
      if |f.stack| == 0 then RaiseError(Internal, f, k, g)
      else if P.vmThrowable(TopOf(f)) then Unwind(Managed(TopOf(f), 0), Caller(f, k), g)
      else RaiseError(NotThrowable, f, k, g)
    case TryBegin(off) =>
      Run(Next(f).(handlers := f.handlers + [Handler(f.ip + 1 + off, |f.stack|)]), k, g)
    case TryEnd =>
      if |f.handlers| == 0 then RaiseError(Internal, f, k, g)
      else Run(Next(f).(handlers := f.handlers[..|f.handlers| - 1]), k, g)
    case StoreCaught(s) =>
      if |f.stack| == 0 then RaiseError(Internal, f, k, g)
      else if s >= |f.locals| then Fault
      else
        var kept := if f.just.Some? then f.caught[s := f.just.value] else f.caught - {s};
        Run(Drop(Next(f), 1).(locals := f.locals[s := TopOf(f)], caught := kept, just := None), k, g)
    case ExcMatch(c) =>
      if |f.stack| == 0 then RaiseError(Internal, f, k, g)
      else Run(Push(Drop(f, 1), Bool(P.vmMatches(TopOf(f), c))), k, g)
    case Rethrow(s) =>
      if s in f.caught then Unwind(f.caught[s], Caller(f, k), g)
      else if s < |f.locals| then Unwind(Managed(f.locals[s], 0), Caller(f, k), g)
      else Fault
  }

  /** The innermost handler of the frame an exception reaches takes it. */
  function TakeHandler(P: Prims, x: Exn<VmValue>, f: Frame, k: Callers, g: Globals): Config
    requires |f.handlers| > 0
  {
    var h := f.handlers[|f.handlers| - 1];
    if h.depth > |f.stack| then Fault else
    Run(f.(ip := h.target, stack := f.stack[..h.depth] + [VmCaughtValue(P, x)],
           handlers := f.handlers[..|f.handlers| - 1],
           just := if x.Managed? then Some(x) else None), k, g)
  }

  function Step(P: Prims, c: Config): Config {
    match c
    case Run(f, k, g) =>
      if f.ip < |f.m.code| then Exec(P, f.m.code[f.ip], f, k, g) else ReturnFrom(f, k, g)
    case Unwind(x, k, g) =>
      if k.Top? then Uncaught(x, g)
      else if |k.frame.handlers| == 0 then Unwind(x, k.rest, g)
      else TakeHandler(P, x, k.frame, k.rest, g)
    case _ => c
  }

  function Steps(P: Prims, c: Config, n: nat): Config
    decreases n
  {
    if n == 0 then c else Steps(P, Step(P, c), n - 1)
  }

  ghost predicate Reaches(P: Prims, a: Config, b: Config) {
    exists n: nat :: Steps(P, a, n) == b
  }

  lemma {:induction false} StepsAdd(P: Prims, c: Config, m: nat, n: nat)
    ensures Steps(P, c, m + n) == Steps(P, Steps(P, c, m), n)
    decreases m
  {
    if m > 0 { StepsAdd(P, Step(P, c), m - 1, n); }
  }

  lemma ReachesSelf(P: Prims, a: Config)
    ensures Reaches(P, a, a)
  {
    assert Steps(P, a, 0) == a;
  }

  lemma ReachesStep(P: Prims, a: Config)
    ensures Reaches(P, a, Step(P, a))
  {
    assert Steps(P, a, 1) == Steps(P, Step(P, a), 0) == Step(P, a);
  }

  lemma ReachesTrans(P: Prims, a: Config, b: Config, c: Config)
    requires Reaches(P, a, b) && Reaches(P, b, c)
    ensures Reaches(P, a, c)
  {
    var m: nat :| Steps(P, a, m) == b;
    var n: nat :| Steps(P, b, n) == c;
    StepsAdd(P, a, m, n);
  }

  /** One more step after a run. */
  lemma ReachesThen(P: Prims, a: Config, b: Config)
    requires Reaches(P, a, b)
    ensures Reaches(P, a, Step(P, b))
  {
    ReachesStep(P, b);
    ReachesTrans(P, a, b, Step(P, b));
  }

  /** A module about to run at the top level. */
  function Start(m: Module, g: Globals): Config {
    Run(Frame(m, 0, [], [], [], map[], None), Top, g)
  }
}
