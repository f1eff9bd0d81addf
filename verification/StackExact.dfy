/** The flow analysis counts no more than the VM does: every depth it gives an
    instruction's successors, and every peak, is one that running has. */
module StackExact {
  import opened Options
  import opened Bytecode
  import opened Values
  import opened Vm
  import opened StackDepth

  /** The peak of an instruction is the depth before it or, if that is more, the
      depth after it; entering a call and leaving the frame count nothing. */
  lemma PeakExact(P: Prims, f: Frame, k: Callers, g: Globals)
    requires f.ip < |f.m.code|
    ensures var c, i := Step(P, Run(f, k, g)), f.m.code[f.ip];
            && (c.Run? && c.k == k ==> Peak(i, |f.stack|) == if |c.f.stack| > |f.stack| then |c.f.stack| else |f.stack|)
            && (i.Invoke? || i.Return? || i.Raise? || i.Rethrow? ==> Peak(i, |f.stack|) == |f.stack|)
  {
    var i := f.m.code[f.ip];
    if i.Invoke? {
      CallPeak(P, i.argc, f, k, g);
    } else if i.Return? {
      ReturnPeak(f, k, g);
    } else {
      hide Step, Exec, Peak;
      StepPeak(P, f, k, g);
    }
  }

  predicate Jumps(i: Instr) { i.Jump? || i.JumpBack? || i.JumpIfFalse? || i.JumpIfTrue? || i.TryBegin? }

  /** One step from `f` to `c`, in the frame. */
  predicate Peaks(f: Frame, k: Callers, c: Config)
    requires f.ip < |f.m.code|
  {
    c.Run? && c.k == k ==> Peak(f.m.code[f.ip], |f.stack|) == if |c.f.stack| > |f.stack| then |c.f.stack| else |f.stack|
  }

  lemma StepPeak(P: Prims, f: Frame, k: Callers, g: Globals)
    requires f.ip < |f.m.code| && var i := f.m.code[f.ip]; !i.Invoke? && !i.Return?
    ensures var c, i := Step(P, Run(f, k, g)), f.m.code[f.ip]; Peaks(f, k, c) && (i.Raise? || i.Rethrow? ==> Peak(i, |f.stack|) == |f.stack|)
  {
    hide Dispatch, ReturnFrom;
  }

  function Length(k: Callers): nat { match k case Top => 0 case Caller(_, rest) => 1 + Length(rest) }

  lemma CallPeak(P: Prims, n: nat, f: Frame, k: Callers, g: Globals)
    ensures var c := Dispatch(P, n, f, k, g); c.Run? && c.k == k ==> |c.f.stack| <= |f.stack|
  {
    hide NewFrame;
    assert forall f1 :: Length(Caller(f1, k)) == 1 + Length(k);
  }

  lemma ReturnPeak(f: Frame, k: Callers, g: Globals)
    ensures var c := ReturnFrom(f, k, g); c.Run? ==> c.k != k
  {
    assert k.Caller? ==> Length(k) == 1 + Length(k.rest);
  }

  /** What an instruction takes from the stack is there. */
  predicate Runs(i: Instr, d: nat) {
    d > 0 && (i.Invoke? ==> i.argc < d) && (i.MakeFn? ==> |i.body.captures| <= d)
  }

  /** Primitives that all answer nil. */
  function Nils(): Prims {
    Prims((_, _) => Returns(Nil), (_, _) => Returns(VNil), (_, _) => false, (_, _) => false,
          _ => true, _ => true, _ => Nil, _ => VNil)
  }

  /** A frame about to run the instruction at `i`, `d` deep, all values `w`. */
  function About(m: Module, i: nat, d: nat, w: VmValue): Frame
    requires i < |m.code|
  {
    var c := m.code[i];
    var slots := if c.PushLocal? || c.PushLocalClear? || c.StoreLocal? || c.StoreCaught? then c.slot + 1 else 0;
    Frame(m, i, seq(d, _ => w), seq(slots, _ => VNil), [Handler(0, 0)], map[], None)
  }

  /** `f`, after a step, is where the edge leads; or has a handler that takes
      an exception there. */
  predicate Followed(f: Frame, e: Edge) {
    (f.ip == e.to && |f.stack| == e.depth) ||
    (f.handlers != [] && f.handlers[|f.handlers| - 1].target == e.to && f.handlers[|f.handlers| - 1].depth + 1 == e.depth)
  }

  /** Running the instruction at `f.ip` goes along `e`. */
  predicate Goes(f: Frame, g: Globals, e: Edge) {
    var c := Step(Nils(), Run(f, Top, g));
    c.Run? && c.k == Top && c.f.m == f.m && Followed(c.f, e)
  }

  /** Every edge is one some frame of that depth takes. */
  lemma EdgeTaken(m: Module, i: nat, d: nat, e: Edge) returns (f: Frame, g: Globals)
    requires i < |m.code| && Runs(m.code[i], d) && e in Edges(m.code, i, d)
    ensures f.m == m && f.ip == i && |f.stack| == d && Goes(f, g, e)
  {
    var c := m.code[i];
    g := if c.PushVar? then map[c.name := VNil] else map[];
    if Jumps(c) {
      f := JumpTaken(m, i, d, e, g);
    } else {
      f := About(m, i, d, VNil);
      if c.Invoke? { CallTaken(m, i, d, e, g); } else { NextTaken(m, i, d, e, g); }
    }
  }

  lemma JumpTaken(m: Module, i: nat, d: nat, e: Edge, g: Globals) returns (f: Frame)
    requires i < |m.code| && d > 0 && Jumps(m.code[i]) && e in Edges(m.code, i, d)
    ensures f.m == m && f.ip == i && |f.stack| == d && Goes(f, g, e)
  {
    hide Dispatch, ReturnFrom;
    var c := m.code[i];
    f := About(m, i, d, if (c.JumpIfTrue? && e.to == i + 1 + c.off) || (c.JumpIfFalse? && e.to == i + 1) then VTrue else VNil);
  }

  lemma NextTaken(m: Module, i: nat, d: nat, e: Edge, g: Globals)
    requires i < |m.code| && Runs(m.code[i], d) && !Jumps(m.code[i]) && !m.code[i].Invoke? && e in Edges(m.code, i, d)
    requires m.code[i].PushVar? ==> m.code[i].name in g
    ensures Goes(About(m, i, d, VNil), g, e)
  {
    hide Dispatch, ReturnFrom, VmTruthy;
  }

  lemma CallTaken(m: Module, i: nat, d: nat, e: Edge, g: Globals)
    requires i < |m.code| && m.code[i].Invoke? && Runs(m.code[i], d) && e in Edges(m.code, i, d)
    ensures Goes(About(m, i, d, VNil), g, e)
  {
    hide Dispatch, ReturnFrom, VmTruthy;
    NilsCalled(About(m, i, d, VNil), m.code[i].argc, g);
  }

  lemma NilsCalled(f: Frame, n: nat, g: Globals)
    requires n < |f.stack| && f.stack[|f.stack| - n - 1] == VNil
    ensures Dispatch(Nils(), n, f, Top, g) == Run(Next(f).(stack := f.stack[..|f.stack| - n - 1] + [VNil]), Top, g)
  {
  }
}
