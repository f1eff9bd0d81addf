/** No run of the VM takes an operand stack past the bound the flow analysis
    computes, calls and exceptions included. */
module StackBound {
  import opened Bytecode
  import opened Values
  import opened Vm
  import opened StackDepth

  predicate HandlersInRange(code: seq<Instr>) {
    forall i | 0 <= i < |code| && code[i].TryBegin? :: i + 1 + code[i].off < |code|
  }

  /** What the analysis found for each module: depths, and the deepest. */
  datatype Analysis = Analysis(depth: Module -> seq<int>, deepest: Module -> nat)

  ghost predicate Covers(A: Analysis, m: Module) {
    && Consistent(m.code, A.depth(m)) && Deepest(m.code, A.depth(m), A.deepest(m)) && HandlersInRange(m.code)
  }

  /** There is room at `ip` for a stack of `n`. */
  ghost predicate RoomAt(A: Analysis, m: Module, ip: nat, n: int) {
    && n <= A.deepest(m)
    && (ip < |m.code| && ip < |A.depth(m)| && n >= 0 ==> n <= A.depth(m)[ip])
  }

  ghost predicate HandlersFit(A: Analysis, f: Frame) {
    forall i | 0 <= i < |f.handlers| :: RoomAt(A, f.m, f.handlers[i].target, f.handlers[i].depth + 1)
  }

  /** `f` is within bounds, and stays so if `extra` values are pushed. */
  ghost predicate Fits(A: Analysis, f: Frame, extra: nat) {
    Covers(A, f.m) ==> RoomAt(A, f.m, f.ip, |f.stack| + extra) && HandlersFit(A, f)
  }

  /** Stopped by an exception: the instruction that raised it may have popped. */
  ghost predicate Raising(A: Analysis, f: Frame) {
    Covers(A, f.m) ==> |f.stack| <= A.deepest(f.m) && HandlersFit(A, f)
  }

  /** Callers wait for a call's value. */
  ghost predicate CallersFit(A: Analysis, k: Callers) {
    k.Caller? ==> Fits(A, k.frame, 1) && CallersFit(A, k.rest)
  }

  ghost predicate AllFit(A: Analysis, c: Config) {
    match c
    case Run(f, k, _) => Fits(A, f, 0) && CallersFit(A, k)
    case Unwind(_, k, _) => k.Caller? ==> Raising(A, k.frame) && CallersFit(A, k.rest)
    case _ => true
  }

  lemma FitsRaising(A: Analysis, f: Frame, extra: nat)
    requires Fits(A, f, extra)
    ensures Raising(A, f)
  {
  }

  /** The instruction at `f.ip` leads along edge `k` to `f1`. */
  lemma Along(A: Analysis, f: Frame, k: nat, f1: Frame, extra: nat)
    requires Fits(A, f, 0) && f.ip < |f.m.code|
    requires k < |Edges(f.m.code, f.ip, |f.stack|)|
    requires f1.m == f.m && f1.handlers == f.handlers && |f1.stack| + extra >= 0
    requires Edges(f.m.code, f.ip, |f.stack|)[k] == Edge(f1.ip, |f1.stack| + extra)
    requires |f1.stack| + extra <= Peak(f.m.code[f.ip], |f.stack|)
    ensures Fits(A, f1, extra)
  {
    if Covers(A, f.m) {
      var D := A.depth(f.m);
      EdgesShift(f.m.code, f.ip, |f.stack|, D[f.ip]);
      assert Kept(f.m.code, D, f.ip);
      assert Covered(D, Edges(f.m.code, f.ip, D[f.ip])[k]);
      PeakShift(f.m.code[f.ip], |f.stack|, D[f.ip]);
    }
  }

  lemma PeakShift(i: Instr, d: int, d1: int)
    ensures Peak(i, d1) == Peak(i, d) + d1 - d && Peak(i, d) >= d
  {
  }

  lemma FrameBegins(A: Analysis, m: Module, args: seq<VmValue>, caps: seq<VmValue>)
    requires |args| == m.arity && |caps| == |m.captures|
    requires forall j | 0 <= j < |m.captures| :: m.captures[j].localSlot < m.arity + m.localCount
    ensures Fits(A, NewFrame(m, args, caps), 0)
  {
    if Covers(A, m) && |m.code| > 0 { assert A.depth(m)[0] >= 0; }
  }

  lemma TryFits(A: Analysis, f: Frame, off: nat)
    requires Fits(A, f, 0) && f.ip < |f.m.code| && f.m.code[f.ip] == TryBegin(off)
    ensures Fits(A, Next(f).(handlers := f.handlers + [Handler(f.ip + 1 + off, |f.stack|)]), 0)
  {
    if Covers(A, f.m) {
      var D := A.depth(f.m);
      Along(A, f, 1, Next(f), 0);
      EdgesShift(f.m.code, f.ip, |f.stack|, D[f.ip]);
      assert Kept(f.m.code, D, f.ip);
      assert Covered(D, Edges(f.m.code, f.ip, D[f.ip])[0]);
      var t := f.ip + 1 + off;
      assert D[t] >= D[f.ip] + 1;
      PeakShift(f.m.code[t], 0, D[t]);
    }
  }

  lemma TakeFits(A: Analysis, P: Prims, x: Exn<VmValue>, f: Frame, k: Callers, g: Globals)
    requires |f.handlers| > 0 && Raising(A, f) && CallersFit(A, k)
    ensures AllFit(A, TakeHandler(P, x, f, k, g))
  {
    var h := f.handlers[|f.handlers| - 1];
    if h.depth <= |f.stack| && Covers(A, f.m) { assert RoomAt(A, f.m, h.target, h.depth + 1); }
  }

  lemma DispatchFits(A: Analysis, P: Prims, n: nat, f: Frame, k: Callers, g: Globals)
    requires Fits(A, f, 0) && CallersFit(A, k) && f.ip < |f.m.code| && f.m.code[f.ip] == Invoke(n)
    ensures AllFit(A, Dispatch(P, n, f, k, g))
  {
    hide Fits, Raising;
    FitsRaising(A, f, 0);
    if |f.stack| >= n + 1 {
      var base := |f.stack| - n - 1;
      var callee, args := f.stack[base], f.stack[base + 1..];
      var f1 := Next(f).(stack := f.stack[..base]);
      PeakShift(Invoke(n), |f.stack|, |f.stack|);
      Along(A, f, 0, f1, 1);
      if callee.VFn? {
        if callee.m.arity == n && |callee.m.captures| == |callee.caps| &&
           forall j | 0 <= j < |callee.m.captures| :: callee.m.captures[j].localSlot < callee.m.arity + callee.m.localCount
        { FrameBegins(A, callee.m, args, callee.caps); }
      } else {
        var r := P.vmCall(callee, args);
        if r.Returns? { Along(A, f, 0, f1.(stack := f1.stack + [r.value]), 0); }
      }
    }
  }

  /** `c` is where the instruction at `f.ip` leads, along edge `e`. */
  ghost predicate Leads(f: Frame, k: Callers, c: Config, e: nat)
    requires f.ip < |f.m.code|
  {
    match c
    case Run(f1, k1, _) =>
      && k1 == k && f1.m == f.m && f1.handlers == f.handlers
      && e < |Edges(f.m.code, f.ip, |f.stack|)|
      && Edges(f.m.code, f.ip, |f.stack|)[e] == Edge(f1.ip, |f1.stack|)
      && |f1.stack| <= Peak(f.m.code[f.ip], |f.stack|)
    case Unwind(_, k1, _) => k1 == Caller(f, k)
    case Fault => true
    case _ => false
  }

  lemma PushLeads(P: Prims, f: Frame, k: Callers, g: Globals)
    requires f.ip < |f.m.code|
    requires var i := f.m.code[f.ip];
             || i.PushConst? || i.PushNil? || i.PushTrue? || i.PushFalse? || i.PushVar? || i.PushLocal?
             || i.PushLocalClear? || i.Dup? || i.MakeFn?
    ensures Leads(f, k, Exec(P, f.m.code[f.ip], f, k, g), 0)
  {
  }

  lemma PopLeads(P: Prims, f: Frame, k: Callers, g: Globals)
    requires f.ip < |f.m.code|
    requires var i := f.m.code[f.ip];
             i.Pop? || i.StoreLocal? || i.StoreCaught? || i.StoreGlobal? || i.ExcMatch? || i.Raise? || i.Rethrow?
    ensures Leads(f, k, Exec(P, f.m.code[f.ip], f, k, g), 0)
  {
  }

  lemma JumpLeads(P: Prims, f: Frame, k: Callers, g: Globals) returns (e: nat)
    requires f.ip < |f.m.code|
    requires var i := f.m.code[f.ip]; i.Jump? || i.JumpIfFalse? || i.JumpIfTrue? || i.JumpBack?
    ensures Leads(f, k, Exec(P, f.m.code[f.ip], f, k, g), e)
  {
    var i := f.m.code[f.ip];
    e := 0;
    if (i.JumpIfFalse? || i.JumpIfTrue?) && |f.stack| > 0 {
      if VmTruthy(TopOf(f)) == i.JumpIfFalse? { e := 1; }
    }
  }

  /** Every instruction keeps every frame within its bound. */
  lemma ExecFits(A: Analysis, P: Prims, f: Frame, k: Callers, g: Globals)
    requires Fits(A, f, 0) && CallersFit(A, k) && f.ip < |f.m.code|
    ensures AllFit(A, Exec(P, f.m.code[f.ip], f, k, g))
  {
    hide Fits, Raising, Edges, Dispatch, ReturnFrom;
    FitsRaising(A, f, 0);
    var i := f.m.code[f.ip];
    if i.Invoke? {
      DispatchFits(A, P, i.argc, f, k, g);
    } else if i.TryBegin? {
      TryFits(A, f, i.off);
    } else if i.TryEnd? {
      EndFits(A, P, f, k, g);
    } else if i.Return? {
      ReturnFits(A, f, k, g);
    } else {
      hide Exec;
      var e: nat := 0;
      if i.Jump? || i.JumpIfFalse? || i.JumpIfTrue? || i.JumpBack? { e := JumpLeads(P, f, k, g); }
      else if i.Pop? || i.StoreLocal? || i.StoreCaught? || i.StoreGlobal? || i.ExcMatch? || i.Raise? || i.Rethrow? {
        PopLeads(P, f, k, g);
      } else { PushLeads(P, f, k, g); }
      var c := Exec(P, i, f, k, g);
      if c.Run? { Along(A, f, e, c.f, 0); }
    }
  }

  lemma EndFits(A: Analysis, P: Prims, f: Frame, k: Callers, g: Globals)
    requires Fits(A, f, 0) && CallersFit(A, k) && f.ip < |f.m.code| && f.m.code[f.ip] == TryEnd
    ensures AllFit(A, Exec(P, f.m.code[f.ip], f, k, g))
  {
    FitsRaising(A, f, 0);
    if |f.handlers| > 0 { Along(A, f, 0, Next(f), 0); }
  }

  lemma ReturnFits(A: Analysis, f: Frame, k: Callers, g: Globals)
    requires CallersFit(A, k)
    ensures AllFit(A, ReturnFrom(f, k, g))
  {
  }

  lemma StepFits(A: Analysis, P: Prims, c: Config)
    requires AllFit(A, c)
    ensures AllFit(A, Step(P, c))
  {
    hide Fits, Raising, TakeHandler, Exec;
    match c
    case Run(f, k, g) =>
      if f.ip < |f.m.code| { ExecFits(A, P, f, k, g); } else { ReturnFits(A, f, k, g); }
    case Unwind(x, k, g) =>
      if k.Caller? {
        if |k.frame.handlers| > 0 { TakeFits(A, P, x, k.frame, k.rest, g); }
        else if k.rest.Caller? { FitsRaising(A, k.rest.frame, 1); }
      }
    case _ =>
  }

  /** From a frame just started, under callers within their bounds, however
      many steps are run, whatever they do. */
  lemma {:induction false} RunFits(A: Analysis, P: Prims, c: Config, n: nat)
    requires AllFit(A, c)
    ensures AllFit(A, Steps(P, c, n))
    decreases n
  {
    if n > 0 {
      StepFits(A, P, c);
      RunFits(A, P, Step(P, c), n - 1);
    }
  }

  /** No operand stack of a run outgrows the deepest point the analysis found
      in its body. */
  lemma StackBounded(A: Analysis, P: Prims, a: Config, c: Config)
    requires AllFit(A, a) && Reaches(P, a, c)
    ensures c.Run? && Covers(A, c.f.m) ==> |c.f.stack| <= A.deepest(c.f.m)
    ensures (c.Run? || c.Unwind?) && c.k.Caller? && Covers(A, c.k.frame.m) ==>
              |c.k.frame.stack| <= A.deepest(c.k.frame.m)
  {
    var n: nat :| Steps(P, a, n) == c;
    RunFits(A, P, a, n);
  }
}
