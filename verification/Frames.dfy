/** Calls: the frame a call starts, and how it returns to its caller. */
module Frames {
  import opened Options
  import opened Syntax
  import opened Bytecode
  import opened Values
  import opened Evaluator
  import opened Vm
  import opened Codegen
  import opened Scoping
  import opened ScopingProof
  import opened Placement
  import opened Correspondence
  import opened Runs

  /** What calling `f` means. */
  function EvalApply(P: Prims, f: Value, vs: seq<Value>, g: Env, fuel: nat): Outcome {
    if f.Closure? then
      if |f.params| != |vs| then ErrorThrown(ArityMismatch(|f.params|, |vs|), g)
      else if |vs| > MAX_BOUND_PARAMETERS then ErrorThrown(TooManyParameters, g)
      else if fuel == 0 then OutOfFuel
      else EvalRounds(P, f.params, f.body, BindAll(f.env, f.params, vs, 0), g, fuel - 1)
    else
      match P.call(f, vs)
      case Returns(v) => Val(v, g)
      case Raises(x) => Throws(x, g)
  }

  lemma CallEvaluated(P: Prims, e: Form, env: Env, g: Env, fuel: nat)
    requires e.Call?
    ensures var o := Eval(P, e.head, env, g, fuel);
            Eval(P, e, env, g, fuel) ==
              if !o.Val? then o else
              var os := EvalArgs(P, e.args, 0, env, o.g, fuel);
              if os.Stopped? then os.o else EvalApply(P, o.v, os.vs, os.g, fuel)
  {
    hide EvalArgs, EvalRounds, BindAll;
  }

  /** Where a call with outcome `o` leads: its value on the caller's stack, or
      its exception unwinding from the caller. */
  ghost predicate Returned(o: Outcome, f: Frame, k: Callers, c: Config) {
    match o
    case Val(v, g) =>
      && c.Run? && c.k == k && RelGlobals(g, c.g) && |c.f.stack| == |f.stack| + 1
      && Rel(v, TopOf(c.f)) && c.f == f.(stack := f.stack + [TopOf(c.f)])
    case Throws(x, g) => c.Unwind? && c.k == Caller(f, k) && RelGlobals(g, c.g) && RelExn(x, c.x)
    case Recurs(_, _) => false
    case OutOfFuel => true
  }

  /** A body that started a frame with no handlers ends the frame. */
  lemma FrameEnds(X: Site, o: Outcome, a: Config, f: Frame, k: Callers, n: nat, end: nat, c: Config) returns (d: Config)
    requires a.Run? && a.f.m == X.m && a.f.stack == [] && a.f.handlers == [] && X.k == Caller(f, k)
    requires Reaches(X.P, a, c) && After(X, o, a.f, n, NoTarget, end, c)
    requires CodeAt(X.m.code, end, [Return])
    ensures Reaches(X.P, a, d) && Returned(o, f, k, d)
  {
    hide Rel, RelGlobals, Preserved, CaughtKept, CodeAt;
    match o
    case Val(v, g) =>
      d := Then(X, a, c, Return);
    case Throws(x, g) =>
      ReachesThen(X.P, a, c);
      d := Step(X.P, c);
    case OutOfFuel => d := c;
  }

  lemma ReturnedAfter(X: Site, o: Outcome, f: Frame, n: nat, rt: Target, p: nat, c: Config)
    requires Returned(o, f.(ip := p), X.k, c)
    ensures After(X, o, f, n, rt, p, c)
  {
  }

  lemma {:induction false} WriteCapturesLookup(L: seq<VmValue>, specs: seq<Capture>, caps: seq<VmValue>, i: nat)
    requires |specs| == |caps| && i <= |specs|
    requires forall j | i <= j < |specs| :: specs[j].localSlot < |L|
    requires forall j, k | i <= j < k < |specs| :: specs[j].localSlot < specs[k].localSlot
    ensures var r := WriteCaptures(L, specs, caps, i);
            && |r| == |L|
            && (forall j | i <= j < |specs| :: r[specs[j].localSlot] == caps[j])
            && (forall s | 0 <= s < |L| && (forall j | i <= j < |specs| :: s < specs[j].localSlot) :: r[s] == L[s])
    decreases |specs| - i
  {
    if i < |specs| { WriteCapturesLookup(L[specs[i].localSlot := caps[i]], specs, caps, i + 1); }
  }

  /** The scopes a fn body is compiled in, before and after. */
  ghost predicate BodyScopes(params: seq<string>, outer: Scopes, sc: Scopes, r: Piece, X: Site) {
    && sc == Inner(ParamScope(params), outer) && WellFormed(sc)
    && r.sc.Inner? && WellFormed(r.sc) && Grows(sc, r.sc)
    && X.m == FnModule(r, |params|) && X.fin == r.sc.top
  }

  /** Captures of a body come after its parameters, in distinct slots. */
  lemma CaptureSlots(params: seq<string>, outer: Scopes, sc: Scopes, r: Piece, X: Site)
    requires BodyScopes(params, outer, sc, r, X)
    ensures X.m.arity == |params| && X.m.captures == X.fin.captures
    ensures X.m.arity + X.m.localCount == X.fin.nextSlot
    ensures forall j | 0 <= j < |X.fin.captures| :: |params| <= X.fin.captures[j].localSlot < X.fin.nextSlot
    ensures forall j, k | 0 <= j < k < |X.fin.captures| :: X.fin.captures[j].localSlot < X.fin.captures[k].localSlot
  {
  }

  lemma FrameLocals(params: seq<string>, outer: Scopes, sc: Scopes, r: Piece, X: Site, ws: seq<VmValue>, caps: seq<VmValue>)
    requires BodyScopes(params, outer, sc, r, X) && |ws| == |params| && |caps| == |X.m.captures|
    ensures X.m.arity == |params| && (forall j | 0 <= j < |caps| :: X.m.captures[j].localSlot < X.m.arity + X.m.localCount)
    ensures var L := InitialLocals(X.m, ws, caps);
            && |L| == X.fin.nextSlot >= |params|
            && (forall i | 0 <= i < |params| :: L[i] == ws[i])
            && (forall j | 0 <= j < |caps| :: X.fin.captures[j].localSlot < |L| && L[X.fin.captures[j].localSlot] == caps[j])
  {
    CaptureSlots(params, outer, sc, r, X);
    hide WellFormed, Grows;
    var L0 := ws + seq(X.m.localCount, _ => VNil);
    WriteCapturesLookup(L0, X.m.captures, caps, 0);
    var L := InitialLocals(X.m, ws, caps);
    forall i | 0 <= i < |params| ensures L[i] == ws[i] {
      assert forall j | 0 <= j < |X.m.captures| :: i < X.m.captures[j].localSlot;
    }
  }

  /** A frame's slots hold the environment of the call. */
  lemma CalleeLocals(X: Site, params: seq<string>, outer: Scopes, sc: Scopes, r: Piece,
                     vs: seq<Value>, ws: seq<VmValue>, caps: seq<VmValue>, L: seq<VmValue>)
    requires BodyScopes(params, outer, sc, r, X) && |vs| == |params| && RelAll(vs, ws)
    requires forall x :: x in X.D <==> Bound(outer, x)
    requires |L| == X.fin.nextSlot >= |params| && |caps| == |X.fin.captures|
    requires forall i | 0 <= i < |params| :: L[i] == ws[i]
    requires forall j | 0 <= j < |caps| :: X.fin.captures[j].localSlot < |L| && L[X.fin.captures[j].localSlot] == caps[j]
    requires forall j | 0 <= j < |caps| :: X.fin.captures[j].name in X.D && Rel(X.D[X.fin.captures[j].name], caps[j])
    ensures LocalsOk(X, sc, BindAll(X.D, params, vs, 0), L)
  {
    hide WellFormed, Grows, Rel, BindAll;
    var env := BindAll(X.D, params, vs, 0);
    ParamNamesFacts(params, |params|);
    forall x
      ensures x in env <==> Bound(sc, x)
      ensures x in sc.top.names ==> sc.top.names[x] < |L| && x in env && Rel(env[x], L[sc.top.names[x]])
      ensures x in env && x !in sc.top.names ==> x in X.D && X.D[x] == env[x]
    {
      BindAllLookup(X.D, params, vs, 0, x);
      assert params[0..] == params;
      if x in sc.top.names {
        ParamNamesLast(params, |params|, x);
        assert params[..|params|] == params;
        var j :| 0 <= j && LastAt(params, x, j) && env[x] == vs[j];
        LastAtUnique(params, x, j, sc.top.names[x]);
      }
    }
  }

  /** The frame a call starts is ready to run the body of the closure called. */
  lemma CalleeReady(X: Site, params: seq<string>, outer: Scopes, sc: Scopes, r: Piece, g: Env,
                    vs: seq<Value>, ws: seq<VmValue>, caps: seq<VmValue>, a: Config)
    requires PrimsAgree(X.P) && BodyScopes(params, outer, sc, r, X) && |vs| == |params| && RelAll(vs, ws)
    requires forall x :: x in X.D <==> Bound(outer, x)
    requires |caps| == |X.m.captures|
    requires forall j | 0 <= j < |caps| :: X.m.captures[j].name in X.D && Rel(X.D[X.m.captures[j].name], caps[j])
    requires forall j | 0 <= j < |caps| :: X.m.captures[j].localSlot < X.m.arity + X.m.localCount
    requires X.m.arity == |params| && a.Run? && a.k == X.k && a.f == NewFrame(X.m, ws, caps) && RelGlobals(g, a.g)
    ensures Ready(X, sc, BindAll(X.D, params, vs, 0), g, a, 0)
    ensures SlotsFit(X, Upto(|params|), 0, SlotsOf(sc)) && LoopNames(sc.top, params, Upto(|params|))
  {
    CaptureSlots(params, outer, sc, r, X);
    FrameLocals(params, outer, sc, r, X, ws, caps);
    hide WellFormed, Grows, Rel, BindAll, PrimsAgree, RelGlobals, LocalsOk, LoopNames, InitialLocals, BodyScopes;
    ScopeReady(params, outer, sc, r, X);
    CalleeLocals(X, params, outer, sc, r, vs, ws, caps, a.f.locals);
    ParamsNamed(params);
    ParamSlotsFit(X, |params|);
  }

  lemma ScopeReady(params: seq<string>, outer: Scopes, sc: Scopes, r: Piece, X: Site)
    requires BodyScopes(params, outer, sc, r, X)
    ensures WellFormed(sc) && sc == Inner(ParamScope(params), outer)
  {
  }

  lemma ParamSlotsFit(X: Site, n: nat)
    requires forall j | 0 <= j < |X.fin.captures| :: n <= X.fin.captures[j].localSlot
    ensures SlotsFit(X, Upto(n), 0, n)
  {
  }

  /** CALL of anything but a closure it can enter. */
  lemma InvokePrim(X: Site, f: Value, h: VmValue, vs: seq<Value>, ws: seq<VmValue>, g: Env, base: seq<VmValue>, n: nat, rt: Target, b: Config)
    requires PrimsAgree(X.P) && Rel(f, h) && RelAll(vs, ws) && !f.Closure?
    requires b.Run? && b.k == X.k && RelGlobals(g, b.g) && b.f.stack == base + [h] + ws
    ensures After(X, EvalApply(X.P, f, vs, g, 0), b.f.(stack := base), n, rt, b.f.ip + 1, Dispatch(X.P, |vs|, b.f, b.k, b.g))
  {
    assert b.f.stack[..|base|] == base && b.f.stack[|base| + 1..] == ws && b.f.stack[|base|] == h;
    assert !h.VFn?;
    hide Rel;
    assert RelResult(X.P.call(f, vs), X.P.vmCall(h, ws));
    hide PrimsAgree;
  }

  lemma InvokeRefused(X: Site, f: Value, h: VmValue, vs: seq<Value>, ws: seq<VmValue>, g: Env, fuel: nat, base: seq<VmValue>, n: nat,
                      rt: Target, b: Config)
    requires h.VFn? && f.Closure? && h.m.arity == |f.params| && |vs| == |ws|
    requires |f.params| != |vs| || |vs| > MAX_BOUND_PARAMETERS
    requires b.Run? && b.k == X.k && RelGlobals(g, b.g) && b.f.stack == base + [h] + ws
    ensures After(X, EvalApply(X.P, f, vs, g, fuel), b.f.(stack := base), n, rt, b.f.ip + 1, Dispatch(X.P, |vs|, b.f, b.k, b.g))
  {
    hide EvalRounds, BindAll, RelGlobals;
    assert b.f.stack[..|base|] == base && b.f.stack[|base| + 1..] == ws && b.f.stack[|base|] == h;
  }

  lemma InvokeEnters(P: Prims, h: VmValue, ws: seq<VmValue>, base: seq<VmValue>, b: Config)
    requires h.VFn? && h.m.arity == |ws| <= MAX_BOUND_PARAMETERS && |h.caps| == |h.m.captures|
    requires forall j | 0 <= j < |h.m.captures| :: h.m.captures[j].localSlot < h.m.arity + h.m.localCount
    requires b.Run? && b.f.stack == base + [h] + ws
    ensures Dispatch(P, |ws|, b.f, b.k, b.g) ==
              Run(NewFrame(h.m, ws, h.caps), Caller(b.f.(stack := base, ip := b.f.ip + 1), b.k), b.g)
  {
    assert b.f.stack[..|base|] == base && b.f.stack[|base| + 1..] == ws && b.f.stack[|base|] == h;
  }

  /** The closure a function value represents, with the scopes it was made in. */
  lemma ClosureOf(f: Value, h: VmValue) returns (outer: Scopes)
    requires f.Closure? && Rel(f, h)
    ensures h.VFn? && |h.caps| == |h.m.captures| && CompiledFrom(f.params, f.body, f.env.Keys, outer, h.m)
    ensures h.m.arity == |f.params|
    ensures forall j | 0 <= j < |h.caps| :: h.m.captures[j].name in f.env && Rel(f.env[h.m.captures[j].name], h.caps[j])
  {
    outer :| CompiledFrom(f.params, f.body, f.env.Keys, outer, h.m);
  }

  lemma BodyPlaced(X: Site, params: seq<string>, body: seq<Form>, outer: Scopes, names: set<string>)
    requires CompiledFrom(params, body, names, outer, X.m) && X.fin == CompileFn(params, body, outer).sc.top
    ensures var sc := Inner(ParamScope(params), outer);
            var r := CompileBody(body, 0, sc, Target(0, Upto(|params|)), 0);
            && BodyScopes(params, outer, sc, r, X) && Placed(X, 0, r) && CodeAt(X.m.code, |r.code|, [Return])
    ensures CheckAll(body, 0, InLoop(|params|, false), false) == None && LevelAll(body, 0, true, true, true, false)
  {
    FnGrows(params, body, outer);
    ParamScopeWellFormed(params, outer);
    hide WellFormed, Grows, CheckAll, LevelAll, CompileBody;
    var r := CompileFn(params, body, outer);
    BodyGrows(body, 0, Inner(ParamScope(params), outer), Target(0, Upto(|params|)), 0);
    assert X.m.code[0..|r.code|] == r.code;
    assert X.m.code[|r.code|..|r.code| + 1] == [Return];
    ExtendsSelf(r.sc.top);
  }

  lemma ValKept(X: Site, o: Outcome, f: Frame, n: nat, rt: Target, end: nat, c: Config)
    requires o.Val? && After(X, o, f, n, rt, end, c)
    ensures c.Run? && c.f.m == f.m && Kept(X, n, f, c.f)
  {
  }

  /** Callee and arguments, as the code of a call leaves them. */
  lemma CalleeOnTop(X: Site, o: Outcome, os: Outcomes, f: Frame, n: nat, rt: Target, p: nat, b: Config, n1: nat, q: nat, c: Config)
    returns (h: VmValue, ws: seq<VmValue>)
    requires o.Val? && os.Vals? && n <= n1
    requires After(X, o, f, n, rt, p, b) && AfterAll(X, os, b.f, n1, rt, q, true, c)
    ensures c.Run? && c.k == X.k && c.f.ip == q && c.f.m == f.m && RelGlobals(os.g, c.g)
    ensures Rel(o.v, h) && RelAll(os.vs, ws) && |os.vs| == |ws| && c.f.stack == f.stack + [h] + ws
    ensures Kept(X, n, f, c.f.(stack := f.stack))
  {
    hide Rel, RelGlobals;
    h := TopOf(b.f);
    ws := ArgsOnTop(X, os, b.f, n1, rt, q, c);
    KeptTrans(X, n, n1, f, b.f, c.f);
    assert b.f.stack == f.stack + [h];
  }

  lemma InvokeStep(P: Prims, c: Config, n: nat)
    requires c.Run?
    ensures Exec(P, Invoke(n), c.f, c.k, c.g) == Dispatch(P, n, c.f, c.k, c.g)
  {
  }

  lemma ApplyAnyFuel(P: Prims, f: Value, vs: seq<Value>, g: Env, fuel: nat)
    requires !f.Closure?
    ensures EvalApply(P, f, vs, g, fuel) == EvalApply(P, f, vs, g, 0)
  {
  }

  lemma ApplyOutOfFuel(X: Site, f: Value, vs: seq<Value>, g: Env, fr: Frame, n: nat, rt: Target, end: nat, c: Config)
    requires f.Closure? && |f.params| == |vs| <= MAX_BOUND_PARAMETERS
    ensures After(X, EvalApply(X.P, f, vs, g, 0), fr, n, rt, end, c)
  {
  }

  lemma ApplyRunsOut(P: Prims, f: Value, vs: seq<Value>, g: Env, fuel: nat)
    ensures EvalApply(P, f, vs, g, fuel).OutOfFuel? ==> f.Closure? && |f.params| == |vs| <= MAX_BOUND_PARAMETERS
  {
    hide EvalRounds, BindAll;
  }

  lemma ApplyNoRecur(P: Prims, f: Value, vs: seq<Value>, g: Env, fuel: nat)
    ensures !EvalApply(P, f, vs, g, fuel).Recurs?
  {
    hide EvalRounds, BindAll;
    if f.Closure? && |f.params| == |vs| <= MAX_BOUND_PARAMETERS && fuel > 0 {
      RoundsNoRecur(P, f.params, f.body, BindAll(f.env, f.params, vs, 0), g, fuel - 1);
    }
  }

  lemma {:induction false} RoundsNoRecur(P: Prims, names: seq<string>, body: seq<Form>, env: Env, g: Env, fuel: nat)
    ensures !EvalRounds(P, names, body, env, g, fuel).Recurs?
    decreases fuel
  {
    hide EvalBody, BindAll;
    var o := EvalBody(P, body, 0, env, g, fuel);
    if o.Recurs? && |o.args| == |names| && fuel > 0 {
      RoundsNoRecur(P, names, body, BindAll(env, names, o.args, 0), o.g, fuel - 1);
    }
  }

  lemma CompiledNames(params: seq<string>, body: seq<Form>, env: Env, outer: Scopes, m: Module)
    requires CompiledFrom(params, body, env.Keys, outer, m)
    ensures forall x :: x in env <==> Bound(outer, x)
  {
    hide WellFormed, CheckAll, LevelAll, CompileFn;
    forall x ensures x in env <==> Bound(outer, x) { assert x in env.Keys <==> Bound(outer, x); }
  }

  lemma RelAllCount(vs: seq<Value>, ws: seq<VmValue>)
    requires RelAll(vs, ws)
    ensures |vs| == |ws|
  {
  }

  lemma EnteredSlots(X: Site, params: seq<string>, outer: Scopes, sc: Scopes, r: Piece, h: VmValue)
    requires BodyScopes(params, outer, sc, r, X) && h.VFn? && h.m == X.m
    ensures forall j | 0 <= j < |h.m.captures| :: h.m.captures[j].localSlot < h.m.arity + h.m.localCount
  {
    CaptureSlots(params, outer, sc, r, X);
  }

  lemma FreshFrame(m: Module, ws: seq<VmValue>, caps: seq<VmValue>)
    requires |ws| == m.arity && |caps| == |m.captures|
    requires forall j | 0 <= j < |m.captures| :: m.captures[j].localSlot < m.arity + m.localCount
    ensures NewFrame(m, ws, caps).m == m && NewFrame(m, ws, caps).stack == [] && NewFrame(m, ws, caps).handlers == []
  {
  }
}
