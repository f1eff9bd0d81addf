/** try / catch / finally: handlers installed, taken and left. */
module Handlers {
  import opened Syntax
  import opened Bytecode
  import opened Values
  import opened Evaluator
  import opened Vm
  import opened Codegen
  import opened Scoping
  import opened Placement
  import opened Correspondence
  import opened Runs

  /** A body under its catch clauses. */
  function EvalCaught(P: Prims, e: Form, env: Env, g: Env, fuel: nat): Outcome
    requires e.Try?
  {
    var o := EvalBody(P, e.body, 0, env, g, fuel);
    if o.Throws? then EvalCatch(P, e.catches, 0, o.x, env, o.g, fuel) else o
  }

  lemma TryEvaluated(P: Prims, e: Form, env: Env, g: Env, fuel: nat)
    requires e.Try?
    ensures Eval(P, e, env, g, fuel) ==
              if e.fin.NoFinally? then EvalCaught(P, e, env, g, fuel)
              else EvalFinally(P, e.fin.forms, EvalCaught(P, e, env, g, fuel), env, fuel)
  {
    hide EvalBody, EvalCatch, EvalFinally;
  }

  /** Inside a `try` there is no recur target to satisfy. */
  lemma TryRecurs(X: Site, rc: RecurCtx, n: nat, pos: nat)
    ensures RecurOk(X, IntoTry(rc), NoTarget, n, pos)
  {
  }

  /** Slot `slot` holds the exception `x` caught, for the clauses and RETHROW. */
  ghost predicate Holding(P: Prims, x: Exn<Value>, slot: nat, f: Frame) {
    && slot < |f.locals| && Rel(CaughtValue(P, x), f.locals[slot])
    && (if x.Managed? then slot in f.caught && RelExn(x, f.caught[slot]) else slot !in f.caught)
  }

  lemma HoldingKept(X: Site, x: Exn<Value>, slot: nat, n: nat, f: Frame, f1: Frame)
    requires Holding(X.P, x, slot, f) && Kept(X, n, f, f1) && slot < n
    ensures Holding(X.P, x, slot, f1)
  {
    hide Rel, RelExn;
  }

  /** TRY_BEGIN. */
  lemma Guard(X: Site, sc: Scopes, env: Env, g: Env, a: Config, pos: nat, off: nat) returns (b: Config)
    requires Ready(X, sc, env, g, a, pos) && CodeAt(X.m.code, pos, [TryBegin(off)])
    ensures Reaches(X.P, a, b) && Ready(X, sc, env, g, b, pos + 1)
    ensures b.f == a.f.(ip := pos + 1, handlers := a.f.handlers + [Handler(pos + 1 + off, |a.f.stack|)])
  {
    hide Reaches, CodeAt, WellFormed, LocalsOk, RelGlobals, PrimsAgree, Step;
    ReachesSelf(X.P, a);
    b := Then(X, a, a, TryBegin(off));
  }

  /** TRY_END, the guarded code having left its value. */
  lemma Unguard(X: Site, a: Config, h: Handler, b: Config, o: Outcome, n: nat, rt: Target, p: nat, c: Config) returns (d: Config)
    requires a.Run? && b.Run? && b.f == a.f.(ip := b.f.ip, handlers := a.f.handlers + [h]) && a.f.m == X.m
    requires Reaches(X.P, a, c) && o.Val? && After(X, o, b.f, n, rt, p, c) && CodeAt(X.m.code, p, [TryEnd])
    ensures Reaches(X.P, a, d) && After(X, o, a.f, n, rt, p + 1, d)
  {
    hide Reaches, CodeAt, Rel, RelGlobals, Preserved, CaughtKept, Step;
    d := Then(X, a, c, TryEnd);
    assert d.f.handlers == a.f.handlers;
  }

  /** The handler takes the exception and STORE_CAUGHT keeps it in `slot`: the
      state is `a`'s again, but for the slots from `n` on. */
  lemma Take(X: Site, a: Config, target: nat, b: Config, o: Outcome, n: nat, rt: Target, p: nat, slot: nat, c: Config)
    returns (d: Config)
    requires a.Run? && b.Run? && a.f.m == X.m && PrimsAgree(X.P)
    requires b.f == a.f.(ip := b.f.ip, handlers := a.f.handlers + [Handler(target, |a.f.stack|)])
    requires Reaches(X.P, a, c) && o.Throws? && After(X, o, b.f, n, rt, p, c)
    requires CodeAt(X.m.code, target, [StoreCaught(slot)])
    requires n <= slot < |a.f.locals| && NotCapture(slot, X.fin)
    ensures Reaches(X.P, a, d)
    ensures d.Run? && d.k == X.k && d.f.ip == target + 1 && RelGlobals(o.g, d.g)
    ensures Kept(X, n, a.f, d.f) && d.f.stack == a.f.stack && Holding(X.P, o.x, slot, d.f)
  {
    hide CodeAt, RelGlobals, PrimsAgree, Preserved, Rel, Reaches, NotCapture;
    var f := c.k.frame;
    ReachesThen(X.P, a, c);
    assert f.handlers[|f.handlers| - 1] == Handler(target, |a.f.stack|);
    assert f.handlers[..|f.handlers| - 1] == a.f.handlers;
    assert f.stack[..|a.f.stack|] == a.f.stack;
    var w := VmCaughtValue(X.P, c.x);
    CaughtRelated(X.P, o.x, c.x);
    var t := Step(X.P, c);
    assert t.f.stack == a.f.stack + [w];
    TakenLocals(X, n, a.f.locals, f.locals, slot, w);
    d := Then(X, a, t, StoreCaught(slot));
    assert d.f.stack == a.f.stack;
  }

  lemma TakenLocals(X: Site, n: nat, L: seq<VmValue>, L1: seq<VmValue>, slot: nat, w: VmValue)
    requires Preserved(n, X.fin, L, L1) && n <= slot < |L| && NotCapture(slot, X.fin)
    ensures |L| == |L1| && Preserved(n, X.fin, L, L1[slot := w])
  {
    StorePreserves(X, n, slot, L1, w);
    PreservedTrans(X, n, n, L, L1, L1[slot := w]);
  }

  lemma CaughtRelated(P: Prims, x: Exn<Value>, y: Exn<VmValue>)
    requires PrimsAgree(P) && RelExn(x, y)
    ensures Rel(CaughtValue(P, x), VmCaughtValue(P, y)) && x.Managed? == y.Managed?
  {
  }

  /** RETHROW. */
  lemma Again(X: Site, x: Exn<Value>, slot: nat, g: Env, f: Frame, n: nat, rt: Target, end: nat, a: Config, c: Config)
    returns (d: Config)
    requires c.Run? && c.k == X.k && c.f.m == X.m && RelGlobals(g, c.g) && Kept(X, n, f, c.f)
    requires Reaches(X.P, a, c) && Holding(X.P, x, slot, c.f) && CodeAt(X.m.code, c.f.ip, [Rethrow(slot)])
    ensures Reaches(X.P, a, d) && After(X, Throws(Passed(X.P, x), g), f, n, rt, end, d)
  {
    hide Reaches, CodeAt, RelGlobals, Step, Rel;
    d := Then(X, a, c, Rethrow(slot));
  }

  /** The slot a handler stores its exception in. */
  lemma CatchSlot(X: Site, sc: Scopes, sc1: Scopes, top1: Scope)
    requires sc.Inner? && sc1.Inner? && WellFormed(sc1) && Grows(sc, sc1) && Extends(Reserve(sc1).top, X.fin)
    ensures SlotsOf(sc) <= sc1.top.nextSlot < X.fin.nextSlot && NotCapture(sc1.top.nextSlot, X.fin)
  {
    FreshSlot(sc1, Reserve(sc1).top, X.fin);
  }

  lemma FrameSize(X: Site, sc: Scopes, env: Env, L: seq<VmValue>)
    requires sc.Inner? && LocalsOk(X, sc, env, L)
    ensures |L| == X.fin.nextSlot
  {
  }

  /** The handler's code in the scope it was compiled in. */
  lemma TakenReady(X: Site, sc: Scopes, sc1: Scopes, env: Env, g: Env, a: Config, pos: nat, g1: Env, d: Config, pos1: nat)
    requires sc.Inner? && sc1.Inner? && Ready(X, sc, env, g, a, pos) && WellFormed(sc1) && Grows(sc, sc1)
    requires Extends(Reserve(sc1).top, X.fin)
    requires d.Run? && d.k == X.k && d.f.ip == pos1 && RelGlobals(g1, d.g) && Kept(X, SlotsOf(sc), a.f, d.f)
    ensures Ready(X, Reserve(sc1), env, g1, d, pos1) && Unnamed(sc1.top.nextSlot, Reserve(sc1).top)
  {
    hide LocalsOk, Kept, RelGlobals, Extends, Grows, WellFormed, PrimsAgree;
    ReserveGrows(sc1);
    GrowsTrans(sc, sc1, Reserve(sc1));
    Resume(X, sc, Reserve(sc1), env, g, a, pos, g1, d, pos1);
  }

  /** The class test of a clause, to `pos + 3` or past its body. */
  lemma ClassTest(X: Site, x: Exn<Value>, slot: nat, classId: nat, off: nat, a: Config) returns (d: Config)
    requires PrimsAgree(X.P) && a.Run? && a.f.m == X.m && Holding(X.P, x, slot, a.f)
    requires CodeAt(X.m.code, a.f.ip, [PushLocal(slot)]) && CodeAt(X.m.code, a.f.ip + 1, [ExcMatch(classId)])
    requires CodeAt(X.m.code, a.f.ip + 2, [JumpIfFalse(off)])
    ensures Reaches(X.P, a, d)
    ensures d == a.(f := a.f.(ip := if X.P.matches(CaughtValue(X.P, x), classId) then a.f.ip + 3 else a.f.ip + 3 + off))
  {
    assert X.P.matches(CaughtValue(X.P, x), classId) == X.P.vmMatches(a.f.locals[slot], classId);
    hide Reaches, CodeAt, PrimsAgree, Rel, Step, Dispatch, ReturnFrom, Holding;
    ReachesSelf(X.P, a);
    var b := Then(X, a, a, PushLocal(slot));
    assert b.f.stack[..|b.f.stack| - 1] == a.f.stack;
    var c := Then(X, a, b, ExcMatch(classId));
    assert c.f.stack[..|c.f.stack| - 1] == a.f.stack;
    d := Then(X, a, c, JumpIfFalse(off));
  }

  /** A clause's name is an alias of the slot that holds the exception. */
  lemma ClauseReady(X: Site, sc: Scopes, env: Env, g: Env, a: Config, pos: nat, x: Exn<Value>, slot: nat, name: string)
    requires sc.Inner? && Ready(X, sc, env, g, a, pos) && Holding(X.P, x, slot, a.f)
    requires slot < sc.top.nextSlot && Unnamed(slot, sc.top) && NotCapture(slot, X.fin)
    ensures Ready(X, Alias(sc, name, slot), env[name := CaughtValue(X.P, x)], g, a.(f := a.f.(ip := pos + 3)), pos + 3)
  {
    hide PrimsAgree, RelGlobals, WellFormed, LocalsOk;
    var w := a.f.locals[slot];
    AliasWellFormed(sc, name, slot);
    AliasLocals(X, sc, Alias(sc, name, slot), env, a.f.locals, name, slot, CaughtValue(X.P, x), w);
    assert a.f.locals[slot := w] == a.f.locals;
  }

  lemma ReadyAt(X: Site, sc: Scopes, env: Env, g: Env, a: Config, pos: nat, d: Config, pos1: nat)
    requires Ready(X, sc, env, g, a, pos) && d == a.(f := a.f.(ip := pos1))
    ensures Ready(X, sc, env, g, d, pos1)
  {
  }

  /** A frame that differs in its position only. */
  lemma AfterSame(X: Site, o: Outcome, f: Frame, f1: Frame, n: nat, rt: Target, end: nat, c: Config)
    requires f1 == f.(ip := f1.ip) && After(X, o, f1, n, rt, end, c)
    ensures After(X, o, f, n, rt, end, c)
  {
    hide Rel, RelGlobals, Preserved, CaughtKept, Rebound;
  }

  /** Forms run for effect over `f1`, which holds `o`'s value over `f`. */
  lemma FinallyRan(X: Site, o: Outcome, os: Outcomes, f: Frame, n: nat, rt: Target, p: nat, c: Config, n1: nat, q: nat, off: nat, d: Config)
    requires o.Val? && After(X, o, f, n, rt, p, c) && n <= n1 && os.Vals? && AfterAll(X, os, c.f, n1, NoTarget, q, false, d)
    ensures After(X, Val(o.v, os.g), f, n, rt, q, d)
  {
    hide Rel, RelGlobals, Preserved, CaughtKept;
    KeptTrans(X, n, n1, f, c.f, d.f);
  }

  lemma EffectsState(X: Site, os: Outcomes, f: Frame, n: nat, q: nat, c: Config)
    requires os.Vals? && AfterAll(X, os, f, n, NoTarget, q, false, c)
    ensures c.Run? && c.k == X.k && RelGlobals(os.g, c.g) && c.f.ip == q && Kept(X, n, f, c.f)
  {
  }

  lemma NothingCaught(P: Prims, e: Form, env: Env, g: Env, fuel: nat)
    requires e.Try? && |e.catches| == 0
    ensures EvalCaught(P, e, env, g, fuel) == EvalBody(P, e.body, 0, env, g, fuel)
  {
    hide EvalBody;
  }

  lemma StillOutOfFuel(X: Site, o: Outcome, f: Frame, n: nat, rt: Target, end: nat, c: Config)
    requires o.OutOfFuel?
    ensures After(X, o, f, n, rt, end, c)
  {
  }

  lemma HoldingAt(P: Prims, x: Exn<Value>, slot: nat, f: Frame, f1: Frame)
    requires Holding(P, x, slot, f) && f1 == f.(ip := f1.ip)
    ensures Holding(P, x, slot, f1)
  {
  }
}
