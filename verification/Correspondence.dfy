/** What it means for a VM state to represent a state of the evaluator. */
module Correspondence {
  import opened Options
  import opened Syntax
  import opened Bytecode
  import opened Values
  import opened Evaluator
  import opened Vm
  import opened Codegen
  import opened Scoping
  import opened Placement

  /** `m` is the body compiled in scopes that bind exactly `names`. */
  ghost predicate CompiledFrom(params: seq<string>, body: seq<Form>, names: set<string>, sc: Scopes, m: Module) {
    && WellFormed(sc)
    && (forall x :: x in names <==> Bound(sc, x))
    && CheckAll(body, 0, InLoop(|params|, false), false) == None
    && LevelAll(body, 0, true, true, true, false)
    && m == FnModule(CompileFn(params, body, sc), |params|)
  }

  /** `w` is `v` as the VM holds it; a closure is its compiled body with the
      values its captured names have in its environment. */
  ghost predicate Rel(v: Value, w: VmValue)
    decreases v
  {
    match v
    case Nil => w == VNil
    case True => w == VTrue
    case False => w == VFalse
    case Atom(a) => w == VAtom(a)
    case Error(kind) => w == VError(kind)
    case Node(tag, items) =>
      && w.VNode? && w.tag == tag && |w.items| == |items|
      && (forall i | 0 <= i < |items| :: Rel(items[i], w.items[i]))
    case Closure(params, body, env) =>
      && w.VFn? && |w.caps| == |w.m.captures|
      && (exists sc :: CompiledFrom(params, body, env.Keys, sc, w.m))
      && (forall i | 0 <= i < |w.caps| ::
            w.m.captures[i].name in env && Rel(env[w.m.captures[i].name], w.caps[i]))
  }

  ghost predicate RelAll(vs: seq<Value>, ws: seq<VmValue>) {
    |vs| == |ws| && forall i | 0 <= i < |vs| :: Rel(vs[i], ws[i])
  }

  ghost predicate RelGlobals(g: Env, vg: Globals) {
    g.Keys == vg.Keys && forall x | x in g :: Rel(g[x], vg[x])
  }

  ghost predicate RelExn(x: Exn<Value>, y: Exn<VmValue>) {
    match x
    case Managed(v, tag) => y.Managed? && y.tag == tag && Rel(v, y.value)
    case Foreign(what) => y == Foreign(what)
  }

  ghost predicate RelResult(r: PrimResult<Value>, s: PrimResult<VmValue>) {
    match r
    case Returns(v) => s.Returns? && Rel(v, s.value)
    case Raises(x) => s.Raises? && RelExn(x, s.exn)
  }

  /** The unmodelled runtime does the same on both kinds of value. */
  ghost predicate PrimsAgree(P: Prims) {
    && (forall f, h, vs, ws | Rel(f, h) && RelAll(vs, ws) && !f.Closure? ::
          RelResult(P.call(f, vs), P.vmCall(h, ws)))
    && (forall v, w, c | Rel(v, w) :: P.matches(v, c) == P.vmMatches(w, c))
    && (forall v, w | Rel(v, w) :: P.throwable(v) == P.vmThrowable(w))
    && (forall n :: Rel(P.translate(n), P.vmTranslate(n)))
  }

  /** What stays fixed while a frame runs: its module and callers, the
      environment its fn was made in, and its scope once fully compiled. */
  datatype Site = Site(P: Prims, m: Module, k: Callers, D: Env, fin: Scope)

  /** The slots `L` hold `env` as `sc` names it, and the captures the frame
      started with. */
  ghost predicate LocalsOk(X: Site, sc: Scopes, env: Env, L: seq<VmValue>) {
    if sc.NoScope? then env == map[] && L == [] && X.fin.captures == [] else
    && (forall x :: x in env <==> Bound(sc, x))
    && (forall x | x in sc.top.names ::
          sc.top.names[x] < |L| && x in env && Rel(env[x], L[sc.top.names[x]]))
    && (forall x | x in env && x !in sc.top.names :: x in X.D && X.D[x] == env[x])
    && CapturesOk(X, L)
  }

  ghost predicate CapturesOk(X: Site, L: seq<VmValue>) {
    && X.fin.nextSlot == |L|
    && (forall i | 0 <= i < |X.fin.captures| ::
          && X.fin.captures[i].name in X.D && X.fin.captures[i].localSlot < |L|
          && Rel(X.D[X.fin.captures[i].name], L[X.fin.captures[i].localSlot]))
  }

  /** Slots below `n` and the captures are unchanged. */
  ghost predicate Preserved(n: nat, fin: Scope, L: seq<VmValue>, L1: seq<VmValue>) {
    && |L| == |L1|
    && (forall s | 0 <= s < n && s < |L| :: L1[s] == L[s])
    && CapturesPreserved(fin, L, L1)
  }

  ghost predicate CapturesPreserved(fin: Scope, L: seq<VmValue>, L1: seq<VmValue>)
    requires |L| == |L1|
  {
    forall i | 0 <= i < |fin.captures| && fin.captures[i].localSlot < |L| ::
      L1[fin.captures[i].localSlot] == L[fin.captures[i].localSlot]
  }

  ghost predicate CaughtKept(n: nat, a: map<nat, Exn<VmValue>>, b: map<nat, Exn<VmValue>>) {
    forall s | 0 <= s < n :: (s in a <==> s in b) && (s in a ==> a[s] == b[s])
  }

  /** `f1` is `f` as far as the code around the form that ran can tell. */
  ghost predicate Kept(X: Site, n: nat, f: Frame, f1: Frame) {
    && f1.m == f.m && f1.handlers == f.handlers && f.stack <= f1.stack
    && Preserved(n, X.fin, f.locals, f1.locals) && CaughtKept(n, f.caught, f1.caught)
  }

  /** A run of code placed at the frame's position, ready to start. */
  ghost predicate Ready(X: Site, sc: Scopes, env: Env, g: Env, c: Config, pos: nat) {
    && PrimsAgree(X.P) && WellFormed(sc)
    && c.Run? && c.k == X.k && c.f.m == X.m && c.f.ip == pos
    && LocalsOk(X, sc, env, c.f.locals) && RelGlobals(g, c.g)
  }

  /** The code of a form compiled to `r` at `pos`. */
  ghost predicate Placed(X: Site, pos: nat, r: Piece) {
    CodeAt(X.m.code, pos, r.code) && (r.sc.Inner? ==> Extends(r.sc.top, X.fin))
  }

  ghost predicate Rebound(X: Site, n: nat, slots: seq<nat>, vs: seq<Value>, L: seq<VmValue>, L1: seq<VmValue>) {
    && |L| == |L1| && |vs| == |slots|
    && (forall s | 0 <= s < n && s < |L| && s !in slots :: L1[s] == L[s])
    && CapturesPreserved(X.fin, L, L1)
    && (forall i | 0 <= i < |slots| :: slots[i] < |L1| && Rel(vs[i], L1[slots[i]]))
  }

  /** The state `c` a form with outcome `o` leads to from `f`: its value pushed
      once at `end`, its exception unwinding from this frame, or the loop
      variables rebound at the recur target. Slots below `n`, the handlers and
      the callers are as before. */
  ghost predicate After(X: Site, o: Outcome, f: Frame, n: nat, rt: Target, end: nat, c: Config) {
    match o
    case Val(v, g) =>
      && c.Run? && c.k == X.k && RelGlobals(g, c.g) && c.f.ip == end
      && Kept(X, n, f, c.f) && |c.f.stack| == |f.stack| + 1 && Rel(v, TopOf(c.f))
    case Throws(x, g) =>
      && c.Unwind? && c.k.Caller? && c.k.rest == X.k && RelGlobals(g, c.g)
      && RelExn(x, c.x) && Kept(X, n, f, c.k.frame)
    case Recurs(vs, g) =>
      && rt.Target? && c.Run? && c.k == X.k && RelGlobals(g, c.g) && c.f.ip == rt.start
      && c.f.m == f.m && c.f.handlers == f.handlers && c.f.stack == f.stack
      && CaughtKept(n, f.caught, c.f.caught)
      && Rebound(X, n, rt.slots, vs, f.locals, c.f.locals)
    case OutOfFuel => true
  }

  /** The same for forms evaluated onto the stack, or (`keep` false) for effect. */
  ghost predicate AfterAll(X: Site, os: Outcomes, f: Frame, n: nat, rt: Target, end: nat, keep: bool, c: Config) {
    match os
    case Vals(vs, g) =>
      && c.Run? && c.k == X.k && RelGlobals(g, c.g) && c.f.ip == end
      && Kept(X, n, f, c.f)
      && (if keep then RelAll(vs, c.f.stack[|f.stack|..]) else c.f.stack == f.stack)
    case Stopped(o) => !o.Val? && After(X, o, f, n, rt, end, c)
  }

  /** The recur target, when a recur is allowed, is one this code can reach:
      distinct slots in use that are not captures. */
  ghost predicate RecurOk(X: Site, rc: RecurCtx, rt: Target, n: nat, pos: nat) {
    rc.InLoop? && !rc.acrossTry ==>
      && rt.Target? && |rt.slots| == rc.arity && rt.start <= pos
      && (forall i | 0 <= i < |rt.slots| :: rt.slots[i] < n && NotCapture(rt.slots[i], X.fin))
      && (forall i, j | 0 <= i < j < |rt.slots| :: rt.slots[i] != rt.slots[j])
  }

  /** Running compiled code keeps the locals right for the scopes it leaves. */
  lemma GrowLocals(X: Site, sc: Scopes, sc1: Scopes, env: Env, L: seq<VmValue>, L1: seq<VmValue>)
    requires LocalsOk(X, sc, env, L) && WellFormed(sc) && WellFormed(sc1) && Grows(sc, sc1)
    requires sc1.Inner? ==> Extends(sc1.top, X.fin)
    requires Preserved(SlotsOf(sc), X.fin, L, L1)
    ensures LocalsOk(X, sc1, env, L1)
  {
    if sc.Inner? {
      forall x ensures x in env <==> Bound(sc1, x) { GrowsBound(sc, sc1, x); }
      forall x | x in sc1.top.names
        ensures sc1.top.names[x] < |L1| && x in env && Rel(env[x], L1[sc1.top.names[x]])
      {
        assert Bound(sc1, x);
        if x !in sc.top.names {
          assert CapturedAfter(x, |sc.top.captures|, sc1.top);
          var i :| |sc.top.captures| <= i < |sc1.top.captures| && sc1.top.captures[i].name == x
                   && sc1.top.captures[i].localSlot == sc1.top.names[x];
          assert X.fin.captures[i] == sc1.top.captures[i];
        }
      }
    }
  }

  lemma StorePreserves(X: Site, n: nat, slot: nat, L: seq<VmValue>, w: VmValue)
    requires n <= slot < |L| && NotCapture(slot, X.fin)
    ensures Preserved(n, X.fin, L, L[slot := w])
  {
  }

  lemma BindLocals(X: Site, sc: Scopes, env: Env, L: seq<VmValue>, x: string, v: Value, w: VmValue)
    requires sc.Inner? && WellFormed(sc) && LocalsOk(X, sc, env, L) && Extends(Bind(sc, x).top, X.fin) && Rel(v, w)
    ensures sc.top.nextSlot < |L| && NotCapture(sc.top.nextSlot, X.fin)
    ensures LocalsOk(X, Bind(sc, x), env[x := v], L[sc.top.nextSlot := w])
  {
    FreshSlot(sc, Bind(sc, x).top, X.fin);
    AliasLocals(X, sc, Bind(sc, x), env, L, x, sc.top.nextSlot, v, w);
  }

  /** `slot`, which nothing names and no capture uses, is given to `x`. */
  lemma AliasLocals(X: Site, sc: Scopes, sc1: Scopes, env: Env, L: seq<VmValue>, x: string, slot: nat, v: Value, w: VmValue)
    requires sc.Inner? && sc1.Inner? && sc1.outer == sc.outer && sc1.top.names == sc.top.names[x := slot]
    requires LocalsOk(X, sc, env, L) && Unnamed(slot, sc.top) && slot < |L| && NotCapture(slot, X.fin) && Rel(v, w)
    ensures LocalsOk(X, sc1, env[x := v], L[slot := w])
  {
    hide Rel;
    var env1 := env[x := v];
    forall y ensures y in env1 <==> Bound(sc1, y) {
      if y != x { assert y in env1 <==> y in env; assert Bound(sc1, y) <==> Bound(sc, y); }
    }
  }

  lemma PreservedTrans(X: Site, n: nat, n1: nat, L: seq<VmValue>, L1: seq<VmValue>, L2: seq<VmValue>)
    requires n <= n1 && Preserved(n, X.fin, L, L1) && Preserved(n1, X.fin, L1, L2)
    ensures Preserved(n, X.fin, L, L2)
  {
    forall i | 0 <= i < |X.fin.captures| && X.fin.captures[i].localSlot < |L|
      ensures L2[X.fin.captures[i].localSlot] == L[X.fin.captures[i].localSlot]
    {
      assert L1[X.fin.captures[i].localSlot] == L[X.fin.captures[i].localSlot];
    }
  }

  lemma KeptTrans(X: Site, n: nat, n1: nat, f: Frame, f1: Frame, f2: Frame)
    requires n <= n1 && Kept(X, n, f, f1) && Kept(X, n1, f1, f2)
    ensures Kept(X, n, f, f2)
  {
    PreservedTrans(X, n, n1, f.locals, f1.locals, f2.locals);
    assert f.stack <= f2.stack;
  }

  lemma KeptSelf(X: Site, n: nat, f: Frame)
    ensures Kept(X, n, f, f)
  {
  }

  /** A run that started in `f1`, which is `f` with (for an exception: at
      least) its stack, ends as one that started in `f`. */
  lemma AfterChain(X: Site, o: Outcome, n: nat, f: Frame, n1: nat, f1: Frame, rt: Target, end: nat, c: Config)
    requires n <= n1 && Kept(X, n, f, f1) && After(X, o, f1, n1, rt, end, c)
    requires o.Throws? || o.OutOfFuel? || f1.stack == f.stack
    ensures After(X, o, f, n, rt, end, c)
  {
    match o
    case Val(_, _) => KeptTrans(X, n, n1, f, f1, c.f);
    case Throws(_, _) => KeptTrans(X, n, n1, f, f1, c.k.frame);
    case Recurs(vs, _) =>
      assert CapturesPreserved(X.fin, f.locals, c.f.locals) by {
        forall i | 0 <= i < |X.fin.captures| && X.fin.captures[i].localSlot < |f.locals|
          ensures c.f.locals[X.fin.captures[i].localSlot] == f.locals[X.fin.captures[i].localSlot]
        {
          assert f1.locals[X.fin.captures[i].localSlot] == f.locals[X.fin.captures[i].localSlot];
        }
      }
    case OutOfFuel =>
  }
}
