/** Runs of one or a few instructions, and how runs compose. */
module Runs {
  import opened Options
  import opened Syntax
  import opened Bytecode
  import opened Values
  import opened Evaluator
  import opened Vm
  import opened Codegen
  import opened Scoping
  import opened ScopingProof
  import opened Placement
  import opened Correspondence

  /** After some of a piece has run, the rest of it is ready to run. */
  lemma Resume(X: Site, sc: Scopes, sc1: Scopes, env: Env, g: Env, a: Config, pos: nat, g1: Env, c: Config, pos1: nat)
    requires Ready(X, sc, env, g, a, pos) && WellFormed(sc1) && Grows(sc, sc1)
    requires sc1.Inner? ==> Extends(sc1.top, X.fin)
    requires c.Run? && c.k == X.k && c.f.ip == pos1 && RelGlobals(g1, c.g) && Kept(X, SlotsOf(sc), a.f, c.f)
    ensures Ready(X, sc1, env, g1, c, pos1)
  {
    GrowLocals(X, sc, sc1, env, a.f.locals, c.f.locals);
  }

  lemma RecurOkLater(X: Site, rc: RecurCtx, rt: Target, n: nat, pos: nat, n1: nat, pos1: nat)
    requires RecurOk(X, rc, rt, n, pos) && n <= n1 && pos <= pos1
    ensures RecurOk(X, rc, rt, n1, pos1)
  {
  }

  lemma AfterElsewhere(X: Site, o: Outcome, f: Frame, n: nat, rt: Target, end: nat, rt1: Target, end1: nat, c: Config)
    requires After(X, o, f, n, rt, end, c) && !o.Val? && (o.Recurs? ==> rt == rt1)
    ensures After(X, o, f, n, rt1, end1, c)
  {
  }

  /** One instruction after a run. */
  lemma Then(X: Site, a: Config, b: Config, i: Instr) returns (c: Config)
    requires Reaches(X.P, a, b) && b.Run? && CodeAt(X.m.code, b.f.ip, [i]) && b.f.m == X.m
    ensures Reaches(X.P, a, c) && c == Exec(X.P, i, b.f, b.k, b.g)
  {
    CodeAtHead(X.m.code, b.f.ip, [i]);
    ReachesThen(X.P, a, b);
    c := Step(X.P, b);
  }

  lemma AfterNoRecur(X: Site, o: Outcome, f: Frame, n: nat, rt: Target, end: nat, c: Config)
    requires After(X, o, f, n, NoTarget, end, c)
    ensures After(X, o, f, n, rt, end, c) && !o.Recurs?
  {
  }

  /** A push of related values. */
  lemma AfterPush(X: Site, v: Value, g: Env, a: Config, n: nat, rt: Target, w: VmValue)
    requires a.Run? && a.k == X.k && RelGlobals(g, a.g) && Rel(v, w)
    ensures After(X, Val(v, g), a.f, n, rt, a.f.ip + 1, Run(Push(a.f, w), a.k, a.g))
  {
  }

  lemma AfterError(X: Site, kind: ErrorKind, g: Env, a: Config, n: nat, rt: Target, end: nat)
    requires a.Run? && a.k == X.k && RelGlobals(g, a.g)
    ensures After(X, ErrorThrown(kind, g), a.f, n, rt, end, RaiseError(kind, a.f, a.k, a.g))
  {
  }

  lemma SimLiteral(X: Site, k: Const, g: Env, n: nat, rt: Target, pos: nat, a: Config) returns (c: Config)
    requires a.Run? && a.k == X.k && a.f.m == X.m && a.f.ip == pos && RelGlobals(g, a.g)
    requires CodeAt(X.m.code, pos, [PushLiteral(k)])
    ensures Reaches(X.P, a, c) && After(X, Val(ConstValue(k), g), a.f, n, rt, pos + 1, c)
  {
    ReachesSelf(X.P, a);
    c := Then(X, a, a, PushLiteral(k));
    AfterPush(X, ConstValue(k), g, a, n, rt, ConstVmValue(k));
  }

  lemma LocalHolds(X: Site, sc: Scopes, env: Env, L: seq<VmValue>, x: string)
    requires LocalsOk(X, sc, env, L)
    ensures x in env <==> Bound(sc, x)
    ensures sc.Inner? && x in sc.top.names ==>
              sc.top.names[x] < |L| && x in env && Rel(env[x], L[sc.top.names[x]])
  {
  }

  lemma SimSym(X: Site, x: string, env: Env, g: Env, sc: Scopes, rt: Target, pos: nat, a: Config) returns (c: Config)
    requires Ready(X, sc, env, g, a, pos) && Placed(X, pos, Compile(Sym(x), sc, rt, pos))
    ensures Reaches(X.P, a, c)
    ensures After(X, Eval(X.P, Sym(x), env, g, 0), a.f, SlotsOf(sc), rt, pos + 1, c)
  {
    hide WellFormed, Grows, LocalsOk, PrimsAgree, Extends, After, Kept, Rel;
    ReachesSelf(X.P, a);
    ResolveGrows(x, sc);
    ResolveBound(x, sc);
    LocalHolds(X, sc, env, a.f.locals, x);
    match Resolve(x, sc)
    case NotLocal =>
      c := SimGlobal(X, x, g, SlotsOf(sc), rt, pos, a);
    case Local(slot, sc1) =>
      KeptSelf(X, SlotsOf(sc), a.f);
      Resume(X, sc, sc1, env, g, a, pos, g, a, pos);
      LocalHolds(X, sc1, env, a.f.locals, x);
      c := Then(X, a, a, PushLocal(slot));
      AfterPush(X, env[x], g, a, SlotsOf(sc), rt, a.f.locals[slot]);
  }

  lemma SimGlobal(X: Site, x: string, g: Env, n: nat, rt: Target, pos: nat, a: Config) returns (c: Config)
    requires a.Run? && a.k == X.k && a.f.m == X.m && a.f.ip == pos && RelGlobals(g, a.g)
    requires CodeAt(X.m.code, pos, [PushVar(x)])
    ensures Reaches(X.P, a, c) && After(X, Eval(X.P, Global(x), map[], g, 0), a.f, n, rt, pos + 1, c)
  {
    ReachesSelf(X.P, a);
    c := Then(X, a, a, PushVar(x));
    if x in g { AfterPush(X, g[x], g, a, n, rt, a.g[x]); } else { AfterError(X, Unresolved(x), g, a, n, rt, pos + 1); }
  }

  lemma RelTruthy(v: Value, w: VmValue)
    requires Rel(v, w)
    ensures Truthy(v) <==> VmTruthy(w)
  {
  }

  /** Dropping a form's value and moving on: the state is `a`'s again. */
  lemma PopReady(X: Site, sc: Scopes, sc1: Scopes, env: Env, g: Env, a: Config, pos: nat,
                 v: Value, g1: Env, rt: Target, p: nat, c: Config, d: Config, p1: nat)
    requires Ready(X, sc, env, g, a, pos) && WellFormed(sc1) && Grows(sc, sc1)
    requires sc1.Inner? ==> Extends(sc1.top, X.fin)
    requires After(X, Val(v, g1), a.f, SlotsOf(sc), rt, p, c)
    requires d == Run(Drop(c.f, 1).(ip := p1), c.k, c.g)
    ensures Ready(X, sc1, env, g1, d, p1) && Kept(X, SlotsOf(sc), a.f, d.f) && d.f.stack == a.f.stack
  {
    assert d.f.stack == a.f.stack;
    Resume(X, sc, sc1, env, g, a, pos, g1, d, p1);
  }

  lemma PopThen(X: Site, sc: Scopes, sc1: Scopes, env: Env, g: Env, a: Config, pos: nat, o: Outcome, rt: Target, p: nat, c: Config)
    returns (d: Config)
    requires Ready(X, sc, env, g, a, pos) && WellFormed(sc1) && Grows(sc, sc1)
    requires sc1.Inner? ==> Extends(sc1.top, X.fin)
    requires o.Val? && After(X, o, a.f, SlotsOf(sc), rt, p, c) && Reaches(X.P, a, c) && CodeAt(X.m.code, p, [Pop])
    ensures Reaches(X.P, a, d)
    ensures Ready(X, sc1, env, o.g, d, p + 1) && Kept(X, SlotsOf(sc), a.f, d.f) && d.f.stack == a.f.stack
  {
    hide WellFormed, Grows, LocalsOk, PrimsAgree, Extends, Kept, RelGlobals, After, CodeAt, Rel;
    ValState(X, o, a.f, SlotsOf(sc), rt, p, c);
    d := Then(X, a, c, Pop);
    PopReady(X, sc, sc1, env, g, a, pos, o.v, o.g, rt, p, c, d, p + 1);
  }

  /** The conditional jump of an `if`, to `p + 1` or `p1`. */
  lemma TestThen(X: Site, sc: Scopes, sc1: Scopes, env: Env, g: Env, a: Config, pos: nat, o: Outcome, rt: Target, p: nat,
                 off: nat, c: Config)
    returns (d: Config)
    requires Ready(X, sc, env, g, a, pos) && WellFormed(sc1) && Grows(sc, sc1)
    requires sc1.Inner? ==> Extends(sc1.top, X.fin)
    requires o.Val? && After(X, o, a.f, SlotsOf(sc), rt, p, c) && Reaches(X.P, a, c)
    requires CodeAt(X.m.code, p, [JumpIfFalse(off)])
    ensures Reaches(X.P, a, d)
    ensures Ready(X, sc1, env, o.g, d, if Truthy(o.v) then p + 1 else p + 1 + off)
    ensures Kept(X, SlotsOf(sc), a.f, d.f) && d.f.stack == a.f.stack
  {
    hide WellFormed, Grows, LocalsOk, PrimsAgree, Extends, Kept, RelGlobals, After, CodeAt, Rel;
    ValState(X, o, a.f, SlotsOf(sc), rt, p, c);
    d := Then(X, a, c, JumpIfFalse(off));
    PopReady(X, sc, sc1, env, g, a, pos, o.v, o.g, rt, p, c, d, if Truthy(o.v) then p + 1 else p + 1 + off);
  }

  /** The jump over the rest, when the value is there. */
  lemma JumpThen(X: Site, a: Config, o: Outcome, n: nat, rt: Target, p: nat, off: nat, c: Config) returns (d: Config)
    requires a.Run? && a.f.m == X.m && Reaches(X.P, a, c) && After(X, o, a.f, n, rt, p, c)
    requires CodeAt(X.m.code, p, [Jump(off)])
    ensures Reaches(X.P, a, d) && After(X, o, a.f, n, rt, p + 1 + off, d) && (!o.Val? ==> d == c)
  {
    hide Kept, RelGlobals, After, CodeAt, Rel;
    if o.Val? {
      ValState(X, o, a.f, n, rt, p, c);
      AfterJump(X, o, a.f, n, rt, p, c, off);
      d := Then(X, a, c, Jump(off));
    } else {
      d := c;
      AfterElsewhere(X, o, a.f, n, rt, p, rt, p + 1 + off, c);
    }
  }

  /** A last part run from `d`, which is `a` further on. */
  lemma Finish(X: Site, sc: Scopes, sc1: Scopes, a: Config, d: Config, o: Outcome, rt: Target, end: nat, c: Config)
    requires a.Run? && d.Run? && Grows(sc, sc1)
    requires Reaches(X.P, a, d) && Reaches(X.P, d, c)
    requires Kept(X, SlotsOf(sc), a.f, d.f) && (d.f.stack == a.f.stack || o.Throws? || o.OutOfFuel?)
    requires After(X, o, d.f, SlotsOf(sc1), rt, end, c)
    ensures Reaches(X.P, a, c) && After(X, o, a.f, SlotsOf(sc), rt, end, c)
  {
    ReachesTrans(X.P, a, d, c);
    GrowsSlots(sc, sc1);
    AfterChain(X, o, SlotsOf(sc), a.f, SlotsOf(sc1), d.f, rt, end, c);
  }

  /** A jump at the end of a form's code, its value on the stack. */
  lemma AfterJump(X: Site, o: Outcome, f: Frame, n: nat, rt: Target, p: nat, c: Config, off: nat)
    requires After(X, o, f, n, rt, p, c) && o.Val?
    ensures After(X, o, f, n, rt, p + 1 + off, Exec(X.P, Jump(off), c.f, c.k, c.g))
  {
  }

  lemma ValState(X: Site, o: Outcome, f: Frame, n: nat, rt: Target, end: nat, c: Config)
    requires After(X, o, f, n, rt, end, c) && o.Val?
    ensures c.Run? && c.k == X.k && c.f.ip == end && c.f.m == f.m && |c.f.stack| == |f.stack| + 1
    ensures Truthy(o.v) <==> VmTruthy(TopOf(c.f))
  {
    RelTruthy(o.v, TopOf(c.f));
  }

  lemma KeptModule(X: Site, n: nat, f: Frame, f1: Frame)
    requires Kept(X, n, f, f1)
    ensures f1.m == f.m && f1.handlers == f.handlers && f.stack <= f1.stack
  {
  }

  lemma AfterStoreGlobal(X: Site, x: string, o: Outcome, f: Frame, n: nat, rt: Target, p: nat, c: Config)
    requires o.Val? && After(X, o, f, n, rt, p, c)
    ensures After(X, Val(o.v, o.g[x := o.v]), f, n, rt, p + 1, Exec(X.P, StoreGlobal(x), c.f, c.k, c.g))
  {
  }

  /** A literal test has the value the compiler took it to have. */
  lemma LiteralDecides(P: Prims, e: Form, env: Env, g: Env, fuel: nat)
    requires e.If? && LiteralTest(e.test).Some?
    ensures Eval(P, e, env, g, fuel) ==
              if LiteralTest(e.test).value then Eval(P, e.thn, env, g, fuel) else EvalElse(P, e.els, env, g, fuel)
  {
  }

  lemma IfEvaluated(P: Prims, e: Form, env: Env, g: Env, fuel: nat)
    requires e.If?
    ensures var o := Eval(P, e.test, env, g, fuel);
            Eval(P, e, env, g, fuel) ==
              if !o.Val? then o
              else if Truthy(o.v) then Eval(P, e.thn, env, o.g, fuel)
              else EvalElse(P, e.els, env, o.g, fuel)
  {
  }

  function EvalElse(P: Prims, els: Option<Form>, env: Env, g: Env, fuel: nat): Outcome {
    if els.Some? then Eval(P, els.value, env, g, fuel) else Val(Nil, g)
  }

  function EvalChain(P: Prims, es: seq<Form>, i: nat, conj: bool, env: Env, g: Env, fuel: nat): Outcome
    requires i < |es|
  {
    if conj then EvalAnd(P, es, i, env, g, fuel) else EvalOr(P, es, i, env, g, fuel)
  }

  lemma ChainValue(X: Site, o: Outcome, f: Frame, n: nat, rt: Target, p: nat, p1: nat, b: Config)
    requires o.Val? && After(X, o, f, n, rt, p, b)
    ensures After(X, o, f, n, rt, p1, b.(f := b.f.(ip := p1)))
  {
  }

  /** DUP, the conditional jump and POP between two operands of `and` / `or`:
      either the value is the chain's, or the state is `a`'s again. */
  lemma ChainLink(X: Site, conj: bool, over: nat, o: Outcome, a: Config, n: nat, rt: Target, p: nat, b: Config)
    returns (d: Config)
    requires Reaches(X.P, a, b) && o.Val? && a.Run? && a.f.m == X.m && After(X, o, a.f, n, rt, p, b)
    requires CodeAt(X.m.code, p, [Dup, if conj then JumpIfFalse(over) else JumpIfTrue(over), Pop])
    ensures Reaches(X.P, a, d)
    ensures Truthy(o.v) != conj ==> After(X, o, a.f, n, rt, p + 2 + over, d)
    ensures Truthy(o.v) == conj ==> d == Run(Drop(b.f, 1).(ip := p + 3), b.k, b.g)
  {
    hide CodeAt, After, Step, Exec, Reaches;
    ValState(X, o, a.f, n, rt, p, b);
    ChainValue(X, o, a.f, n, rt, p, p + 2 + over, b);
    var j := if conj then JumpIfFalse(over) else JumpIfTrue(over);
    ThreeInstrs(X.m.code, p, Dup, j, Pop);
    d := Then(X, a, b, Dup);
    DupStep(X.P, b, j, over);
    d := Then(X, a, d, j);
    if Truthy(o.v) == conj {
      PopStep(X.P, d);
      d := Then(X, a, d, Pop);
    }
  }

  lemma PopStep(P: Prims, c: Config)
    requires c.Run? && |c.f.stack| > 0
    ensures Exec(P, Pop, c.f, c.k, c.g) == Run(Drop(Next(c.f), 1), c.k, c.g)
  {
  }

  lemma DupStep(P: Prims, b: Config, j: Instr, over: nat)
    requires b.Run? && |b.f.stack| > 0 && (j == JumpIfFalse(over) || j == JumpIfTrue(over))
    ensures var d := Exec(P, Dup, b.f, b.k, b.g);
            && d == Run(Push(b.f, TopOf(b.f)), b.k, b.g)
            && Exec(P, j, d.f, d.k, d.g) ==
                 Run(b.f.(ip := if VmTruthy(TopOf(b.f)) == j.JumpIfFalse? then b.f.ip + 2 else b.f.ip + 2 + over), b.k, b.g)
  {
    var d := Push(b.f, TopOf(b.f));
    assert d.stack[..|d.stack| - 1] == b.f.stack;
  }

  lemma NoneDone(X: Site, g: Env, a: Config, n: nat, rt: Target, keep: bool)
    requires a.Run? && a.k == X.k && RelGlobals(g, a.g)
    ensures AfterAll(X, Vals([], g), a.f, n, rt, a.f.ip, keep, a)
  {
  }

  lemma AllStopped(X: Site, o: Outcome, f: Frame, n: nat, rt: Target, end: nat, end1: nat, keep: bool, c: Config)
    requires After(X, o, f, n, rt, end, c) && !o.Val?
    ensures AfterAll(X, Stopped(o), f, n, rt, end1, keep, c)
  {
    AfterElsewhere(X, o, f, n, rt, end, rt, end1, c);
  }

  /** A form's value stays on the stack under what follows. */
  lemma PushReady(X: Site, sc: Scopes, sc1: Scopes, env: Env, g: Env, a: Config, pos: nat, o: Outcome, rt: Target, p: nat, d: Config)
    requires Ready(X, sc, env, g, a, pos) && WellFormed(sc1) && Grows(sc, sc1)
    requires sc1.Inner? ==> Extends(sc1.top, X.fin)
    requires o.Val? && After(X, o, a.f, SlotsOf(sc), rt, p, d)
    ensures Ready(X, sc1, env, o.g, d, p) && Kept(X, SlotsOf(sc), a.f, d.f)
  {
    Resume(X, sc, sc1, env, g, a, pos, o.g, d, p);
  }

  lemma OneMore(X: Site, o: Outcome, os: Outcomes, f: Frame, n: nat, rt: Target, p: nat, d: Config, n1: nat, end: nat, c: Config)
    requires o.Val? && After(X, o, f, n, rt, p, d) && n <= n1 && AfterAll(X, os, d.f, n1, rt, end, true, c)
    requires os.Stopped? ==> !os.o.Recurs?
    ensures AfterAll(X, if os.Vals? then Vals([o.v] + os.vs, os.g) else os, f, n, rt, end, true, c)
  {
    match os
    case Vals(vs, g) =>
      KeptTrans(X, n, n1, f, d.f, c.f);
      var ws := c.f.stack[|f.stack|..];
      assert d.f.stack == c.f.stack[..|d.f.stack|];
      assert ws == [TopOf(d.f)] + c.f.stack[|d.f.stack|..];
    case Stopped(o1) =>
      AfterChain(X, o1, n, f, n1, d.f, rt, end, c);
  }

  lemma OneMoreEffect(X: Site, v: Value, os: Outcomes, f: Frame, n: nat, f1: Frame, n1: nat, end: nat, c: Config)
    requires Kept(X, n, f, f1) && f1.stack == f.stack && n <= n1 && AfterAll(X, os, f1, n1, NoTarget, end, false, c)
    ensures AfterAll(X, if os.Vals? then Vals([v] + os.vs, os.g) else os, f, n, NoTarget, end, false, c)
  {
    match os
    case Vals(_, _) => KeptTrans(X, n, n1, f, f1, c.f);
    case Stopped(o1) => AfterChain(X, o1, n, f, n1, f1, NoTarget, end, c);
  }

  lemma AfterRaise(X: Site, o: Outcome, f: Frame, n: nat, rt: Target, p: nat, end: nat, c: Config)
    requires o.Val? && After(X, o, f, n, rt, p, c) && PrimsAgree(X.P)
    ensures After(X, if X.P.throwable(o.v) then Throws(Managed(o.v, 0), o.g) else ErrorThrown(NotThrowable, o.g),
                  f, n, rt, end, Exec(X.P, Raise, c.f, c.k, c.g))
  {
    assert X.P.throwable(o.v) == X.P.vmThrowable(TopOf(c.f));
  }

  /** STORE_LOCAL of a binding's value into the fresh slot `Bind` gives it. */
  lemma BindThen(X: Site, sc: Scopes, sc1: Scopes, x: string, env: Env, g: Env, a: Config, pos: nat, o: Outcome, rt: Target,
                 p: nat, c: Config)
    returns (d: Config)
    requires Ready(X, sc, env, g, a, pos) && WellFormed(sc1) && Grows(sc, sc1) && sc1.Inner?
    requires Extends(Bind(sc1, x).top, X.fin)
    requires o.Val? && After(X, o, a.f, SlotsOf(sc), rt, p, c) && Reaches(X.P, a, c)
    requires CodeAt(X.m.code, p, [StoreLocal(sc1.top.nextSlot)])
    ensures Reaches(X.P, a, d)
    ensures Ready(X, Bind(sc1, x), env[x := o.v], o.g, d, p + 1)
    ensures Kept(X, SlotsOf(sc), a.f, d.f) && d.f.stack == a.f.stack
    ensures NotCapture(sc1.top.nextSlot, X.fin)
  {
    hide WellFormed, Grows, LocalsOk, PrimsAgree, CodeAt, Rel, RelGlobals;
    var slot := sc1.top.nextSlot;
    ExtendsTrans(sc1.top, Bind(sc1, x).top, X.fin);
    PushReady(X, sc, sc1, env, g, a, pos, o, rt, p, c);
    BindLocals(X, sc1, env, c.f.locals, x, o.v, TopOf(c.f));
    BindWellFormed(sc1, x);
    d := Then(X, a, c, StoreLocal(slot));
    GrowsSlots(sc, sc1);
    StorePreserves(X, SlotsOf(sc), slot, c.f.locals, TopOf(c.f));
    PreservedTrans(X, SlotsOf(sc), SlotsOf(sc), a.f.locals, c.f.locals, d.f.locals);
    assert d.f.stack == a.f.stack;
  }

  lemma RestoredExtends(X: Site, d: Scopes, x: string, c: Scopes)
    requires d.Inner? && c.Inner? && Extends(Restore(d, x, c).top, X.fin)
    ensures Extends(d.top, X.fin)
  {
  }

  lemma FinishLater(X: Site, n: nat, n1: nat, a: Config, d: Config, o: Outcome, rt: Target, end: nat, c: Config)
    requires a.Run? && d.Run? && n <= n1
    requires Reaches(X.P, a, d) && Reaches(X.P, d, c)
    requires Kept(X, n, a.f, d.f) && (d.f.stack == a.f.stack || o.Throws? || o.OutOfFuel?)
    requires After(X, o, d.f, n1, rt, end, c)
    ensures Reaches(X.P, a, c) && After(X, o, a.f, n, rt, end, c)
  {
    ReachesTrans(X.P, a, d, c);
    AfterChain(X, o, n, a.f, n1, d.f, rt, end, c);
  }

  lemma {:induction false} BindAllLookup(env: Env, names: seq<string>, vs: seq<Value>, i: nat, x: string)
    requires |names| == |vs| && i <= |vs|
    ensures x in BindAll(env, names, vs, i) <==> x in env || x in names[i..]
    ensures x in BindAll(env, names, vs, i) ==>
              if x in names[i..] then exists j :: i <= j && LastAt(names, x, j) && BindAll(env, names, vs, i)[x] == vs[j]
              else BindAll(env, names, vs, i)[x] == env[x]
    decreases |vs| - i
  {
    if i < |vs| {
      BindAllLookup(env[names[i] := vs[i]], names, vs, i + 1, x);
      assert names[i..] == [names[i]] + names[i + 1..];
      if x == names[i] && x !in names[i + 1..] { assert LastAt(names, x, i); }
    }
  }

  /** The locals after `recur` hold the environment with the names rebound. */
  lemma RebindLocals(X: Site, sc: Scopes, env: Env, names: seq<string>, vs: seq<Value>, slots: seq<nat>,
                     L: seq<VmValue>, L1: seq<VmValue>)
    requires sc.Inner? && WellFormed(sc) && LocalsOk(X, sc, env, L) && LoopNames(sc.top, names, slots)
    requires |names| == |vs| && Rebound(X, sc.top.nextSlot, slots, vs, L, L1)
    ensures LocalsOk(X, sc, BindAll(env, names, vs, 0), L1)
  {
    hide WellFormed, Rel;
    forall x
      ensures x in BindAll(env, names, vs, 0) <==> Bound(sc, x)
      ensures x in sc.top.names ==>
                && sc.top.names[x] < |L1| && x in BindAll(env, names, vs, 0)
                && Rel(BindAll(env, names, vs, 0)[x], L1[sc.top.names[x]])
      ensures x in BindAll(env, names, vs, 0) && x !in sc.top.names ==>
                x in X.D && X.D[x] == BindAll(env, names, vs, 0)[x]
    {
      RebindName(X, sc, env, names, vs, slots, L, L1, x);
    }
  }

  lemma RebindName(X: Site, sc: Scopes, env: Env, names: seq<string>, vs: seq<Value>, slots: seq<nat>,
                   L: seq<VmValue>, L1: seq<VmValue>, x: string)
    requires sc.Inner? && WellFormed(sc) && LocalsOk(X, sc, env, L) && LoopNames(sc.top, names, slots)
    requires |names| == |vs| && Rebound(X, sc.top.nextSlot, slots, vs, L, L1)
    ensures x in BindAll(env, names, vs, 0) <==> Bound(sc, x)
    ensures x in sc.top.names ==>
              && sc.top.names[x] < |L1| && x in BindAll(env, names, vs, 0)
              && Rel(BindAll(env, names, vs, 0)[x], L1[sc.top.names[x]])
    ensures x in BindAll(env, names, vs, 0) && x !in sc.top.names ==>
              x in X.D && X.D[x] == BindAll(env, names, vs, 0)[x]
  {
    hide Rel, BindAll;
    assert names[0..] == names;
    BindAllLookup(env, names, vs, 0, x);
    assert Bound(sc, x) <==> x in env;
    if x in names {
      assert x in sc.top.names;
      var j :| LastAt(names, x, j) && slots[j] == sc.top.names[x];
      var j1 :| 0 <= j1 && LastAt(names, x, j1) && BindAll(env, names, vs, 0)[x] == vs[j1];
      LastAtUnique(names, x, j, j1);
    } else if x in sc.top.names {
      assert sc.top.names[x] < sc.top.nextSlot && sc.top.names[x] !in slots;
    }
  }

  ghost predicate SlotsFit(X: Site, slots: seq<nat>, n: nat, n1: nat) {
    && (forall j | 0 <= j < |slots| :: n <= slots[j] < n1 && NotCapture(slots[j], X.fin))
    && (forall j, k | 0 <= j < k < |slots| :: slots[j] != slots[k])
  }

  lemma OneMoreSlot(X: Site, sc: Scopes, sc1: Scopes, x: string, names: seq<string>, i: nat, slots: seq<nat>, n: nat)
    requires sc.Inner? && Grows(sc, sc1) && WellFormed(sc1) && n <= SlotsOf(sc)
    requires i < |names| && names[i] == x && LoopNames(sc.top, names[..i], slots) && SlotsFit(X, slots, n, SlotsOf(sc))
    requires NotCapture(sc1.top.nextSlot, X.fin)
    ensures LoopNames(Bind(sc1, x).top, names[..i + 1], slots + [sc1.top.nextSlot])
    ensures SlotsFit(X, slots + [sc1.top.nextSlot], n, SlotsOf(Bind(sc1, x)))
  {
    LoopNamesGrow(sc, sc1, names[..i], slots);
    LoopNamesBind(sc1, x, names[..i], slots);
    assert names[..i + 1] == names[..i] + [x];
  }

  lemma KeptBelow(X: Site, n: nat, n1: nat, f: Frame, f1: Frame)
    requires n <= n1 && Kept(X, n1, f, f1)
    ensures Kept(X, n, f, f1)
  {
  }

  lemma AfterBelow(X: Site, o: Outcome, f: Frame, n: nat, n1: nat, rt: Target, end: nat, c: Config)
    requires n <= n1 && After(X, o, f, n1, rt, end, c)
    ensures After(X, o, f, n, rt, end, c)
  {
  }

  lemma FitRecurs(X: Site, names: seq<string>, n: nat, sc: Scopes, rt: Target, pos: nat)
    requires sc.Inner? && rt.Target? && rt.start == pos
    requires LoopNames(sc.top, names, rt.slots) && SlotsFit(X, rt.slots, n, SlotsOf(sc))
    ensures RecurOk(X, InLoop(|names|, false), rt, SlotsOf(sc), pos)
  {
  }

  lemma ReboundCount(X: Site, n: nat, slots: seq<nat>, names: seq<string>, top: Scope, vs: seq<Value>, L: seq<VmValue>, L1: seq<VmValue>)
    requires Rebound(X, n, slots, vs, L, L1) && LoopNames(top, names, slots)
    ensures |vs| == |names|
  {
  }

  lemma NextRound(X: Site, names: seq<string>, n: nat, env: Env, g: Env, sc: Scopes, rt: Target, a: Config, o: Outcome, d: Config)
    requires sc.Inner? && rt.Target? && Ready(X, sc, env, g, a, rt.start)
    requires n <= SlotsOf(sc) && LoopNames(sc.top, names, rt.slots) && SlotsFit(X, rt.slots, n, SlotsOf(sc))
    requires o.Recurs? && |o.args| == |names| && After(X, o, a.f, SlotsOf(sc), rt, rt.start, d)
    ensures Ready(X, sc, BindAll(env, names, o.args, 0), o.g, d, rt.start)
    ensures Kept(X, n, a.f, d.f) && d.f.stack == a.f.stack
  {
    RebindLocals(X, sc, env, names, o.args, rt.slots, a.f.locals, d.f.locals);
  }

  function StoreDown(L: seq<VmValue>, slots: seq<nat>, ws: seq<VmValue>, n: nat): (r: seq<VmValue>)
    requires n <= |slots| == |ws| && forall j | 0 <= j < |slots| :: slots[j] < |L|
    ensures |r| == |L|
    decreases n
  {
    if n == 0 then L else StoreDown(L[slots[n - 1] := ws[n - 1]], slots, ws, n - 1)
  }

  lemma {:induction false} StoreDownLookup(L: seq<VmValue>, slots: seq<nat>, ws: seq<VmValue>, n: nat)
    requires n <= |slots| == |ws| && forall j | 0 <= j < |slots| :: slots[j] < |L|
    requires forall i, j | 0 <= i < j < |slots| :: slots[i] != slots[j]
    ensures forall s | 0 <= s < |L| && s !in slots[..n] :: StoreDown(L, slots, ws, n)[s] == L[s]
    ensures forall j | 0 <= j < n :: StoreDown(L, slots, ws, n)[slots[j]] == ws[j]
    decreases n
  {
    if n > 0 {
      StoreDownLookup(L[slots[n - 1] := ws[n - 1]], slots, ws, n - 1);
      assert slots[..n] == slots[..n - 1] + [slots[n - 1]];
      assert slots[n - 1] !in slots[..n - 1];
    }
  }

  lemma {:induction false} RunStores(X: Site, slots: seq<nat>, n: nat, base: seq<VmValue>, ws: seq<VmValue>, a: Config)
    returns (c: Config)
    requires a.Run? && a.f.m == X.m && n <= |slots| == |ws| && a.f.stack == base + ws[..n]
    requires forall j | 0 <= j < |slots| :: slots[j] < |a.f.locals|
    requires CodeAt(X.m.code, a.f.ip, StoresDown(slots, n))
    ensures Reaches(X.P, a, c)
    ensures c == Run(a.f.(ip := a.f.ip + n, stack := base, locals := StoreDown(a.f.locals, slots, ws, n)), a.k, a.g)
    decreases n
  {
    ReachesSelf(X.P, a);
    if n == 0 {
      c := a;
    } else {
      CodeAtSplit(X.m.code, a.f.ip, [StoreLocal(slots[n - 1])], StoresDown(slots, n - 1));
      var d := Then(X, a, a, StoreLocal(slots[n - 1]));
      assert d.f.stack == base + ws[..n - 1];
      c := RunStores(X, slots, n - 1, base, ws, d);
      ReachesTrans(X.P, a, d, c);
    }
  }

  lemma {:induction false} EvalArgsCount(P: Prims, es: seq<Form>, i: nat, env: Env, g: Env, fuel: nat)
    requires i <= |es| && EvalArgs(P, es, i, env, g, fuel).Vals?
    ensures |EvalArgs(P, es, i, env, g, fuel).vs| == |es| - i
    decreases |es| - i
  {
    hide Eval;
    if i < |es| { EvalArgsCount(P, es, i + 1, env, Eval(P, es[i], env, g, fuel).g, fuel); }
  }

  lemma RecurTarget(X: Site, e: Form, sc: Scopes, rt: Target, rc: RecurCtx, n: nat, pos: nat)
    requires e.Recur? && Check(e, rc, sc.NoScope?) == None && RecurOk(X, rc, rt, n, pos)
    ensures rc.InLoop? && rt.Target? && |rt.slots| == rc.arity && rt.start <= pos
  {
  }

  lemma RecurEvaluated(P: Prims, e: Form, env: Env, g: Env, fuel: nat)
    requires e.Recur?
    ensures var os := EvalArgs(P, e.args, 0, env, g, fuel);
            Eval(P, e, env, g, fuel) == if os.Vals? then Recurs(os.vs, os.g) else os.o
  {
  }

  lemma RecursAt(X: Site, os: Outcomes, f: Frame, n: nat, rt: Target, end: nat, c: Config)
    requires os.Vals? && After(X, Recurs(os.vs, os.g), f, n, rt, 0, c)
    ensures After(X, Recurs(os.vs, os.g), f, n, rt, end, c)
  {
  }

  lemma StoppedAfter(X: Site, os: Outcomes, f: Frame, n: nat, rt: Target, p: nat, keep: bool, end: nat, c: Config)
    requires os.Stopped? && AfterAll(X, os, f, n, rt, p, keep, c)
    ensures After(X, os.o, f, n, rt, end, c) && !os.o.Val?
  {
  }

  /** The stores and the backward jump of a `recur`, its arguments pushed. */
  lemma SimRebind(X: Site, rc: RecurCtx, os: Outcomes, env: Env, g: Env, sc: Scopes, rt: Target, pos: nat, p: nat,
                  a: Config, b: Config)
    returns (c: Config)
    requires os.Vals? && Ready(X, sc, env, g, a, pos) && sc.Inner? && Reaches(X.P, a, b)
    requires rc.InLoop? && !rc.acrossTry && rt.Target? && |os.vs| == |rt.slots|
    requires RecurOk(X, rc, rt, SlotsOf(sc), pos) && pos <= p && rt.start <= pos
    requires Extends(sc.top, X.fin)
    requires AfterAll(X, os, a.f, SlotsOf(sc), rt, p, true, b)
    requires CodeAt(X.m.code, p, StoresDown(rt.slots, |rt.slots|))
    requires CodeAt(X.m.code, p + |rt.slots|, [JumpBack(p + |rt.slots| + 1 - rt.start)])
    ensures Reaches(X.P, a, c) && After(X, Recurs(os.vs, os.g), a.f, SlotsOf(sc), rt, 0, c) && Moves(X.P, a, c)
  {
    hide WellFormed, PrimsAgree, Rel, RelGlobals, CodeAt, LocalsOk, AfterAll, After, Extends, RecurOk, Kept, Exec, Step, Moves;
    var n := |rt.slots|;
    var ws := ArgsOnTop(X, os, a.f, SlotsOf(sc), rt, p, b);
    TargetInFrame(X, rc, rt, sc, env, pos, a, os, b, p);
    assert ws[..n] == ws;
    var d := RunStores(X, rt.slots, n, a.f.stack, ws, b);
    ReachesTrans(X.P, a, b, d);
    ThenMoves(X, a, d, JumpBack(p + n + 1 - rt.start));
    c := Then(X, a, d, JumpBack(p + n + 1 - rt.start));
    BackAt(X, d, p + n + 1 - rt.start);
    StoredRebinds(X, rc, rt, sc, pos, os, a, b, p, ws, c);
  }

  lemma BackAt(X: Site, d: Config, off: nat)
    requires d.Run? && off <= d.f.ip + 1
    ensures Exec(X.P, JumpBack(off), d.f, d.k, d.g) == Run(d.f.(ip := d.f.ip + 1 - off), d.k, d.g)
  {
  }

  lemma ArgsOnTop(X: Site, os: Outcomes, f: Frame, n: nat, rt: Target, p: nat, b: Config) returns (ws: seq<VmValue>)
    requires os.Vals? && AfterAll(X, os, f, n, rt, p, true, b)
    ensures b.Run? && b.k == X.k && b.f.stack == f.stack + ws && RelAll(os.vs, ws) && b.f.ip == p
    ensures b.f.m == f.m && RelGlobals(os.g, b.g) && Kept(X, n, f, b.f)
  {
    ws := b.f.stack[|f.stack|..];
  }

  lemma TargetInFrame(X: Site, rc: RecurCtx, rt: Target, sc: Scopes, env: Env, pos: nat, a: Config, os: Outcomes, b: Config, p: nat)
    requires sc.Inner? && a.Run? && LocalsOk(X, sc, env, a.f.locals) && Extends(sc.top, X.fin)
    requires rc.InLoop? && !rc.acrossTry && RecurOk(X, rc, rt, SlotsOf(sc), pos)
    requires os.Vals? && AfterAll(X, os, a.f, SlotsOf(sc), rt, p, true, b)
    ensures |b.f.locals| == |a.f.locals|
    ensures forall j | 0 <= j < |rt.slots| :: rt.slots[j] < |b.f.locals|
  {
    hide WellFormed, Rel, RelGlobals;
  }

  lemma StoredRebinds(X: Site, rc: RecurCtx, rt: Target, sc: Scopes, pos: nat, os: Outcomes, a: Config, b: Config, p: nat,
                      ws: seq<VmValue>, c: Config)
    requires os.Vals? && sc.Inner? && a.Run? && a.f.m == X.m && a.k == X.k && rt.Target?
    requires rc.InLoop? && !rc.acrossTry && RecurOk(X, rc, rt, SlotsOf(sc), pos)
    requires b.Run? && b.k == X.k && RelGlobals(os.g, b.g) && Kept(X, SlotsOf(sc), a.f, b.f)
    requires RelAll(os.vs, ws) && |ws| == |rt.slots| && |b.f.locals| == |a.f.locals|
    requires forall j | 0 <= j < |rt.slots| :: rt.slots[j] < |b.f.locals|
    requires c == Run(b.f.(ip := rt.start, stack := a.f.stack, locals := StoreDown(b.f.locals, rt.slots, ws, |rt.slots|)), b.k, b.g)
    ensures After(X, Recurs(os.vs, os.g), a.f, SlotsOf(sc), rt, 0, c)
  {
    hide Rel, RelGlobals;
    var slots := rt.slots;
    StoreDownLookup(b.f.locals, slots, ws, |slots|);
    assert slots[..|slots|] == slots;
    forall i | 0 <= i < |X.fin.captures| && X.fin.captures[i].localSlot < |a.f.locals|
      ensures c.f.locals[X.fin.captures[i].localSlot] == a.f.locals[X.fin.captures[i].localSlot]
    {
      assert b.f.locals[X.fin.captures[i].localSlot] == a.f.locals[X.fin.captures[i].localSlot];
      assert X.fin.captures[i].localSlot !in slots;
    }
  }

  lemma {:induction false} RunReads(X: Site, caps: seq<Capture>, i: nat, a: Config)
    returns (c: Config, ws: seq<VmValue>)
    requires a.Run? && a.f.m == X.m && i <= |caps|
    requires forall j | i <= j < |caps| :: caps[j].parentSlot < |a.f.locals|
    requires CodeAt(X.m.code, a.f.ip, ReadCaptures(caps)[i..])
    ensures Reaches(X.P, a, c) && |ws| == |caps| - i
    ensures forall j | i <= j < |caps| :: ws[j - i] == a.f.locals[caps[j].parentSlot]
    ensures c == Run(a.f.(ip := a.f.ip + |caps| - i, stack := a.f.stack + ws), a.k, a.g)
    decreases |caps| - i
  {
    hide Step, Reaches, CodeAt;
    ReachesSelf(X.P, a);
    if i == |caps| {
      c, ws := a, [];
      assert a.f.stack + [] == a.f.stack;
    } else {
      var w := a.f.locals[caps[i].parentSlot];
      ReadsFrom(caps, i);
      CodeAtSplit(X.m.code, a.f.ip, [PushLocal(caps[i].parentSlot)], ReadCaptures(caps)[i + 1..]);
      var d := Then(X, a, a, PushLocal(caps[i].parentSlot));
      var rest;
      c, rest := RunReads(X, caps, i + 1, d);
      ws := [w] + rest;
      assert a.f.stack + [w] + rest == a.f.stack + ws;
      ReachesTrans(X.P, a, d, c);
    }
  }

  lemma SimFn(X: Site, e: Form, env: Env, g: Env, sc: Scopes, rt: Target, pos: nat, a: Config)
    returns (c: Config)
    requires e.Fn? && Ready(X, sc, env, g, a, pos)
    requires CheckAll(e.body, 0, InLoop(|e.params|, false), false) == None && LevelAll(e.body, 0, true, true, true, false)
    requires Placed(X, pos, Compile(e, sc, rt, pos))
    ensures Reaches(X.P, a, c)
    ensures After(X, Val(Closure(e.params, e.body, env), g), a.f, SlotsOf(sc), rt, pos + |Compile(e, sc, rt, pos).code|, c)
  {
    hide WellFormed, Grows, LocalsOk, PrimsAgree, Extends, Rel, Kept, RelGlobals, After, CodeAt, Eval, CheckAll, LevelAll, CompileFn, Exec, Step;
    var r := CompileFn(e.params, e.body, sc);
    FnGrows(e.params, e.body, sc);
    KeptSelf(X, SlotsOf(sc), a.f);
    Resume(X, sc, r.sc.outer, env, g, a, pos, g, a, pos);
    CapturesRelated(X, r.sc, env, a.f.locals);
    var ws;
    c, ws := MakeClosure(X, FnModule(r, |e.params|), a);
    ClosureRelated(X, e, env, sc, a.f.locals, ws);
    AfterMade(X, Closure(e.params, e.body, env), g, a, SlotsOf(sc), rt, VFn(FnModule(r, |e.params|), ws), c);
  }

  /** The captured slots read, then MAKE_FN. */
  lemma MakeClosure(X: Site, m: Module, a: Config) returns (c: Config, ws: seq<VmValue>)
    requires a.Run? && a.f.m == X.m && CodeAt(X.m.code, a.f.ip, ReadCaptures(m.captures) + [MakeFn(m)])
    requires forall j | 0 <= j < |m.captures| :: m.captures[j].parentSlot < |a.f.locals|
    ensures Reaches(X.P, a, c) && |ws| == |m.captures|
    ensures forall j | 0 <= j < |ws| :: ws[j] == a.f.locals[m.captures[j].parentSlot]
    ensures c == Run(a.f.(ip := a.f.ip + |m.captures| + 1, stack := a.f.stack + [VFn(m, ws)]), a.k, a.g)
  {
    hide CodeAt, Step;
    CodeAtSplit(X.m.code, a.f.ip, ReadCaptures(m.captures), [MakeFn(m)]);
    assert ReadCaptures(m.captures)[0..] == ReadCaptures(m.captures);
    var d;
    d, ws := RunReads(X, m.captures, 0, a);
    var b := |d.f.stack| - |m.captures|;
    assert d.f.stack[..b] == a.f.stack && d.f.stack[b..] == ws;
    c := Then(X, a, d, MakeFn(m));
  }

  /** `v` pushed by several instructions. */
  lemma AfterMade(X: Site, v: Value, g: Env, a: Config, n: nat, rt: Target, w: VmValue, c: Config)
    requires a.Run? && a.k == X.k && RelGlobals(g, a.g) && Rel(v, w)
    requires c.Run? && c == Run(a.f.(ip := c.f.ip, stack := a.f.stack + [w]), a.k, a.g)
    ensures After(X, Val(v, g), a.f, n, rt, c.f.ip, c)
  {
    hide Rel, RelGlobals;
  }

  /** What a fn being made captures is what the enclosing names hold. */
  lemma CapturesRelated(X: Site, fsc: Scopes, env: Env, L: seq<VmValue>)
    requires fsc.Inner? && WellFormed(fsc) && LocalsOk(X, fsc.outer, env, L)
    ensures forall i | 0 <= i < |fsc.top.captures| ::
              && fsc.top.captures[i].parentSlot < |L| && fsc.top.captures[i].name in env
              && Rel(env[fsc.top.captures[i].name], L[fsc.top.captures[i].parentSlot])
  {
    forall i | 0 <= i < |fsc.top.captures|
      ensures && fsc.top.captures[i].parentSlot < |L| && fsc.top.captures[i].name in env
              && Rel(env[fsc.top.captures[i].name], L[fsc.top.captures[i].parentSlot])
    {
      assert CaptureOk(fsc.top.captures[i], fsc);
    }
  }

  lemma ClosureRelated(X: Site, e: Form, env: Env, sc: Scopes, L: seq<VmValue>, ws: seq<VmValue>)
    requires e.Fn? && WellFormed(sc) && LocalsOk(X, sc, env, L)
    requires CheckAll(e.body, 0, InLoop(|e.params|, false), false) == None && LevelAll(e.body, 0, true, true, true, false)
    requires var caps := CompileFn(e.params, e.body, sc).sc.top.captures;
             && |ws| == |caps|
             && (forall i | 0 <= i < |caps| :: caps[i].name in env && Rel(env[caps[i].name], ws[i]))
    ensures Rel(Closure(e.params, e.body, env), VFn(FnModule(CompileFn(e.params, e.body, sc), |e.params|), ws))
  {
    hide WellFormed, CheckAll, LevelAll, CompileFn;
    var m := FnModule(CompileFn(e.params, e.body, sc), |e.params|);
    forall x ensures x in env.Keys <==> Bound(sc, x) { LocalHolds(X, sc, env, L, x); }
    assert CompiledFrom(e.params, e.body, env.Keys, sc, m);
  }

  lemma ChainEvaluated(P: Prims, es: seq<Form>, i: nat, conj: bool, env: Env, g: Env, fuel: nat, o: Outcome)
    requires i < |es| && o == Eval(P, es[i], env, g, fuel)
    ensures EvalChain(P, es, i, conj, env, g, fuel) ==
              if !o.Val? || i + 1 == |es| || Truthy(o.v) != conj then o
              else EvalChain(P, es, i + 1, conj, env, o.g, fuel)
  {
    hide Eval;
  }

  lemma LetStarts(P: Prims, e: Form, t: bool, rc: RecurCtx, env: Env, g: Env, fuel: nat, sc: Scopes, rt: Target, pos: nat)
    requires e.Let? && sc.Inner? && Check(e, rc, false) == None && Level(e, t, true, false)
    ensures CheckInits(e.bs, 0, rc) == None && CheckAll(e.body, 0, rc, false) == None
    ensures LevelInits(e.bs, 0, t, true) && LevelAll(e.body, 0, t, t, LeavesInits(e.bs, 0), false)
    ensures Compile(e, sc, rt, pos) == CompileLet(e, 0, sc, rt, pos)
    ensures Eval(P, e, env, g, fuel) == EvalLet(P, e, 0, env, g, fuel)
  {
    hide CheckInits, CheckAll, LevelInits, LevelAll, LeavesInits, CompileLet, EvalLet;
  }

  lemma LoopStarts(P: Prims, e: Form, t: bool, rc: RecurCtx, env: Env, g: Env, fuel: nat, sc: Scopes, rt: Target, pos: nat)
    requires e.Loop? && sc.Inner? && Check(e, rc, false) == None && Level(e, t, true, false)
    ensures CheckInits(e.bs, 0, rc) == None && CheckAll(e.body, 0, InLoop(|e.bs|, false), false) == None
    ensures LevelInits(e.bs, 0, t, true) && LevelAll(e.body, 0, true, true, LeavesInits(e.bs, 0), false)
    ensures Compile(e, sc, rt, pos) == CompileLoop(e, 0, [], sc, rt, pos)
    ensures Eval(P, e, env, g, fuel) == EvalLoop(P, e, 0, env, g, fuel)
  {
    hide CheckInits, CheckAll, LevelInits, LevelAll, LeavesInits, CompileLoop, EvalLoop;
  }

  lemma NoSlotsYet(X: Site, sc: Scopes)
    requires sc.Inner?
    ensures LoopNames(sc.top, [], []) && SlotsFit(X, [], SlotsOf(sc), SlotsOf(sc))
  {
  }

  // ---- how long a run lasts

  predicate Going(c: Config) { c.Run? || c.Unwind? }

  /** After `n` steps the run has not ended. */
  ghost predicate Busy(P: Prims, a: Config, n: nat) { Going(Steps(P, a, n)) }

  ghost predicate Moves(P: Prims, a: Config, c: Config) { exists n: nat :: n > 0 && Steps(P, a, n) == c }

  /** What a run from `a` to `c` has cost: as many steps as there was fuel, if
      the evaluator ran out of it; at least one, if it recurred. */
  ghost predicate Toll(P: Prims, a: Config, o: Outcome, fuel: nat, c: Config) {
    (o.OutOfFuel? ==> Busy(P, a, fuel)) && (o.Recurs? ==> Moves(P, a, c))
  }

  lemma {:induction false} EndedStays(P: Prims, c: Config, n: nat)
    requires !Going(c)
    ensures Steps(P, c, n) == c
    decreases n
  {
    if n > 0 { EndedStays(P, c, n - 1); }
  }

  /** A run that has not ended had not ended before. */
  lemma BusyBefore(P: Prims, a: Config, m: nat, n: nat)
    requires Busy(P, a, m + n)
    ensures Busy(P, a, n)
  {
    StepsAdd(P, a, n, m);
    if !Going(Steps(P, a, n)) { EndedStays(P, Steps(P, a, n), m); }
  }

  lemma BusyLater(P: Prims, a: Config, d: Config, n: nat)
    requires Reaches(P, a, d) && Busy(P, d, n)
    ensures Busy(P, a, n)
  {
    var m: nat :| Steps(P, a, m) == d;
    StepsAdd(P, a, m, n);
    BusyBefore(P, a, m, n);
  }

  /** A step more. */
  lemma BusyMore(P: Prims, a: Config, d: Config, n: nat)
    requires Moves(P, a, d) && Busy(P, d, n)
    ensures Busy(P, a, n + 1)
  {
    var m: nat :| m > 0 && Steps(P, a, m) == d;
    StepsAdd(P, a, m, n);
    BusyBefore(P, a, m - 1, n + 1);
  }

  lemma BusyNow(P: Prims, a: Config)
    requires a.Run?
    ensures Busy(P, a, 0)
  {
    assert Steps(P, a, 0) == a;
  }

  lemma MovesAfter(P: Prims, a: Config, b: Config, c: Config)
    requires Reaches(P, a, b) && Moves(P, b, c)
    ensures Moves(P, a, c)
  {
    var m: nat :| Steps(P, a, m) == b;
    var n: nat :| n > 0 && Steps(P, b, n) == c;
    StepsAdd(P, a, m, n);
  }

  lemma MovesStep(P: Prims, a: Config, b: Config)
    requires Reaches(P, a, b)
    ensures Moves(P, a, Step(P, b))
  {
    var m: nat :| Steps(P, a, m) == b;
    StepsAdd(P, a, m, 1);
    assert Steps(P, b, 1) == Steps(P, Step(P, b), 0);
    assert Steps(P, a, m + 1) == Step(P, b);
  }

  /** The toll of a last part is the toll of the whole. */
  lemma TollLater(P: Prims, a: Config, d: Config, o: Outcome, fuel: nat, c: Config)
    requires Reaches(P, a, d) && Toll(P, d, o, fuel, c)
    ensures Toll(P, a, o, fuel, c)
  {
    hide Reaches, Busy, Moves;
    if o.OutOfFuel? { BusyLater(P, a, d, fuel); }
    if o.Recurs? { MovesAfter(P, a, d, c); }
  }

  /** One instruction after a run, as Then, and the run has moved. */
  lemma ThenMoves(X: Site, a: Config, b: Config, i: Instr)
    requires Reaches(X.P, a, b) && b.Run? && CodeAt(X.m.code, b.f.ip, [i]) && b.f.m == X.m
    ensures Moves(X.P, a, Exec(X.P, i, b.f, b.k, b.g))
  {
    CodeAtHead(X.m.code, b.f.ip, [i]);
    MovesStep(X.P, a, b);
    hide Exec;
  }
}
