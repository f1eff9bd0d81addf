/** Compiled code does what the evaluator says: a forward simulation, by
    induction on the evaluation. */
module Simulation {
  import opened Options
  import opened Syntax
  import opened Bytecode
  import opened Values
  import opened Evaluator
  import opened Vm
  import opened Codegen
  import opened Scoping
  import opened ScopingProof
  import opened Placement
  import opened Correspondence
  import opened Runs
  import opened Frames
  import opened Handlers
  import opened Leaving

  /** The code of a form the compiler takes is about to run in the scopes it was
      compiled in; `t` says whether a recur may leave it. */
  ghost predicate Begins(X: Site, e: Form, t: bool, rc: RecurCtx, env: Env, g: Env, sc: Scopes, rt: Target, pos: nat, a: Config) {
    && Ready(X, sc, env, g, a, pos) && RecurOk(X, rc, rt, SlotsOf(sc), pos) && (sc.NoScope? ==> !t)
    && Check(e, rc, sc.NoScope?) == None && Level(e, t, true, sc.NoScope?) && Placed(X, pos, Compile(e, sc, rt, pos))
  }

  /** The run from `a` comes to what outcome `o` says, at `end`. */
  ghost predicate Comes(X: Site, o: Outcome, t: bool, fuel: nat, n: nat, rt: Target, end: int, a: Config, c: Config) {
    && Reaches(X.P, a, c) && a.Run? && end >= 0 && After(X, o, a.f, n, rt, end, c) && Toll(X.P, a, o, fuel, c)
    && (o.Recurs? ==> t)
  }

  lemma ToBegin(X: Site, e: Form, t: bool, rc: RecurCtx, env: Env, g: Env, sc: Scopes, rt: Target, pos: nat, a: Config)
    requires Ready(X, sc, env, g, a, pos) && RecurOk(X, rc, rt, SlotsOf(sc), pos) && (sc.NoScope? ==> !t)
    requires Check(e, rc, sc.NoScope?) == None && Level(e, t, true, sc.NoScope?) && Placed(X, pos, Compile(e, sc, rt, pos))
    ensures Begins(X, e, t, rc, env, g, sc, rt, pos, a)
  {
  }

  lemma Came(X: Site, o: Outcome, t: bool, fuel: nat, n: nat, rt: Target, end: nat, a: Config, c: Config)
    requires a.Run? && Comes(X, o, t, fuel, n, rt, end, a, c)
    ensures Reaches(X.P, a, c) && After(X, o, a.f, n, rt, end, c) && Toll(X.P, a, o, fuel, c) && (o.Recurs? ==> t)
  {
    hide After, Reaches, Toll;
  }

  /** A run that comes to an outcome other than a value comes there wherever the
      value would have been. */
  lemma ComesElsewhere(X: Site, o: Outcome, t: bool, fuel: nat, n: nat, rt: Target, end: nat, end1: nat, a: Config, c: Config)
    requires Comes(X, o, t, fuel, n, rt, end, a, c) && !o.Val?
    ensures Comes(X, o, t, fuel, n, rt, end1, a, c)
  {
    hide After, Reaches, Toll;
    AfterElsewhere(X, o, a.f, n, rt, end, rt, end1, c);
  }

  lemma ComesNow(X: Site, o: Outcome, t: bool, fuel: nat, n: nat, rt: Target, end: nat, a: Config, c: Config)
    requires a.Run? && Reaches(X.P, a, c) && After(X, o, a.f, n, rt, end, c) && (o.Val? || o.Throws?)
    ensures Comes(X, o, t, fuel, n, rt, end, a, c)
  {
    hide After, Reaches;
  }

  /** A value, and the jump past what follows it. */
  lemma ComesOver(X: Site, o: Outcome, t: bool, fuel: nat, n: nat, rt: Target, p: nat, off: nat, a: Config, b: Config) returns (c: Config)
    requires a.Run? && a.f.m == X.m && Comes(X, o, t, fuel, n, rt, p, a, b) && CodeAt(X.m.code, p, [Jump(off)])
    ensures Comes(X, o, t, fuel, n, rt, p + 1 + off, a, c)
  {
    hide After, Reaches, CodeAt;
    c := JumpThen(X, a, o, n, rt, p, off, b);
  }

  lemma ComesNil(X: Site, g: Env, t: bool, fuel: nat, n: nat, rt: Target, pos: nat, a: Config) returns (c: Config)
    requires a.Run? && a.k == X.k && a.f.m == X.m && a.f.ip == pos && RelGlobals(g, a.g) && CodeAt(X.m.code, pos, [PushNil])
    ensures Comes(X, Val(Nil, g), t, fuel, n, rt, pos + 1, a, c)
  {
    hide After, Reaches, RelGlobals;
    c := SimLiteral(X, CNil, g, n, rt, pos, a);
  }

  lemma ComesBelow(X: Site, o: Outcome, t: bool, fuel: nat, n: nat, n1: nat, rt: Target, end: nat, a: Config, c: Config)
    requires n <= n1 && Comes(X, o, t, fuel, n1, rt, end, a, c)
    ensures Comes(X, o, t, fuel, n, rt, end, a, c)
  {
    hide After, Reaches, Toll;
    AfterBelow(X, o, a.f, n, n1, rt, end, c);
  }

  lemma ComesNoRecur(X: Site, o: Outcome, t: bool, fuel: nat, n: nat, rt: Target, end: nat, a: Config, c: Config)
    requires Comes(X, o, true, fuel, n, NoTarget, end, a, c)
    ensures Comes(X, o, t, fuel, n, rt, end, a, c)
  {
    hide After, Reaches, Toll;
    AfterNoRecur(X, o, a.f, n, rt, end, c);
  }

  /** A run on from `d` is one from `a`. */
  lemma ComesLater(X: Site, o: Outcome, t: bool, t1: bool, fuel: nat, n: nat, n1: nat, rt: Target, end: nat, a: Config, d: Config, c: Config)
    requires a.Run? && d.Run? && n <= n1 && Reaches(X.P, a, d) && Kept(X, n, a.f, d.f) && d.f.stack == a.f.stack && (t ==> t1)
    requires Comes(X, o, t, fuel, n1, rt, end, d, c)
    ensures Comes(X, o, t1, fuel, n, rt, end, a, c)
  {
    hide After, Reaches, Toll, Kept;
    FinishLater(X, n, n1, a, d, o, rt, end, c);
    TollLater(X.P, a, d, o, fuel, c);
  }

  lemma {:induction false} Sim(X: Site, e: Form, t: bool, rc: RecurCtx, env: Env, g: Env, fuel: nat,
                               sc: Scopes, rt: Target, pos: nat, a: Config)
    returns (c: Config)
    requires Begins(X, e, t, rc, env, g, sc, rt, pos, a)
    ensures Comes(X, Eval(X.P, e, env, g, fuel), t, fuel, SlotsOf(sc), rt, pos + |Compile(e, sc, rt, pos).code|, a, c)
    decreases fuel, e, if sc.NoScope? then 2 else 1
  {
    hide Reaches, Busy, Moves, WellFormed, Grows, LocalsOk, PrimsAgree, Extends, Rel, RecurOk, Kept, RelGlobals, After, Compile, Eval, Check, CodeAt;
    match e
    case Def(_, _) => c := SimDef(X, e, t, rc, env, g, fuel, sc, rt, pos, a);
    case If(_, _, _) => c := SimIf(X, e, t, rc, env, g, fuel, sc, rt, pos, a);
    case Do(_) => c := SimSequence(X, e, t, rc, env, g, fuel, sc, rt, pos, a);
    case And(_) => c := SimSequence(X, e, t, rc, env, g, fuel, sc, rt, pos, a);
    case Or(_) => c := SimSequence(X, e, t, rc, env, g, fuel, sc, rt, pos, a);
    case Let(_, _) => c := SimScoped(X, e, t, rc, env, g, fuel, sc, rt, pos, a);
    case Loop(_, _) => c := SimScoped(X, e, t, rc, env, g, fuel, sc, rt, pos, a);
    case Try(_, _, _) => c := SimScoped(X, e, t, rc, env, g, fuel, sc, rt, pos, a);
    case Recur(_) => c := SimRecur(X, e, t, rc, env, g, fuel, sc, rt, pos, a);
    case Call(_, _) => c := SimCall(X, e, t, rc, env, g, fuel, sc, rt, pos, a);
    case Throw(_) => c := SimThrow(X, e, t, rc, env, g, fuel, sc, rt, pos, a);
    case _ => c := SimLeaf(X, e, t, rc, env, g, fuel, sc, rt, pos, a);
  }

  lemma SimLeaf(X: Site, e: Form, t: bool, rc: RecurCtx, env: Env, g: Env, fuel: nat,
                sc: Scopes, rt: Target, pos: nat, a: Config)
    returns (c: Config)
    requires e.Lit? || e.Quote? || e.Sym? || e.Global? || e.Fn?
    requires Begins(X, e, t, rc, env, g, sc, rt, pos, a)
    ensures Comes(X, Eval(X.P, e, env, g, fuel), t, fuel, SlotsOf(sc), rt, pos + |Compile(e, sc, rt, pos).code|, a, c)
  {
    hide Reaches, Busy, Moves, WellFormed, Grows, LocalsOk, PrimsAgree, Extends, Rel, RecurOk, Kept, RelGlobals, After, CodeAt, CompileFn, CheckAll, LevelAll, LeavesAll;
    match e
    case Lit(k) => c := SimLiteral(X, k, g, SlotsOf(sc), rt, pos, a);
    case Quote(k) => c := SimLiteral(X, k, g, SlotsOf(sc), rt, pos, a);
    case Sym(x) => c := SimSym(X, x, env, g, sc, rt, pos, a);
    case Global(x) => c := SimGlobal(X, x, g, SlotsOf(sc), rt, pos, a);
    case Fn(_, _) => c := SimFn(X, e, env, g, sc, rt, pos, a);
  }

  lemma {:induction false} SimSequence(X: Site, e: Form, t: bool, rc: RecurCtx, env: Env, g: Env, fuel: nat,
                                       sc: Scopes, rt: Target, pos: nat, a: Config)
    returns (c: Config)
    requires e.Do? || e.And? || e.Or?
    requires Begins(X, e, t, rc, env, g, sc, rt, pos, a)
    ensures Comes(X, Eval(X.P, e, env, g, fuel), t, fuel, SlotsOf(sc), rt, pos + |Compile(e, sc, rt, pos).code|, a, c)
    decreases fuel, e, 0
  {
    hide Reaches, Busy, Moves, WellFormed, Grows, LocalsOk, PrimsAgree, Extends, Rel, RecurOk, Kept, RelGlobals, After, CodeAt,
      CompileBody, CompileChain, EvalBody, EvalAnd, EvalOr, CheckAll, LevelAll, LeavesAll;
    match e
    case Do(es) => c := SimBody(X, es, 0, t, rc, env, g, fuel, sc, rt, pos, a);
    case And(es) =>
      if |es| == 0 { c := SimLiteral(X, CTrue, g, SlotsOf(sc), rt, pos, a); }
      else { c := SimChain(X, es, 0, true, t, rc, env, g, fuel, sc, rt, pos, a); }
    case Or(es) =>
      if |es| == 0 { c := SimLiteral(X, CNil, g, SlotsOf(sc), rt, pos, a); }
      else { c := SimChain(X, es, 0, false, t, rc, env, g, fuel, sc, rt, pos, a); }
  }

  lemma {:induction false} SimScoped(X: Site, e: Form, t: bool, rc: RecurCtx, env: Env, g: Env, fuel: nat,
                                     sc: Scopes, rt: Target, pos: nat, a: Config)
    returns (c: Config)
    requires e.Let? || e.Loop? || e.Try?
    requires Begins(X, e, t, rc, env, g, sc, rt, pos, a)
    ensures Comes(X, Eval(X.P, e, env, g, fuel), t, fuel, SlotsOf(sc), rt, pos + |Compile(e, sc, rt, pos).code|, a, c)
    decreases fuel, e, if sc.NoScope? then 2 else 1, 0
  {
    hide Reaches, Busy, Moves, WellFormed, Grows, LocalsOk, PrimsAgree, Extends, Rel, RecurOk, Kept, RelGlobals, After, CodeAt;
    if e.Let? {
      LetStarts(X.P, e, t, rc, env, g, fuel, sc, rt, pos);
      c := SimLet(X, e, 0, t, rc, env, g, fuel, sc, rt, pos, a);
    } else if e.Loop? {
      LoopStarts(X.P, e, t, rc, env, g, fuel, sc, rt, pos);
      NoSlotsYet(X, sc);
      assert BindingNames(e.bs)[..0] == [];
      c := SimLoop(X, e, 0, [], SlotsOf(sc), t, rc, env, g, fuel, sc, rt, pos, a);
    } else {
      TryAnywhere(e, sc, rt, pos);
      c := SimTry(X, e, t, rc, env, g, fuel, sc, pos, a);
      AfterNoRecur(X, Eval(X.P, e, env, g, fuel), a.f, SlotsOf(sc), rt, pos + |Compile(e, sc, rt, pos).code|, c);
    }
  }

  lemma {:induction false} SimDef(X: Site, e: Form, t: bool, rc: RecurCtx, env: Env, g: Env, fuel: nat,
                                  sc: Scopes, rt: Target, pos: nat, a: Config)
    returns (c: Config)
    requires e.Def? && Begins(X, e, t, rc, env, g, sc, rt, pos, a)
    ensures Comes(X, Eval(X.P, e, env, g, fuel), t, fuel, SlotsOf(sc), rt, pos + |Compile(e, sc, rt, pos).code|, a, c)
    decreases fuel, e, 0
  {
    hide Comes, Toll, Reaches, Busy, Moves, Step, WellFormed, Grows, LocalsOk, PrimsAgree, Extends, Rel, RecurOk, Kept, RelGlobals, CodeAt, Exec, After;
    var r := Compile(e.init, sc, rt, pos);
    CodeAtSplit(X.m.code, pos, r.code, [StoreGlobal(e.name)]);
    c := Sim(X, e.init, t, rc, env, g, fuel, sc, rt, pos, a);
    var o := Eval(X.P, e.init, env, g, fuel);
    Came(X, o, t, fuel, SlotsOf(sc), rt, pos + |r.code|, a, c);
    if o.Val? {
      ValState(X, o, a.f, SlotsOf(sc), rt, pos + |r.code|, c);
      AfterStoreGlobal(X, e.name, o, a.f, SlotsOf(sc), rt, pos + |r.code|, c);
      c := Then(X, a, c, StoreGlobal(e.name));
      ComesNow(X, Eval(X.P, e, env, g, fuel), t, fuel, SlotsOf(sc), rt, pos + |r.code| + 1, a, c);
    } else {
      ComesElsewhere(X, o, t, fuel, SlotsOf(sc), rt, pos + |r.code|, pos + |r.code| + 1, a, c);
    }
  }

  lemma {:induction false} SimIf(X: Site, e: Form, t: bool, rc: RecurCtx, env: Env, g: Env, fuel: nat,
                                 sc: Scopes, rt: Target, pos: nat, a: Config)
    returns (c: Config)
    requires e.If? && Begins(X, e, t, rc, env, g, sc, rt, pos, a)
    ensures Comes(X, Eval(X.P, e, env, g, fuel), t, fuel, SlotsOf(sc), rt, pos + |Compile(e, sc, rt, pos).code|, a, c)
    decreases fuel, e, 0
  {
    hide Comes, Toll, CompileElse, EvalElse, Reaches, Step, WellFormed, Grows, LocalsOk, PrimsAgree, Extends, Rel, RecurOk, Kept, RelGlobals, Exec, After, Compile, Eval, Check, Level, Leaves, CodeAt;
    var r := Compile(e.test, sc, rt, pos);
    var pt := pos + |r.code| + 1;
    var th := Compile(e.thn, r.sc, rt, pt);
    var el := CompileElse(e.els, th.sc, rt, pt + |th.code| + 1);
    IfEvaluated(X.P, e, env, g, fuel);
    IfCompiled(e, sc, rt, pos, r, th, el);
    IfChecked(e, t, rc, sc.NoScope?);
    if LiteralTest(e.test).Some? {
      LiteralDecides(X.P, e, env, g, fuel);
      hide Begins;
      if LiteralTest(e.test).value {
        ToBegin(X, e.thn, t, rc, env, g, sc, rt, pos, a);
        c := Sim(X, e.thn, t, rc, env, g, fuel, sc, rt, pos, a);
      } else {
        c := SimElse(X, e.els, t, rc, env, g, fuel, sc, rt, pos, a);
      }
      return;
    }
    IfCode(X.m.code, pos, r.code, JumpIfFalse(|th.code| + 1), th.code, Jump(|el.code|), el.code);
    CompileGrows(e.test, sc, rt, pos);
    CompileGrows(e.thn, r.sc, rt, pt);
    ElseGrows(e.els, th.sc, rt, pt + |th.code| + 1);
    ExtendsFrom(th.sc, el.sc, X.fin);
    ExtendsFrom(r.sc, th.sc, X.fin);
    hide Begins;
    ToBegin(X, e.test, t, rc, env, g, sc, rt, pos, a);
    c := Sim(X, e.test, t, rc, env, g, fuel, sc, rt, pos, a);
    var o := Eval(X.P, e.test, env, g, fuel);
    Came(X, o, t, fuel, SlotsOf(sc), rt, pos + |r.code|, a, c);
    if o.Val? {
      ValLeaves(X.P, e.test, env, g, fuel, sc.NoScope?);
      c := SimBranch(X, e, t, rc, env, g, o, fuel, sc, rt, pos, a, c, r, th);
    } else {
      ComesElsewhere(X, o, t, fuel, SlotsOf(sc), rt, pos + |r.code|, pos + |Compile(e, sc, rt, pos).code|, a, c);
    }
  }

  /** The branch an `if` takes, from `c`, its test just evaluated to `o`. */
  lemma {:induction false} SimBranch(X: Site, e: Form, t: bool, rc: RecurCtx, env: Env, g: Env, o: Outcome, fuel: nat,
                                     sc: Scopes, rt: Target, pos: nat, a: Config, c0: Config, r: Piece, th: Piece)
    returns (c: Config)
    requires e.If? && Ready(X, sc, env, g, a, pos) && o.Val? && (sc.NoScope? ==> !t)
    requires Check(e.thn, rc, sc.NoScope?) == None && Level(e.thn, t, true, sc.NoScope?) && RecurOk(X, rc, rt, SlotsOf(sc), pos)
    requires e.els.Some? ==> Check(e.els.value, rc, sc.NoScope?) == None && Level(e.els.value, t, true, sc.NoScope?)
    requires Reaches(X.P, a, c0) && After(X, o, a.f, SlotsOf(sc), rt, pos + |r.code|, c0)
    requires Grows(sc, r.sc) && WellFormed(r.sc) && Grows(r.sc, th.sc) && WellFormed(th.sc)
    requires th == Compile(e.thn, r.sc, rt, pos + |r.code| + 1)
    requires CodeAt(X.m.code, pos + |r.code|, [JumpIfFalse(|th.code| + 1)])
    requires Placed(X, pos + |r.code| + 1, th) && (r.sc.Inner? ==> Extends(r.sc.top, X.fin))
    requires var el := CompileElse(e.els, th.sc, rt, pos + |r.code| + 1 + |th.code| + 1);
             && CodeAt(X.m.code, pos + |r.code| + 1 + |th.code|, [Jump(|el.code|)])
             && Placed(X, pos + |r.code| + 1 + |th.code| + 1, el)
    ensures var o1 := if Truthy(o.v) then Eval(X.P, e.thn, env, o.g, fuel) else EvalElse(X.P, e.els, env, o.g, fuel);
            var el := CompileElse(e.els, th.sc, rt, pos + |r.code| + 1 + |th.code| + 1);
            Comes(X, o1, t, fuel, SlotsOf(sc), rt, pos + |r.code| + 1 + |th.code| + 1 + |el.code|, a, c)
    decreases fuel, e, 0, 0
  {
    hide Begins, Comes, Toll, Reaches, Busy, Moves, Step, WellFormed, Grows, LocalsOk, PrimsAgree, Extends, Rel, RecurOk, Kept, RelGlobals, Exec, After, Compile, Eval, Check, Level, Leaves, CodeAt;
    var pt := pos + |r.code| + 1;
    var pe := pt + |th.code| + 1;
    var el := CompileElse(e.els, th.sc, rt, pe);
    GrowsSlots(sc, r.sc);
    GrowsTrans(sc, r.sc, th.sc);
    GrowsSlots(sc, th.sc);
    if Truthy(o.v) {
      var d := TestThen(X, sc, r.sc, env, g, a, pos, o, rt, pos + |r.code|, |th.code| + 1, c0);
      RecurOkLater(X, rc, rt, SlotsOf(sc), pos, SlotsOf(r.sc), pt);
      ToBegin(X, e.thn, t, rc, env, o.g, r.sc, rt, pt, d);
      c := Sim(X, e.thn, t, rc, env, o.g, fuel, r.sc, rt, pt, d);
      var o1 := Eval(X.P, e.thn, env, o.g, fuel);
      ComesLater(X, o1, t, t, fuel, SlotsOf(sc), SlotsOf(r.sc), rt, pt + |th.code|, a, d, c);
      c := ComesOver(X, o1, t, fuel, SlotsOf(sc), rt, pt + |th.code|, |el.code|, a, c);
    } else {
      var d := TestThen(X, sc, th.sc, env, g, a, pos, o, rt, pos + |r.code|, |th.code| + 1, c0);
      RecurOkLater(X, rc, rt, SlotsOf(sc), pos, SlotsOf(th.sc), pe);
      c := SimElse(X, e.els, t, rc, env, o.g, fuel, th.sc, rt, pe, d);
      ComesLater(X, EvalElse(X.P, e.els, env, o.g, fuel), t, t, fuel, SlotsOf(sc), SlotsOf(th.sc), rt, pe + |el.code|, a, d, c);
    }
  }

  lemma {:induction false} SimElse(X: Site, els: Option<Form>, t: bool, rc: RecurCtx, env: Env, g: Env, fuel: nat,
                                   sc: Scopes, rt: Target, pos: nat, a: Config)
    returns (c: Config)
    requires Ready(X, sc, env, g, a, pos)
    requires els.Some? ==> Check(els.value, rc, sc.NoScope?) == None && Level(els.value, t, true, sc.NoScope?)
    requires RecurOk(X, rc, rt, SlotsOf(sc), pos) && (sc.NoScope? ==> !t)
    requires Placed(X, pos, CompileElse(els, sc, rt, pos))
    ensures Comes(X, EvalElse(X.P, els, env, g, fuel), t, fuel, SlotsOf(sc), rt, pos + |CompileElse(els, sc, rt, pos).code|, a, c)
    decreases fuel, els, 3
  {
    hide Begins, Comes, Reaches, Toll, WellFormed, LocalsOk, PrimsAgree, Extends, Rel, RecurOk, RelGlobals, After, Compile, Eval, Check, Level, CodeAt;
    if els.Some? {
      ToBegin(X, els.value, t, rc, env, g, sc, rt, pos, a);
      c := Sim(X, els.value, t, rc, env, g, fuel, sc, rt, pos, a);
    } else {
      c := ComesNil(X, g, t, fuel, SlotsOf(sc), rt, pos, a);
    }
  }

  lemma {:induction false} SimBody(X: Site, es: seq<Form>, i: nat, t: bool, rc: RecurCtx, env: Env, g: Env, fuel: nat,
                                   sc: Scopes, rt: Target, pos: nat, a: Config)
    returns (c: Config)
    requires i <= |es| && Ready(X, sc, env, g, a, pos)
    requires CheckAll(es, i, rc, sc.NoScope?) == None && LevelAll(es, i, t, t, true, sc.NoScope?) && RecurOk(X, rc, rt, SlotsOf(sc), pos)
    requires sc.NoScope? ==> !t
    requires Placed(X, pos, CompileBody(es, i, sc, rt, pos))
    ensures Comes(X, EvalBody(X.P, es, i, env, g, fuel), t, fuel, SlotsOf(sc), rt, pos + |CompileBody(es, i, sc, rt, pos).code|, a, c)
    decreases fuel, es, |es| - i
  {
    hide Begins, Comes, Busy, Moves, Toll, CheckAll, LevelAll, LeavesAll, Reaches, Step, WellFormed, Grows, LocalsOk, PrimsAgree, Extends, Rel, RecurOk, Kept, RelGlobals, Exec, After, Compile, Eval, Check, Level, Leaves, CodeAt;
    if i == |es| {
      c := ComesNil(X, g, t, fuel, SlotsOf(sc), rt, pos, a);
    } else if i + 1 == |es| {
      BodyChecked(es, i, rc, sc.NoScope?, t);
      ToBegin(X, es[i], t, rc, env, g, sc, rt, pos, a);
      c := Sim(X, es[i], t, rc, env, g, fuel, sc, rt, pos, a);
    } else {
      BodyChecked(es, i, rc, sc.NoScope?, t);
      var r := Compile(es[i], sc, rt, pos);
      var p := pos + |r.code| + 1;
      var rest := CompileBody(es, i + 1, r.sc, rt, p);
      CodeAtSplit(X.m.code, pos, r.code + [Pop], rest.code);
      CodeAtSplit(X.m.code, pos, r.code, [Pop]);
      CompileGrows(es[i], sc, rt, pos);
      BodyGrows(es, i + 1, r.sc, rt, p);
      ExtendsFrom(r.sc, rest.sc, X.fin);
      GrowsSlots(sc, r.sc);
      ToBegin(X, es[i], t, rc, env, g, sc, rt, pos, a);
      c := Sim(X, es[i], t, rc, env, g, fuel, sc, rt, pos, a);
      var o := Eval(X.P, es[i], env, g, fuel);
      Came(X, o, t, fuel, SlotsOf(sc), rt, pos + |r.code|, a, c);
      if o.Val? {
        ValLeaves(X.P, es[i], env, g, fuel, sc.NoScope?);
        var d := PopThen(X, sc, r.sc, env, g, a, pos, o, rt, pos + |r.code|, c);
        RecurOkLater(X, rc, rt, SlotsOf(sc), pos, SlotsOf(r.sc), p);
        c := SimBody(X, es, i + 1, t, rc, env, o.g, fuel, r.sc, rt, p, d);
        ComesLater(X, EvalBody(X.P, es, i + 1, env, o.g, fuel), t, t, fuel, SlotsOf(sc), SlotsOf(r.sc), rt, p + |rest.code|, a, d, c);
      } else {
        ComesElsewhere(X, o, t, fuel, SlotsOf(sc), rt, pos + |r.code|, p + |rest.code|, a, c);
      }
    }
  }

  lemma {:induction false} SimChain(X: Site, es: seq<Form>, i: nat, conj: bool, t: bool, rc: RecurCtx, env: Env, g: Env,
                                    fuel: nat, sc: Scopes, rt: Target, pos: nat, a: Config)
    returns (c: Config)
    requires i < |es| && Ready(X, sc, env, g, a, pos)
    requires CheckAll(es, i, rc, sc.NoScope?) == None && LevelAll(es, i, t, t, true, sc.NoScope?) && RecurOk(X, rc, rt, SlotsOf(sc), pos)
    requires sc.NoScope? ==> !t
    requires Placed(X, pos, CompileChain(es, i, conj, sc, rt, pos))
    ensures Comes(X, EvalChain(X.P, es, i, conj, env, g, fuel), t, fuel, SlotsOf(sc), rt, pos + |CompileChain(es, i, conj, sc, rt, pos).code|, a, c)
    decreases fuel, es, |es| - i
  {
    hide Begins, Comes, Busy, Moves, Toll, CheckAll, LevelAll, LeavesAll, CompileChain, EvalChain, Reaches, Step, WellFormed, Grows, LocalsOk, PrimsAgree, Extends, Rel, RecurOk, Kept, RelGlobals, Exec, After, Compile, Eval, Check, Level, Leaves, CodeAt;
    var o := Eval(X.P, es[i], env, g, fuel);
    var r := Compile(es[i], sc, rt, pos);
    BodyChecked(es, i, rc, sc.NoScope?, t);
    ChainCompiled(es, i, conj, sc, rt, pos, r);
    ChainEvaluated(X.P, es, i, conj, env, g, fuel, o);
    if i + 1 == |es| {
      ToBegin(X, es[i], t, rc, env, g, sc, rt, pos, a);
      c := Sim(X, es[i], t, rc, env, g, fuel, sc, rt, pos, a);
    } else {
      var p := pos + |r.code| + 3;
      var rest := CompileChain(es, i + 1, conj, r.sc, rt, p);
      var over := |rest.code| + 1;
      var link := ChainInstrs(conj, over);
      CodeAtSplit(X.m.code, pos, r.code + link, rest.code);
      CodeAtSplit(X.m.code, pos, r.code, link);
      CompileGrows(es[i], sc, rt, pos);
      ChainGrows(es, i + 1, conj, r.sc, rt, p);
      ExtendsFrom(r.sc, rest.sc, X.fin);
      GrowsSlots(sc, r.sc);
      ToBegin(X, es[i], t, rc, env, g, sc, rt, pos, a);
      c := Sim(X, es[i], t, rc, env, g, fuel, sc, rt, pos, a);
      Came(X, o, t, fuel, SlotsOf(sc), rt, pos + |r.code|, a, c);
      if o.Val? {
        ValState(X, o, a.f, SlotsOf(sc), rt, pos + |r.code|, c);
        var d := ChainLink(X, conj, over, o, a, SlotsOf(sc), rt, pos + |r.code|, c);
        if Truthy(o.v) == conj {
          ValLeaves(X.P, es[i], env, g, fuel, sc.NoScope?);
          PopReady(X, sc, r.sc, env, g, a, pos, o.v, o.g, rt, pos + |r.code|, c, d, p);
          RecurOkLater(X, rc, rt, SlotsOf(sc), pos, SlotsOf(r.sc), p);
          c := SimChain(X, es, i + 1, conj, t, rc, env, o.g, fuel, r.sc, rt, p, d);
          ComesLater(X, EvalChain(X.P, es, i + 1, conj, env, o.g, fuel), t, t, fuel, SlotsOf(sc), SlotsOf(r.sc), rt, p + |rest.code|, a, d, c);
        } else {
          c := d;
          ComesNow(X, o, t, fuel, SlotsOf(sc), rt, p + |rest.code|, a, c);
        }
      } else {
        ComesElsewhere(X, o, t, fuel, SlotsOf(sc), rt, pos + |r.code|, p + |rest.code|, a, c);
      }
    }
  }

  lemma {:induction false} SimArgs(X: Site, es: seq<Form>, i: nat, t: bool, rc: RecurCtx, env: Env, g: Env, fuel: nat,
                                   sc: Scopes, rt: Target, pos: nat, a: Config)
    returns (c: Config)
    requires i <= |es| && Ready(X, sc, env, g, a, pos) && (sc.NoScope? ==> !t)
    requires CheckAll(es, i, rc, sc.NoScope?) == None && LevelAll(es, i, t, false, true, sc.NoScope?) && RecurOk(X, rc, rt, SlotsOf(sc), pos)
    requires Placed(X, pos, CompileArgs(es, i, sc, rt, pos))
    ensures Reaches(X.P, a, c)
    ensures AfterAll(X, EvalArgs(X.P, es, i, env, g, fuel), a.f, SlotsOf(sc), rt,
                     pos + |CompileArgs(es, i, sc, rt, pos).code|, true, c)
    ensures EvalArgs(X.P, es, i, env, g, fuel).Stopped? ==>
              && Toll(X.P, a, EvalArgs(X.P, es, i, env, g, fuel).o, fuel, c)
              && (EvalArgs(X.P, es, i, env, g, fuel).o.Recurs? ==> t)
    decreases fuel, es, |es| - i
  {
    hide Begins, Comes, Toll, Reaches, Busy, Moves, Step, WellFormed, Grows, LocalsOk, PrimsAgree, Extends, Rel, RecurOk, Kept, RelGlobals, Exec, After, AfterAll, Compile, Eval, Check, Level, Leaves, CodeAt;
    if i == |es| {
      ReachesSelf(X.P, a);
      c := a;
      NoneDone(X, g, a, SlotsOf(sc), rt, true);
    } else {
      var r := Compile(es[i], sc, rt, pos);
      var p := pos + |r.code|;
      var rest := CompileArgs(es, i + 1, r.sc, rt, p);
      CodeAtSplit(X.m.code, pos, r.code, rest.code);
      CompileGrows(es[i], sc, rt, pos);
      ArgsGrow(es, i + 1, r.sc, rt, p);
      ExtendsFrom(r.sc, rest.sc, X.fin);
      GrowsSlots(sc, r.sc);
      ToBegin(X, es[i], t, rc, env, g, sc, rt, pos, a);
      c := Sim(X, es[i], t, rc, env, g, fuel, sc, rt, pos, a);
      var o := Eval(X.P, es[i], env, g, fuel);
      Came(X, o, t, fuel, SlotsOf(sc), rt, p, a, c);
      if o.Val? {
        var d := c;
        ValLeaves(X.P, es[i], env, g, fuel, sc.NoScope?);
        PushReady(X, sc, r.sc, env, g, a, pos, o, rt, p, d);
        RecurOkLater(X, rc, rt, SlotsOf(sc), pos, SlotsOf(r.sc), p);
        c := SimArgs(X, es, i + 1, false, rc, env, o.g, fuel, r.sc, rt, p, d);
        ReachesTrans(X.P, a, d, c);
        var os := EvalArgs(X.P, es, i + 1, env, o.g, fuel);
        OneMore(X, o, os, a.f, SlotsOf(sc), rt, p, d, SlotsOf(r.sc), p + |rest.code|, c);
        if os.Stopped? { TollLater(X.P, a, d, os.o, fuel, c); }
      } else {
        AllStopped(X, o, a.f, SlotsOf(sc), rt, p, p + |rest.code|, true, c);
      }
    }
  }

  lemma {:induction false} SimEffects(X: Site, es: seq<Form>, i: nat, rc: RecurCtx, env: Env, g: Env, fuel: nat,
                                      sc: Scopes, pos: nat, a: Config)
    returns (c: Config)
    requires i <= |es| && Ready(X, sc, env, g, a, pos)
    requires CheckAll(es, i, rc, sc.NoScope?) == None && LevelAll(es, i, false, false, true, sc.NoScope?) && RecurOk(X, rc, NoTarget, SlotsOf(sc), pos)
    requires Placed(X, pos, CompileEffects(es, i, sc, pos))
    ensures Reaches(X.P, a, c)
    ensures AfterAll(X, EvalArgs(X.P, es, i, env, g, fuel), a.f, SlotsOf(sc), NoTarget,
                     pos + |CompileEffects(es, i, sc, pos).code|, false, c)
    ensures EvalArgs(X.P, es, i, env, g, fuel).Stopped? ==> Toll(X.P, a, EvalArgs(X.P, es, i, env, g, fuel).o, fuel, c)
    decreases fuel, es, |es| - i
  {
    hide Begins, Comes, Toll, Reaches, Busy, Moves, Step, WellFormed, Grows, LocalsOk, PrimsAgree, Extends, Rel, RecurOk, Kept, RelGlobals, Exec, After, AfterAll, Compile, Eval, Check, Level, Leaves, CodeAt;
    if i == |es| {
      ReachesSelf(X.P, a);
      c := a;
      NoneDone(X, g, a, SlotsOf(sc), NoTarget, false);
    } else {
      var r := Compile(es[i], sc, NoTarget, pos);
      var p := pos + |r.code| + 1;
      var rest := CompileEffects(es, i + 1, r.sc, p);
      CodeAtSplit(X.m.code, pos, r.code + [Pop], rest.code);
      CodeAtSplit(X.m.code, pos, r.code, [Pop]);
      CompileGrows(es[i], sc, NoTarget, pos);
      EffectsGrow(es, i + 1, r.sc, p);
      ExtendsFrom(r.sc, rest.sc, X.fin);
      GrowsSlots(sc, r.sc);
      ToBegin(X, es[i], false, rc, env, g, sc, NoTarget, pos, a);
      c := Sim(X, es[i], false, rc, env, g, fuel, sc, NoTarget, pos, a);
      var o := Eval(X.P, es[i], env, g, fuel);
      Came(X, o, false, fuel, SlotsOf(sc), NoTarget, pos + |r.code|, a, c);
      if o.Val? {
        ValLeaves(X.P, es[i], env, g, fuel, sc.NoScope?);
        var d := PopThen(X, sc, r.sc, env, g, a, pos, o, NoTarget, pos + |r.code|, c);
        RecurOkLater(X, rc, NoTarget, SlotsOf(sc), pos, SlotsOf(r.sc), p);
        c := SimEffects(X, es, i + 1, rc, env, o.g, fuel, r.sc, p, d);
        ReachesTrans(X.P, a, d, c);
        var os := EvalArgs(X.P, es, i + 1, env, o.g, fuel);
        OneMoreEffect(X, o.v, os, a.f, SlotsOf(sc), d.f, SlotsOf(r.sc), p + |rest.code|, c);
        if os.Stopped? { TollLater(X.P, a, d, os.o, fuel, c); }
      } else {
        AllStopped(X, o, a.f, SlotsOf(sc), NoTarget, pos + |r.code|, p + |rest.code|, false, c);
      }
    }
  }

  lemma {:induction false} SimThrow(X: Site, e: Form, t: bool, rc: RecurCtx, env: Env, g: Env, fuel: nat,
                                    sc: Scopes, rt: Target, pos: nat, a: Config)
    returns (c: Config)
    requires e.Throw? && Begins(X, e, t, rc, env, g, sc, rt, pos, a)
    ensures Comes(X, Eval(X.P, e, env, g, fuel), t, fuel, SlotsOf(sc), rt, pos + |Compile(e, sc, rt, pos).code|, a, c)
    decreases fuel, e, 0
  {
    hide Comes, Toll, Reaches, Busy, Moves, Step, WellFormed, Grows, LocalsOk, PrimsAgree, Extends, Rel, RecurOk, Kept, RelGlobals, CodeAt, Exec, After;
    var r := Compile(e.e, sc, rt, pos);
    CodeAtSplit(X.m.code, pos, r.code, [Raise]);
    c := Sim(X, e.e, t, rc, env, g, fuel, sc, rt, pos, a);
    var o := Eval(X.P, e.e, env, g, fuel);
    Came(X, o, t, fuel, SlotsOf(sc), rt, pos + |r.code|, a, c);
    if o.Val? {
      ValState(X, o, a.f, SlotsOf(sc), rt, pos + |r.code|, c);
      AfterRaise(X, o, a.f, SlotsOf(sc), rt, pos + |r.code|, pos + |r.code| + 1, c);
      c := Then(X, a, c, Raise);
      ComesNow(X, Eval(X.P, e, env, g, fuel), t, fuel, SlotsOf(sc), rt, pos + |r.code| + 1, a, c);
    } else {
      ComesElsewhere(X, o, t, fuel, SlotsOf(sc), rt, pos + |r.code|, pos + |r.code| + 1, a, c);
    }
  }

  lemma {:induction false} SimLet(X: Site, e: Form, i: nat, t: bool, rc: RecurCtx, env: Env, g: Env, fuel: nat,
                                  sc: Scopes, rt: Target, pos: nat, a: Config)
    returns (c: Config)
    requires e.Let? && i <= |e.bs| && sc.Inner? && Ready(X, sc, env, g, a, pos)
    requires CheckInits(e.bs, i, rc) == None && CheckAll(e.body, 0, rc, false) == None
    requires LevelInits(e.bs, i, t, true) && LevelAll(e.body, 0, t, t, LeavesInits(e.bs, i), false) && RecurOk(X, rc, rt, SlotsOf(sc), pos)
    requires Placed(X, pos, CompileLet(e, i, sc, rt, pos))
    ensures Comes(X, EvalLet(X.P, e, i, env, g, fuel), t, fuel, SlotsOf(sc), rt, pos + |CompileLet(e, i, sc, rt, pos).code|, a, c)
    decreases fuel, e, 0, |e.bs| - i
  {
    hide Begins, Comes, Busy, Moves, Toll, CompileLet, Restore, CheckAll, LevelAll, LeavesAll, Reaches, Step, WellFormed, Grows, LocalsOk, PrimsAgree, Extends, Rel, RecurOk, Kept, RelGlobals, Exec, After, Compile, Eval, Check, Level, Leaves, CodeAt;
    if i == |e.bs| {
      LetBodyCompiled(e, sc, rt, pos);
      c := SimBody(X, e.body, 0, t, rc, env, g, fuel, sc, rt, pos, a);
    } else {
      var x := e.bs[i].name;
      var r := Compile(e.bs[i].init, sc, rt, pos);
      var p := pos + |r.code| + 1;
      LetCompiled(e, i, sc, rt, pos, r);
      var sc1 := Bind(r.sc, x);
      var rest := CompileLet(e, i + 1, sc1, rt, p);
      CodeAtSplit(X.m.code, pos, r.code + [StoreLocal(r.sc.top.nextSlot)], rest.code);
      CodeAtSplit(X.m.code, pos, r.code, [StoreLocal(r.sc.top.nextSlot)]);
      CompileGrows(e.bs[i].init, sc, rt, pos);
      BindWellFormed(r.sc, x);
      LetGrows(e, i + 1, sc1, rt, p);
      RestoredExtends(X, rest.sc, x, r.sc);
      ExtendsFrom(sc1, rest.sc, X.fin);
      BindExtends(r.sc, x, X.fin);
      GrowsSlots(sc, r.sc);
      ToBegin(X, e.bs[i].init, t, rc, env, g, sc, rt, pos, a);
      c := Sim(X, e.bs[i].init, t, rc, env, g, fuel, sc, rt, pos, a);
      var o := Eval(X.P, e.bs[i].init, env, g, fuel);
      Came(X, o, t, fuel, SlotsOf(sc), rt, pos + |r.code|, a, c);
      if o.Val? {
        ValLeaves(X.P, e.bs[i].init, env, g, fuel, false);
        var d := BindThen(X, sc, r.sc, x, env, g, a, pos, o, rt, pos + |r.code|, c);
        RecurOkLater(X, rc, rt, SlotsOf(sc), pos, SlotsOf(sc1), p);
        c := SimLet(X, e, i + 1, t, rc, env[x := o.v], o.g, fuel, sc1, rt, p, d);
        ComesLater(X, EvalLet(X.P, e, i + 1, env[x := o.v], o.g, fuel), t, t, fuel, SlotsOf(sc), SlotsOf(sc1), rt, p + |rest.code|, a, d, c);
      } else {
        ComesElsewhere(X, o, t, fuel, SlotsOf(sc), rt, pos + |r.code|, p + |rest.code|, a, c);
      }
    }
  }

  lemma {:induction false} SimLoop(X: Site, e: Form, i: nat, slots: seq<nat>, n: nat, t: bool, rc: RecurCtx, env: Env, g: Env, fuel: nat,
                                   sc: Scopes, rt: Target, pos: nat, a: Config)
    returns (c: Config)
    requires e.Loop? && i <= |e.bs| && sc.Inner? && Ready(X, sc, env, g, a, pos)
    requires CheckInits(e.bs, i, rc) == None && CheckAll(e.body, 0, InLoop(|e.bs|, false), false) == None
    requires LevelInits(e.bs, i, t, true) && LevelAll(e.body, 0, true, true, LeavesInits(e.bs, i), false) && RecurOk(X, rc, rt, SlotsOf(sc), pos)
    requires n <= SlotsOf(sc) && |slots| == i && LoopNames(sc.top, BindingNames(e.bs)[..i], slots)
    requires SlotsFit(X, slots, n, SlotsOf(sc))
    requires Placed(X, pos, CompileLoop(e, i, slots, sc, rt, pos))
    ensures Comes(X, EvalLoop(X.P, e, i, env, g, fuel), t, fuel, n, rt, pos + |CompileLoop(e, i, slots, sc, rt, pos).code|, a, c)
    decreases fuel, e, 0, |e.bs| - i
  {
    hide Begins, Comes, Busy, Moves, Toll, CompileLoop, Restore, CheckAll, LevelAll, LeavesAll, Reaches, Step, WellFormed, Grows, LocalsOk, PrimsAgree, Extends, Rel, RecurOk, Kept, RelGlobals, Exec, After, Compile, Eval, Check, Level, Leaves, CodeAt, LoopNames, SlotsFit;
    var names := BindingNames(e.bs);
    if i == |e.bs| {
      assert names[..i] == names;
      LoopBodyCompiled(e, slots, sc, rt, pos);
      c := SimRounds(X, names, e.body, n, env, g, fuel, sc, Target(pos, slots), pos, a);
      ComesNoRecur(X, EvalRounds(X.P, names, e.body, env, g, fuel), t, fuel, n, rt, pos + |CompileBody(e.body, 0, sc, Target(pos, slots), pos).code|, a, c);
    } else {
      var x := e.bs[i].name;
      var r := Compile(e.bs[i].init, sc, rt, pos);
      var p := pos + |r.code| + 1;
      LoopCompiled(e, i, slots, sc, rt, pos, r);
      var slot := r.sc.top.nextSlot;
      var sc1 := Bind(r.sc, x);
      var rest := CompileLoop(e, i + 1, slots + [slot], sc1, rt, p);
      CodeAtSplit(X.m.code, pos, r.code + [StoreLocal(slot)], rest.code);
      CodeAtSplit(X.m.code, pos, r.code, [StoreLocal(slot)]);
      CompileGrows(e.bs[i].init, sc, rt, pos);
      BindWellFormed(r.sc, x);
      LoopGrows(e, i + 1, slots + [slot], sc1, rt, p);
      RestoredExtends(X, rest.sc, x, r.sc);
      ExtendsFrom(sc1, rest.sc, X.fin);
      BindExtends(r.sc, x, X.fin);
      GrowsSlots(sc, r.sc);
      ToBegin(X, e.bs[i].init, t, rc, env, g, sc, rt, pos, a);
      c := Sim(X, e.bs[i].init, t, rc, env, g, fuel, sc, rt, pos, a);
      var o := Eval(X.P, e.bs[i].init, env, g, fuel);
      Came(X, o, t, fuel, SlotsOf(sc), rt, pos + |r.code|, a, c);
      if o.Val? {
        ValLeaves(X.P, e.bs[i].init, env, g, fuel, false);
        var d := BindThen(X, sc, r.sc, x, env, g, a, pos, o, rt, pos + |r.code|, c);
        KeptBelow(X, n, SlotsOf(sc), a.f, d.f);
        RecurOkLater(X, rc, rt, SlotsOf(sc), pos, SlotsOf(sc1), p);
        OneMoreSlot(X, sc, r.sc, x, names, i, slots, n);
        c := SimLoop(X, e, i + 1, slots + [slot], n, t, rc, env[x := o.v], o.g, fuel, sc1, rt, p, d);
        ComesLater(X, EvalLoop(X.P, e, i + 1, env[x := o.v], o.g, fuel), t, t, fuel, n, n, rt, p + |rest.code|, a, d, c);
      } else {
        ComesElsewhere(X, o, t, fuel, SlotsOf(sc), rt, pos + |r.code|, p + |rest.code|, a, c);
        ComesBelow(X, o, t, fuel, n, SlotsOf(sc), rt, p + |rest.code|, a, c);
      }
    }
  }

  /** The rounds of a loop or fn body that recurs to the place it starts at. */
  lemma {:induction false} SimRounds(X: Site, names: seq<string>, body: seq<Form>, n: nat, env: Env, g: Env, fuel: nat,
                                     sc: Scopes, rt: Target, pos: nat, a: Config)
    returns (c: Config)
    requires sc.Inner? && Ready(X, sc, env, g, a, pos) && rt.Target? && rt.start == pos
    requires CheckAll(body, 0, InLoop(|names|, false), false) == None && LevelAll(body, 0, true, true, true, false)
    requires n <= SlotsOf(sc) && LoopNames(sc.top, names, rt.slots) && SlotsFit(X, rt.slots, n, SlotsOf(sc))
    requires Placed(X, pos, CompileBody(body, 0, sc, rt, pos))
    ensures Comes(X, EvalRounds(X.P, names, body, env, g, fuel), true, fuel, n, NoTarget, pos + |CompileBody(body, 0, sc, rt, pos).code|, a, c)
    decreases fuel, body, |body| + 1
  {
    hide Reaches, Busy, Moves, Step, WellFormed, Grows, LocalsOk, PrimsAgree, Extends, Rel, RelGlobals, Exec, Compile, Eval, Check, Level, Leaves, CodeAt, Kept, CheckAll, LevelAll, LeavesAll, LoopNames, Rebound, RecurOk, SlotsFit;
    var end := pos + |CompileBody(body, 0, sc, rt, pos).code|;
    FitRecurs(X, names, n, sc, rt, pos);
    c := SimBody(X, body, 0, true, InLoop(|names|, false), env, g, fuel, sc, rt, pos, a);
    var o := EvalBody(X.P, body, 0, env, g, fuel);
    if o.Recurs? {
      ReboundCount(X, SlotsOf(sc), rt.slots, names, sc.top, o.args, a.f.locals, c.f.locals);
      if fuel > 0 {
        var d := c;
        NextRound(X, names, n, env, g, sc, rt, a, o, d);
        c := SimRounds(X, names, body, n, BindAll(env, names, o.args, 0), o.g, fuel - 1, sc, rt, pos, d);
        FinishLater(X, n, n, a, d, EvalRounds(X.P, names, body, BindAll(env, names, o.args, 0), o.g, fuel - 1), NoTarget, end, c);
        if EvalRounds(X.P, names, body, BindAll(env, names, o.args, 0), o.g, fuel - 1).OutOfFuel? { BusyMore(X.P, a, d, fuel - 1); }
      } else {
        BusyNow(X.P, a);
      }
      RoundsNoRecur(X.P, names, body, env, g, fuel);
    } else {
      AfterBelow(X, o, a.f, n, SlotsOf(sc), rt, end, c);
    }
  }

  lemma RecurChecked(e: Form, t: bool, top: bool)
    requires e.Recur? && Level(e, t, true, top)
    ensures LevelAll(e.args, 0, t, false, true, top) && (LeavesAll(e.args, 0, top) ==> t)
  {
    hide LevelAll, LeavesAll;
  }

  lemma {:induction false} SimRecur(X: Site, e: Form, t: bool, rc: RecurCtx, env: Env, g: Env, fuel: nat,
                                    sc: Scopes, rt: Target, pos: nat, a: Config)
    returns (c: Config)
    requires e.Recur? && Begins(X, e, t, rc, env, g, sc, rt, pos, a)
    ensures Comes(X, Eval(X.P, e, env, g, fuel), t, fuel, SlotsOf(sc), rt, pos + |Compile(e, sc, rt, pos).code|, a, c)
    decreases fuel, e, 0
  {
    hide Reaches, Busy, Moves, Step, WellFormed, Grows, LocalsOk, PrimsAgree, Extends, Rel, Kept, RelGlobals, Exec, After, AfterAll, CodeAt, Compile, Eval, CompileArgs, EvalArgs, RecurOk, Check, CheckAll;
    var r := CompileArgs(e.args, 0, sc, rt, pos);
    var os := EvalArgs(X.P, e.args, 0, env, g, fuel);
    RecurTarget(X, e, sc, rt, rc, SlotsOf(sc), pos);
    RecurCompiled(e, sc, rt, pos, rc, r);
    RecurEvaluated(X.P, e, env, g, fuel);
    var n := |rt.slots|;
    var jump := JumpBack(pos + |r.code| + n + 1 - rt.start);
    StoresDownLength(rt.slots, n);
    CodeAtSplit(X.m.code, pos, r.code + StoresDown(rt.slots, n), [jump]);
    CodeAtSplit(X.m.code, pos, r.code, StoresDown(rt.slots, n));
    RecurChecked(e, t, sc.NoScope?);
    c := SimArgs(X, e.args, 0, t, rc, env, g, fuel, sc, rt, pos, a);
    if os.Vals? {
      ArgsLeave(X.P, e.args, 0, env, g, fuel, sc.NoScope?);
      EvalArgsCount(X.P, e.args, 0, env, g, fuel);
      ArgsGrow(e.args, 0, sc, rt, pos);
      ExtendsFrom(sc, r.sc, X.fin);
      c := SimRebind(X, rc, os, env, g, sc, rt, pos, pos + |r.code|, a, c);
      RecursAt(X, os, a.f, SlotsOf(sc), rt, pos + |Compile(e, sc, rt, pos).code|, c);
    } else {
      StoppedAfter(X, os, a.f, SlotsOf(sc), rt, pos + |r.code|, true, pos + |Compile(e, sc, rt, pos).code|, c);
    }
  }

  lemma CallCompiled(e: Form, sc: Scopes, rt: Target, pos: nat, r: Piece)
    requires e.Call? && r == Compile(e.head, sc, rt, pos)
    ensures var q := CompileArgs(e.args, 0, r.sc, rt, pos + |r.code|);
            Compile(e, sc, rt, pos) == Piece(r.code + q.code + [Invoke(|e.args|)], q.sc)
  {
    hide CompileArgs;
  }

  lemma CallChecked(e: Form, t: bool, rc: RecurCtx, top: bool)
    requires e.Call? && Check(e, rc, top) == None && Level(e, t, true, top)
    ensures Check(e.head, rc, top) == None && CheckAll(e.args, 0, rc, top) == None && Level(e.head, t, true, top)
    ensures Leaves(e.head, top) ==> LevelAll(e.args, 0, false, false, true, top)
  {
    hide CheckAll, LevelAll;
  }

  lemma {:induction false} SimCall(X: Site, e: Form, t: bool, rc: RecurCtx, env: Env, g: Env, fuel: nat,
                                   sc: Scopes, rt: Target, pos: nat, a: Config)
    returns (c: Config)
    requires e.Call? && Begins(X, e, t, rc, env, g, sc, rt, pos, a)
    ensures Comes(X, Eval(X.P, e, env, g, fuel), t, fuel, SlotsOf(sc), rt, pos + |Compile(e, sc, rt, pos).code|, a, c)
    decreases fuel, e, 0
  {
    hide Reaches, Busy, Moves, Step, WellFormed, Grows, LocalsOk, PrimsAgree, Extends, Rel, RecurOk, Kept, RelGlobals, Exec, After, AfterAll, Eval, EvalArgs,
      CheckAll, LevelAll, LeavesAll, CodeAt, Compile, CompileArgs, Check, Level, Leaves;
    var r := Compile(e.head, sc, rt, pos);
    var p := pos + |r.code|;
    var q := CompileArgs(e.args, 0, r.sc, rt, p);
    CallCompiled(e, sc, rt, pos, r);
    CallChecked(e, t, rc, sc.NoScope?);
    CodeAtSplit(X.m.code, pos, r.code + q.code, [Invoke(|e.args|)]);
    CodeAtSplit(X.m.code, pos, r.code, q.code);
    CompileGrows(e.head, sc, rt, pos);
    ArgsGrow(e.args, 0, r.sc, rt, p);
    ExtendsFrom(r.sc, q.sc, X.fin);
    GrowsSlots(sc, r.sc);
    CallEvaluated(X.P, e, env, g, fuel);
    var b := Sim(X, e.head, t, rc, env, g, fuel, sc, rt, pos, a);
    var o := Eval(X.P, e.head, env, g, fuel);
    if o.Val? {
      PushReady(X, sc, r.sc, env, g, a, pos, o, rt, p, b);
      RecurOkLater(X, rc, rt, SlotsOf(sc), pos, SlotsOf(r.sc), p);
      ValLeaves(X.P, e.head, env, g, fuel, sc.NoScope?);
      c := SimArgs(X, e.args, 0, false, rc, env, o.g, fuel, r.sc, rt, p, b);
      ReachesTrans(X.P, a, b, c);
      if EvalArgs(X.P, e.args, 0, env, o.g, fuel).Stopped? { TollLater(X.P, a, b, EvalArgs(X.P, e.args, 0, env, o.g, fuel).o, fuel, c); }
      c := SimApply(X, e, env, o, fuel, a, SlotsOf(sc), rt, p, b, SlotsOf(r.sc), p + |q.code|, c);
    } else {
      c := b;
      AfterElsewhere(X, o, a.f, SlotsOf(sc), rt, p, rt, p + |q.code| + 1, c);
    }
  }

  /** The call itself, from `c0`: callee and arguments on the stack. */
  lemma {:induction false} SimApply(X: Site, e: Form, env: Env, o: Outcome, fuel: nat, a: Config, n: nat, rt: Target, p: nat,
                                    b: Config, n1: nat, q: nat, c0: Config)
    returns (c: Config)
    requires e.Call? && a.Run? && a.f.m == X.m && PrimsAgree(X.P) && n <= n1 && o.Val?
    requires After(X, o, a.f, n, rt, p, b) && Reaches(X.P, a, c0)
    requires var os := EvalArgs(X.P, e.args, 0, env, o.g, fuel);
             && AfterAll(X, os, b.f, n1, rt, q, true, c0)
             && (os.Stopped? ==> Toll(X.P, a, os.o, fuel, c0) && !os.o.Recurs?)
    requires CodeAt(X.m.code, q, [Invoke(|e.args|)])
    ensures var os := EvalArgs(X.P, e.args, 0, env, o.g, fuel);
            var o1 := if os.Stopped? then os.o else EvalApply(X.P, o.v, os.vs, os.g, fuel);
            Reaches(X.P, a, c) && After(X, o1, a.f, n, rt, q + 1, c) && !o1.Recurs? && Toll(X.P, a, o1, fuel, c)
    decreases fuel, e, 0, 0
  {
    hide PrimsAgree, Rel, Kept, RelGlobals, Exec, After, AfterAll, EvalArgs, CodeAt, EvalApply, Dispatch, Step, Reaches, Busy, Moves, Returned;
    var os := EvalArgs(X.P, e.args, 0, env, o.g, fuel);
    ValKept(X, o, a.f, n, rt, p, b);
    if os.Vals? {
      EvalArgsCount(X.P, e.args, 0, env, o.g, fuel);
      var h, ws := CalleeOnTop(X, o, os, a.f, n, rt, p, b, n1, q, c0);
      var base := c0.f.(stack := a.f.stack);
      ThenMoves(X, a, c0, Invoke(|ws|));
      c := Then(X, a, c0, Invoke(|ws|));
      InvokeStep(X.P, c0, |ws|);
      if !o.v.Closure? {
        InvokePrim(X, o.v, h, os.vs, ws, os.g, a.f.stack, n, rt, c0);
        ApplyAnyFuel(X.P, o.v, os.vs, os.g, fuel);
      } else {
        var outer := ClosureOf(o.v, h);
        if |o.v.params| != |os.vs| || |os.vs| > MAX_BOUND_PARAMETERS {
          InvokeRefused(X, o.v, h, os.vs, ws, os.g, fuel, a.f.stack, n, rt, c0);
        } else if fuel > 0 {
          var f2 := base.(ip := q + 1);
          var d := c;
          c := SimEnter(X.P, o.v, h, outer, os.vs, ws, os.g, fuel, a.f.stack, c0, d);
          ReachesTrans(X.P, a, d, c);
          if EvalApply(X.P, o.v, os.vs, os.g, fuel).OutOfFuel? { BusyMore(X.P, a, d, fuel - 1); }
          ReturnedAfter(X, EvalApply(X.P, o.v, os.vs, os.g, fuel), base, n, rt, q + 1, c);
        } else {
          BusyNow(X.P, a);
          ApplyOutOfFuel(X, o.v, os.vs, os.g, base, n, rt, q + 1, c);
        }
      }
      AfterChain(X, EvalApply(X.P, o.v, os.vs, os.g, fuel), n, a.f, n, base, rt, q + 1, c);
      ApplyRunsOut(X.P, o.v, os.vs, os.g, fuel);
      ApplyNoRecur(X.P, o.v, os.vs, os.g, fuel);
    } else {
      c := c0;
      StoppedAfter(X, os, b.f, n1, rt, q, true, q + 1, c);
      AfterChain(X, os.o, n, a.f, n1, b.f, rt, q + 1, c);
    }
  }

  /** The body of a closure, run in the frame CALL makes for it. */
  lemma {:induction false} SimEnter(P: Prims, f: Value, h: VmValue, outer: Scopes, vs: seq<Value>, ws: seq<VmValue>, g: Env,
                                    fuel: nat, base: seq<VmValue>, b: Config, d: Config)
    returns (c: Config)
    requires PrimsAgree(P) && f.Closure? && h.VFn? && RelAll(vs, ws) && b.Run? && RelGlobals(g, b.g)
    requires CompiledFrom(f.params, f.body, f.env.Keys, outer, h.m) && |h.caps| == |h.m.captures|
    requires forall j | 0 <= j < |h.caps| :: h.m.captures[j].name in f.env && Rel(f.env[h.m.captures[j].name], h.caps[j])
    requires |vs| == |f.params| == h.m.arity <= MAX_BOUND_PARAMETERS && fuel > 0
    requires b.Run? && b.f.stack == base + [h] + ws && d == Dispatch(P, |ws|, b.f, b.k, b.g)
    ensures Reaches(P, d, c) && Returned(EvalApply(P, f, vs, g, fuel), b.f.(stack := base, ip := b.f.ip + 1), b.k, c)
    ensures EvalApply(P, f, vs, g, fuel).OutOfFuel? ==> Busy(P, d, fuel - 1)
    decreases fuel - 1, f.body, |f.body| + 2
  {
    hide WellFormed, Grows, PrimsAgree, Rel, RelAll, RelGlobals, LocalsOk, CodeAt, Dispatch, Step, Reaches, Busy, Moves, CheckAll, LevelAll, LeavesAll,
      BodyScopes, NewFrame, After, CompiledFrom, LoopNames, SlotsFit, Extends, Returned, BindAll, EvalRounds, CompileBody, CompileFn;
    var f2 := b.f.(stack := base, ip := b.f.ip + 1);
    var X := Site(P, h.m, Caller(f2, b.k), f.env, CompileFn(f.params, f.body, outer).sc.top);
    var sc := Inner(ParamScope(f.params), outer);
    var slots := Upto(|f.params|);
    BodyPlaced(X, f.params, f.body, outer, f.env.Keys);
    var r := CompileBody(f.body, 0, sc, Target(0, slots), 0);
    CompiledNames(f.params, f.body, f.env, outer, h.m);
    RelAllCount(vs, ws);
    EnteredSlots(X, f.params, outer, sc, r, h);
    InvokeEnters(P, h, ws, base, b);
    CalleeReady(X, f.params, outer, sc, r, g, vs, ws, h.caps, d);
    FreshFrame(h.m, ws, h.caps);
    var c0 := SimRounds(X, f.params, f.body, 0, BindAll(f.env, f.params, vs, 0), g, fuel - 1, sc, Target(0, slots), 0, d);
    c := FrameEnds(X, EvalApply(P, f, vs, g, fuel), d, f2, b.k, 0, |r.code|, c0);
  }

  lemma {:induction false} SimTry(X: Site, e: Form, t: bool, rc: RecurCtx, env: Env, g: Env, fuel: nat,
                                  sc: Scopes, pos: nat, a: Config)
    returns (c: Config)
    requires e.Try? && sc.Inner? && Ready(X, sc, env, g, a, pos)
    requires Check(e, rc, false) == None && Level(e, t, true, false)
    requires Placed(X, pos, Compile(e, sc, NoTarget, pos))
    ensures Comes(X, Eval(X.P, e, env, g, fuel), true, fuel, SlotsOf(sc), NoTarget, pos + |Compile(e, sc, NoTarget, pos).code|, a, c)
    decreases fuel, e, 0
  {
    hide Reaches, Busy, Moves, WellFormed, LocalsOk, PrimsAgree, RelGlobals, CodeAt, After, Eval, EvalCaught, EvalFinally, Check,
      CheckAll, LevelAll, LeavesAll, CheckClauses, LevelClauses, CompileCatches, CompileEffects, Extends, Grows;
    TryChecked(e, rc, t);
    TryEvaluated(X.P, e, env, g, fuel);
    if e.fin.NoFinally? {
      c := SimCatches(X, e, rc, env, g, fuel, sc, pos, a);
    } else {
      var t := CompileCatches(e, sc, pos + 1);
      var n := CompileEffects(e.fin.forms, 0, t.sc, pos + 1 + |t.code| + 1);
      TryCompiled(e, sc, pos, t, n);
      c := SimFinally(X, e, rc, env, g, fuel, sc, pos, a, t, n);
    }
  }

  /** A body under its catch clauses. */
  lemma {:induction false} SimCatches(X: Site, e: Form, rc: RecurCtx, env: Env, g: Env, fuel: nat,
                                      sc: Scopes, pos: nat, a: Config)
    returns (c: Config)
    requires e.Try? && sc.Inner? && Ready(X, sc, env, g, a, pos)
    requires CheckAll(e.body, 0, IntoTry(rc), false) == None && LevelAll(e.body, 0, false, false, true, false)
    requires CheckClauses(e.catches, 0, IntoTry(rc)) == None && LevelClauses(e.catches, 0, true)
    requires Placed(X, pos, CompileCatches(e, sc, pos))
    ensures Comes(X, EvalCaught(X.P, e, env, g, fuel), false, fuel, SlotsOf(sc), NoTarget, pos + |CompileCatches(e, sc, pos).code|, a, c)
    decreases fuel, e, 0, 0
  {
    hide Reaches, Busy, Moves, WellFormed, LocalsOk, PrimsAgree, RelGlobals, CodeAt, After, EvalBody, EvalCatch, Kept, Holding,
      CheckAll, LevelAll, LeavesAll, CheckClauses, LevelClauses, CompileBody, CompileClauses, Extends, Grows, NotCapture, RecurOk, IntoTry;
    var o := EvalBody(X.P, e.body, 0, env, g, fuel);
    if |e.catches| == 0 {
      TryRecurs(X, rc, SlotsOf(sc), pos);
      c := SimBody(X, e.body, 0, false, IntoTry(rc), env, g, fuel, sc, NoTarget, pos, a);
      NothingCaught(X.P, e, env, g, fuel);
      return;
    }
    var b := CompileBody(e.body, 0, sc, NoTarget, pos + 1);
    CatchesCompiled(e, sc, pos, b);
    var slot := b.sc.top.nextSlot;
    var at := pos + 1 + |b.code| + 3;
    var r := CompileClauses(e.catches, 0, slot, Reserve(b.sc), at);
    CatchCode(X.m.code, pos, TryBegin(|b.code| + 2), b.code, TryEnd, Jump(|r.code| + 2), StoreCaught(slot), r.code, Rethrow(slot));
    BodyGrows(e.body, 0, sc, NoTarget, pos + 1);
    ReserveGrows(b.sc);
    ClausesGrow(e.catches, 0, slot, Reserve(b.sc), at);
    ExtendsFrom(Reserve(b.sc), r.sc, X.fin);
    ExtendsFrom(b.sc, Reserve(b.sc), X.fin);
    var d := Guard(X, sc, env, g, a, pos, |b.code| + 2);
    TryRecurs(X, rc, SlotsOf(sc), pos + 1);
    c := SimBody(X, e.body, 0, false, IntoTry(rc), env, g, fuel, sc, NoTarget, pos + 1, d);
    TollLater(X.P, a, d, o, fuel, c);
    ReachesTrans(X.P, a, d, c);
    if o.Val? {
      c := Unguard(X, a, Handler(pos + 1 + |b.code| + 2, |a.f.stack|), d, o, SlotsOf(sc), NoTarget, pos + 1 + |b.code|, c);
      c := JumpThen(X, a, o, SlotsOf(sc), NoTarget, pos + 1 + |b.code| + 1, |r.code| + 2, c);
    } else if o.Throws? {
      CatchSlot(X, sc, b.sc, Reserve(b.sc).top);
      FrameSize(X, sc, env, a.f.locals);
      var h := Take(X, a, at - 1, d, o, SlotsOf(sc), NoTarget, pos + 1 + |b.code|, slot, c);
      TakenReady(X, sc, b.sc, env, g, a, pos, o.g, h, at);
      c := SimClauses(X, e.catches, 0, o.x, slot, rc, env, o.g, fuel, Reserve(b.sc), at, h);
      GrowsTrans(sc, b.sc, Reserve(b.sc));
      Finish(X, sc, Reserve(b.sc), a, h, EvalCatch(X.P, e.catches, 0, o.x, env, o.g, fuel), NoTarget, at + |r.code| + 1, c);
      TollLater(X.P, a, h, EvalCatch(X.P, e.catches, 0, o.x, env, o.g, fuel), fuel, c);
    } else {
      StillOutOfFuel(X, o, a.f, SlotsOf(sc), NoTarget, at + |r.code| + 1, c);
    }
  }

  /** The clauses from the `i`-th on, for the exception in `slot`. */
  lemma {:induction false} SimClauses(X: Site, cs: seq<Clause>, i: nat, x: Exn<Value>, slot: nat, rc: RecurCtx, env: Env, g: Env,
                                      fuel: nat, sc: Scopes, pos: nat, a: Config)
    returns (c: Config)
    requires i <= |cs| && |cs| > 0 && sc.Inner? && Ready(X, sc, env, g, a, pos)
    requires CheckClauses(cs, i, IntoTry(rc)) == None && LevelClauses(cs, i, true)
    requires slot < sc.top.nextSlot && Unnamed(slot, sc.top) && NotCapture(slot, X.fin) && Holding(X.P, x, slot, a.f)
    requires Placed(X, pos, CompileClauses(cs, i, slot, sc, pos))
    requires CodeAt(X.m.code, pos + |CompileClauses(cs, i, slot, sc, pos).code|, [Rethrow(slot)])
    ensures Comes(X, EvalCatch(X.P, cs, i, x, env, g, fuel), false, fuel, SlotsOf(sc), NoTarget, pos + |CompileClauses(cs, i, slot, sc, pos).code| + 1, a, c)
    decreases fuel, cs, |cs| - i
  {
    hide Reaches, Busy, Moves, WellFormed, LocalsOk, PrimsAgree, RelGlobals, CodeAt, After, EvalBody, Kept, Holding, Unnamed,
      CheckAll, LevelAll, LeavesAll, CheckClauses, LevelClauses, CompileBody, Extends, Grows, NotCapture, RecurOk, Restore, CompileClauses, IntoTry;
    if i == |cs| {
      ReachesSelf(X.P, a);
      KeptSelf(X, SlotsOf(sc), a.f);
      NoClauses(cs, slot, sc, pos);
      c := Again(X, x, slot, g, a.f, SlotsOf(sc), NoTarget, pos + 1, a, a);
    } else {
      var al := Alias(sc, cs[i].name, slot);
      var b := CompileBody(cs[i].body, 0, al, NoTarget, pos + 3);
      var sc1 := Restore(b.sc, cs[i].name, sc);
      var p := pos + 3 + |b.code| + 1;
      ClausesCompiled(cs, i, slot, sc, pos, b);
      ClausesChecked(cs, i, IntoTry(rc));
      var rest := CompileClauses(cs, i + 1, slot, sc1, p);
      ClauseCode(X.m.code, pos, PushLocal(slot), ExcMatch(cs[i].classId), JumpIfFalse(|b.code| + 1), b.code, Jump(|rest.code| + 1), rest.code);
      AliasWellFormed(sc, cs[i].name, slot);
      BodyGrows(cs[i].body, 0, al, NoTarget, pos + 3);
      ClauseScope(sc, cs[i].name, slot, b.sc);
      ClausesGrow(cs, i + 1, slot, sc1, p);
      ExtendsFrom(sc1, rest.sc, X.fin);
      RestoredExtends(X, b.sc, cs[i].name, sc);
      var d := ClassTest(X, x, slot, cs[i].classId, |b.code| + 1, a);
      if X.P.matches(CaughtValue(X.P, x), cs[i].classId) {
        ClauseReady(X, sc, env, g, a, pos, x, slot, cs[i].name);
        TryRecurs(X, rc, SlotsOf(al), pos + 3);
        var env1 := env[cs[i].name := CaughtValue(X.P, x)];
        var o := EvalBody(X.P, cs[i].body, 0, env1, g, fuel);
        c := SimBody(X, cs[i].body, 0, false, IntoTry(rc), env1, g, fuel, al, NoTarget, pos + 3, d);
        AfterSame(X, o, a.f, d.f, SlotsOf(sc), NoTarget, pos + 3 + |b.code|, c);
        ReachesTrans(X.P, a, d, c);
        TollLater(X.P, a, d, o, fuel, c);
        c := JumpThen(X, a, o, SlotsOf(sc), NoTarget, pos + 3 + |b.code|, |rest.code| + 1, c);
      } else {
        ReadyAt(X, sc, env, g, a, pos, d, p);
        KeptSelf(X, SlotsOf(sc), d.f);
        Resume(X, sc, sc1, env, g, d, p, g, d, p);
        HoldingAt(X.P, x, slot, a.f, d.f);
        GrowsSlots(sc, sc1);
        c := SimClauses(X, cs, i + 1, x, slot, rc, env, g, fuel, sc1, p, d);
        ReachesTrans(X.P, a, d, c);
        var o := EvalCatch(X.P, cs, i + 1, x, env, g, fuel);
        TollLater(X.P, a, d, o, fuel, c);
        AfterSame(X, o, a.f, d.f, SlotsOf(sc1), NoTarget, p + |rest.code| + 1, c);
        AfterBelow(X, o, a.f, SlotsOf(sc), SlotsOf(sc1), NoTarget, p + |rest.code| + 1, c);
      }
    }
  }

  /** `finally`: its forms once on each way out of the guarded code. */
  lemma {:induction false} SimFinally(X: Site, e: Form, rc: RecurCtx, env: Env, g: Env, fuel: nat,
                                      sc: Scopes, pos: nat, a: Config, t: Piece, n: Piece)
    returns (c: Config)
    requires e.Try? && e.fin.Finally? && sc.Inner? && Ready(X, sc, env, g, a, pos)
    requires CheckAll(e.body, 0, IntoTry(rc), false) == None && LevelAll(e.body, 0, false, false, true, false)
    requires CheckClauses(e.catches, 0, IntoTry(rc)) == None && LevelClauses(e.catches, 0, true)
    requires CheckAll(e.fin.forms, 0, IntoTry(rc), false) == None && LevelAll(e.fin.forms, 0, false, false, true, false)
    requires t == CompileCatches(e, sc, pos + 1) && n == CompileEffects(e.fin.forms, 0, t.sc, pos + 1 + |t.code| + 1)
    requires n.sc.Inner?
    requires var x := CompileEffects(e.fin.forms, 0, Reserve(n.sc), pos + 1 + |t.code| + 1 + |n.code| + 2);
             && CodeAt(X.m.code, pos, [TryBegin(|t.code| + 1 + |n.code| + 1)] + t.code + [TryEnd] + n.code + [Jump(|x.code| + 2)] +
                       [StoreCaught(n.sc.top.nextSlot)] + x.code + [Rethrow(n.sc.top.nextSlot)])
             && (x.sc.Inner? ==> Extends(x.sc.top, X.fin))
    ensures var at := pos + 1 + |t.code| + 1 + |n.code| + 2;
            var x := CompileEffects(e.fin.forms, 0, Reserve(n.sc), at);
            Comes(X, EvalFinally(X.P, e.fin.forms, EvalCaught(X.P, e, env, g, fuel), env, fuel), true, fuel, SlotsOf(sc), NoTarget,
                  at + |x.code| + 1, a, c)
    decreases fuel, e, 0, 1
  {
    hide Reaches, Busy, Moves, WellFormed, LocalsOk, PrimsAgree, RelGlobals, CodeAt, After, AfterAll, EvalCaught, EvalArgs, Kept, Holding,
      CheckAll, LevelAll, LeavesAll, CheckClauses, LevelClauses, CompileCatches, CompileEffects, Extends, Grows, NotCapture, RecurOk, IntoTry;
    var forms, slot := e.fin.forms, n.sc.top.nextSlot;
    var pn := pos + 1 + |t.code| + 1;
    var at := pn + |n.code| + 2;
    var x := CompileEffects(forms, 0, Reserve(n.sc), at);
    FinallyCode(X.m.code, pos, TryBegin(|t.code| + 1 + |n.code| + 1), t.code, TryEnd, n.code, Jump(|x.code| + 2),
                StoreCaught(slot), x.code, Rethrow(slot));
    CatchesGrow(e, sc, pos + 1);
    EffectsGrow(forms, 0, t.sc, pn);
    ReserveGrows(n.sc);
    EffectsGrow(forms, 0, Reserve(n.sc), at);
    ExtendsFrom(Reserve(n.sc), x.sc, X.fin);
    ExtendsFrom(n.sc, Reserve(n.sc), X.fin);
    ExtendsFrom(t.sc, n.sc, X.fin);
    GrowsTrans(sc, t.sc, n.sc);
    var d := Guard(X, sc, env, g, a, pos, |t.code| + 1 + |n.code| + 1);
    c := SimCatches(X, e, rc, env, g, fuel, sc, pos + 1, d);
    ReachesTrans(X.P, a, d, c);
    var o := EvalCaught(X.P, e, env, g, fuel);
    TollLater(X.P, a, d, o, fuel, c);
    if o.Val? {
      c := Unguard(X, a, Handler(at - 1, |a.f.stack|), d, o, SlotsOf(sc), NoTarget, pos + 1 + |t.code|, c);
      c := SimNormalExit(X, e, rc, env, g, o, fuel, sc, t, n, pos, a, at + |x.code| + 1, c);
    } else if o.Throws? {
      CatchSlot(X, sc, n.sc, Reserve(n.sc).top);
      FrameSize(X, sc, env, a.f.locals);
      var h := Take(X, a, at - 1, d, o, SlotsOf(sc), NoTarget, pos + 1 + |t.code|, slot, c);
      TakenReady(X, sc, n.sc, env, g, a, pos, o.g, h, at);
      GrowsTrans(sc, n.sc, Reserve(n.sc));
      c := SimRaisingExit(X, e, rc, env, o, fuel, sc, n.sc, at, a, h);
    } else {
      StillOutOfFuel(X, o, a.f, SlotsOf(sc), NoTarget, at + |x.code| + 1, c);
    }
  }

  /** The finally forms under the value of the guarded code. */
  lemma {:induction false} SimNormalExit(X: Site, e: Form, rc: RecurCtx, env: Env, g: Env, o: Outcome, fuel: nat,
                                         sc: Scopes, t: Piece, n: Piece, pos: nat, a: Config, end: nat, b: Config)
    returns (c: Config)
    requires e.Try? && e.fin.Finally? && o.Val? && Ready(X, sc, env, g, a, pos) && sc.Inner?
    requires CheckAll(e.fin.forms, 0, IntoTry(rc), false) == None && LevelAll(e.fin.forms, 0, false, false, true, false)
    requires WellFormed(t.sc) && Grows(sc, t.sc) && (t.sc.Inner? ==> Extends(t.sc.top, X.fin))
    requires n == CompileEffects(e.fin.forms, 0, t.sc, pos + 1 + |t.code| + 1) && Placed(X, pos + 1 + |t.code| + 1, n)
    requires Reaches(X.P, a, b) && After(X, o, a.f, SlotsOf(sc), NoTarget, pos + 1 + |t.code| + 1, b)
    requires var p := pos + 1 + |t.code| + 1 + |n.code|; end >= p + 1 && CodeAt(X.m.code, p, [Jump(end - p - 1)])
    ensures Comes(X, EvalFinally(X.P, e.fin.forms, o, env, fuel), true, fuel, SlotsOf(sc), NoTarget, end, a, c)
    decreases fuel, e, 0, 0
  {
    hide Reaches, Busy, Moves, WellFormed, LocalsOk, PrimsAgree, RelGlobals, CodeAt, After, AfterAll, EvalArgs, Kept,
      CheckAll, CompileEffects, Extends, Grows, RecurOk, IntoTry;
    var p := pos + 1 + |t.code| + 1;
    PushReady(X, sc, t.sc, env, g, a, pos, o, NoTarget, p, b);
    TryRecurs(X, rc, SlotsOf(t.sc), p);
    GrowsSlots(sc, t.sc);
    c := SimEffects(X, e.fin.forms, 0, IntoTry(rc), env, o.g, fuel, t.sc, p, b);
    ReachesTrans(X.P, a, b, c);
    var os := EvalArgs(X.P, e.fin.forms, 0, env, o.g, fuel);
    if os.Vals? {
      FinallyRan(X, o, os, a.f, SlotsOf(sc), NoTarget, p, b, SlotsOf(t.sc), p + |n.code|, end - p - |n.code| - 1, c);
      c := JumpThen(X, a, Val(o.v, os.g), SlotsOf(sc), NoTarget, p + |n.code|, end - p - |n.code| - 1, c);
    } else {
      TollLater(X.P, a, b, os.o, fuel, c);
      StoppedAfter(X, os, b.f, SlotsOf(t.sc), NoTarget, p + |n.code|, false, end, c);
      ValKept(X, o, a.f, SlotsOf(sc), NoTarget, p, b);
      AfterChain(X, os.o, SlotsOf(sc), a.f, SlotsOf(t.sc), b.f, NoTarget, end, c);
    }
  }

  /** The finally forms on the exception path, and the exception again. */
  lemma {:induction false} SimRaisingExit(X: Site, e: Form, rc: RecurCtx, env: Env, o: Outcome, fuel: nat,
                                          sc: Scopes, sc1: Scopes, at: nat, a: Config, b: Config)
    returns (c: Config)
    requires e.Try? && e.fin.Finally? && o.Throws? && sc.Inner? && sc1.Inner? && a.Run? && a.f.m == X.m
    requires CheckAll(e.fin.forms, 0, IntoTry(rc), false) == None && LevelAll(e.fin.forms, 0, false, false, true, false)
    requires Grows(sc, Reserve(sc1)) && Ready(X, Reserve(sc1), env, o.g, b, at)
    requires Reaches(X.P, a, b) && Kept(X, SlotsOf(sc), a.f, b.f) && b.f.stack == a.f.stack
    requires Holding(X.P, o.x, sc1.top.nextSlot, b.f)
    requires Placed(X, at, CompileEffects(e.fin.forms, 0, Reserve(sc1), at))
    requires CodeAt(X.m.code, at + |CompileEffects(e.fin.forms, 0, Reserve(sc1), at).code|, [Rethrow(sc1.top.nextSlot)])
    ensures Comes(X, EvalFinally(X.P, e.fin.forms, o, env, fuel), true, fuel, SlotsOf(sc), NoTarget, at + |CompileEffects(e.fin.forms, 0, Reserve(sc1), at).code| + 1, a, c)
    decreases fuel, e, 0, 0
  {
    hide Reaches, Busy, Moves, WellFormed, LocalsOk, PrimsAgree, RelGlobals, CodeAt, After, AfterAll, EvalArgs, Kept, Holding,
      CheckAll, CompileEffects, Extends, Grows, RecurOk, IntoTry;
    var slot, scx := sc1.top.nextSlot, Reserve(sc1);
    var x := CompileEffects(e.fin.forms, 0, scx, at);
    TryRecurs(X, rc, SlotsOf(scx), at);
    GrowsSlots(sc, scx);
    c := SimEffects(X, e.fin.forms, 0, IntoTry(rc), env, o.g, fuel, scx, at, b);
    ReachesTrans(X.P, a, b, c);
    var os := EvalArgs(X.P, e.fin.forms, 0, env, o.g, fuel);
    if os.Vals? {
      EffectsState(X, os, b.f, SlotsOf(scx), at + |x.code|, c);
      HoldingKept(X, o.x, slot, SlotsOf(scx), b.f, c.f);
      KeptTrans(X, SlotsOf(sc), SlotsOf(scx), a.f, b.f, c.f);
      KeptModule(X, SlotsOf(sc), a.f, c.f);
      c := Again(X, o.x, slot, os.g, a.f, SlotsOf(sc), NoTarget, at + |x.code| + 1, a, c);
    } else {
      TollLater(X.P, a, b, os.o, fuel, c);
      StoppedAfter(X, os, b.f, SlotsOf(scx), NoTarget, at + |x.code|, false, at + |x.code| + 1, c);
      AfterChain(X, os.o, SlotsOf(sc), a.f, SlotsOf(scx), b.f, NoTarget, at + |x.code| + 1, c);
    }
  }
}
