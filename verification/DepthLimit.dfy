/** Compiled code whose bodies have stack bounds has no `recur` with operands
    pending that is reached: the condition of CompiledDepth is exact. */
module DepthLimit {
  import opened Options
  import opened Syntax
  import opened Bytecode
  import opened Codegen
  import opened StackDepth
  import opened Placement
  import opened Lifting
  import opened CompiledDepth

  /** The analysis of `m`, and of every body in it, has a bound. */
  ghost predicate Bounded(m: Module) {
    && (exists D :: Consistent(m.code, D))
    && (forall i | 0 <= i < |m.code| && m.code[i].MakeFn? :: Bounded(m.code[i].body))
  }

  /** Code with consistent depths `D`, its inner bodies bounded. */
  ghost predicate Deep(A: seq<Instr>, D: seq<int>) {
    Consistent(A, D) && forall i | 0 <= i < |A| && A[i].MakeFn? :: Bounded(A[i].body)
  }

  lemma Along(A: seq<Instr>, D: seq<int>, i: nat, k: nat)
    requires Deep(A, D) && i < |A| && |D| == |A| && D[i] >= 0 && k < |Edges(A, i, D[i])|
    ensures var e := Edges(A, i, D[i])[k]; e.to < |A| && e.depth >= 0 ==> D[e.to] >= e.depth
  {
    assert Kept(A, D, i);
    assert Covered(D, Edges(A, i, D[i])[k]);
  }

  lemma Sized(A: seq<Instr>, D: seq<int>)
    requires Deep(A, D)
    ensures |D| == |A|
  {
  }

  /** `i` at `p`, which goes on to the next instruction. */
  lemma Next(A: seq<Instr>, D: seq<int>, p: nat, i: Instr, d1: int)
    requires Deep(A, D) && CodeAt(A, p, [i]) && p + 1 < |A| == |D| && D[p] >= 0 && GoesTo(i, D[p], d1) && Edges([i], 0, D[p]) != []
    requires !i.JumpBack?
    ensures D[p + 1] >= d1
  {
    CodeAtOne(A, p, i);
    var e := Edges([i], 0, D[p])[0];
    assert Edges(A, p, D[p]) == [Edge(p + 1, d1)];
    Along(A, D, p, 0);
  }

  /** What is known of the depth where a form's code starts, if it is reached:
      at least that of the recur target, more if `t` does not hold. */
  ghost predicate Over(A: seq<Instr>, D: seq<int>, rc: RecurCtx, rt: Target, pos: nat, t: bool, live: bool) {
    && |D| == |A| && Reachable(rc, rt, pos)
    && (live ==>
          && pos < |A| && D[pos] >= 0
          && (rc.InLoop? && !rc.acrossTry ==> D[rt.start] >= 0 && D[pos] >= D[rt.start] + (if t then 0 else 1)))
  }

  lemma OverLater(A: seq<Instr>, D: seq<int>, rc: RecurCtx, rt: Target, pos: nat, t: bool, live: bool, pos1: nat, t1: bool, live1: bool)
    requires Over(A, D, rc, rt, pos, t, live) && pos <= pos1 < |A| && (live1 ==> live && D[pos1] >= D[pos] + (if t && !t1 then 1 else 0))
    ensures Over(A, D, rc, rt, pos1, t1, live1)
  {
  }

  lemma OverTry(A: seq<Instr>, D: seq<int>, rc: RecurCtx, pos: nat, live: bool)
    requires |D| == |A| && (live ==> pos < |A| && D[pos] >= 0)
    ensures Over(A, D, IntoTry(rc), NoTarget, pos, false, live)
  {
  }

  /** Left at its end, a form has pushed one value. */
  ghost predicate Risen(D: seq<int>, pos: nat, end: nat, n: int, left: bool) {
    left ==> pos < |D| && end < |D| && D[end] >= D[pos] + n
  }

  lemma {:induction false} LevelForm(A: seq<Instr>, D: seq<int>, e: Form, t: bool, live: bool, rc: RecurCtx, sc: Scopes, rt: Target, pos: nat)
    requires Deep(A, D) && Check(e, rc, sc.NoScope?) == None && (sc.NoScope? ==> Lifted(e)) && Over(A, D, rc, rt, pos, t, live)
    requires CodeAt(A, pos, Compile(e, sc, rt, pos).code) && pos + |Compile(e, sc, rt, pos).code| < |A|
    ensures Level(e, t, live, sc.NoScope?)
    ensures Risen(D, pos, pos + |Compile(e, sc, rt, pos).code|, 1, live && Leaves(e, sc.NoScope?))
    decreases e, 2
  {
    hide Deep, Compile, Check, Over, Risen, CodeAt, Leaves, Level;
    match e
    case Def(_, _) => LevelThen(A, D, e, t, live, rc, sc, rt, pos);
    case Throw(_) => LevelThen(A, D, e, t, live, rc, sc, rt, pos);
    case If(_, _, _) => LevelIf(A, D, e, t, live, rc, sc, rt, pos);
    case Do(_) => LevelSequence(A, D, e, t, live, rc, sc, rt, pos);
    case And(_) => LevelSequence(A, D, e, t, live, rc, sc, rt, pos);
    case Or(_) => LevelSequence(A, D, e, t, live, rc, sc, rt, pos);
    case Let(_, _) => LevelScoped(A, D, e, t, live, rc, sc, rt, pos);
    case Loop(_, _) => LevelScoped(A, D, e, t, live, rc, sc, rt, pos);
    case Try(_, _, _) => LevelTry(A, D, e, t, live, rc, sc, rt, pos);
    case Recur(_) => LevelRecur(A, D, e, t, live, rc, sc, rt, pos);
    case Fn(_, _) => LevelFn(A, D, e, t, live, rc, sc, rt, pos);
    case Call(_, _) => LevelCall(A, D, e, t, live, rc, sc, rt, pos);
    case _ => LevelLeaf(A, D, e, t, live, rc, sc, rt, pos);
  }

  lemma LevelLeaf(A: seq<Instr>, D: seq<int>, e: Form, t: bool, live: bool, rc: RecurCtx, sc: Scopes, rt: Target, pos: nat)
    requires e.Lit? || e.Quote? || e.Sym? || e.Global?
    requires Deep(A, D) && Over(A, D, rc, rt, pos, t, live)
    requires CodeAt(A, pos, Compile(e, sc, rt, pos).code) && pos + |Compile(e, sc, rt, pos).code| < |A|
    ensures Level(e, t, live, sc.NoScope?)
    ensures Risen(D, pos, pos + |Compile(e, sc, rt, pos).code|, 1, live && Leaves(e, sc.NoScope?))
  {
    hide Deep, CodeAt, Resolve;
    var c := Compile(e, sc, rt, pos).code;
    assert |c| == 1 && c == [c[0]];
    if live { Next(A, D, pos, c[0], D[pos] + 1); }
  }

  lemma {:induction false} LevelThen(A: seq<Instr>, D: seq<int>, e: Form, t: bool, live: bool, rc: RecurCtx, sc: Scopes, rt: Target, pos: nat)
    requires e.Def? || e.Throw?
    requires Deep(A, D) && Check(e, rc, sc.NoScope?) == None && (sc.NoScope? ==> Lifted(e)) && Over(A, D, rc, rt, pos, t, live)
    requires CodeAt(A, pos, Compile(e, sc, rt, pos).code) && pos + |Compile(e, sc, rt, pos).code| < |A|
    ensures Level(e, t, live, sc.NoScope?)
    ensures Risen(D, pos, pos + |Compile(e, sc, rt, pos).code|, 1, live && Leaves(e, sc.NoScope?))
    decreases e, 0
  {
    hide Deep, CodeAt, Over;
    var x := if e.Def? then e.init else e.e;
    var c := Compile(x, sc, rt, pos).code;
    var i := if e.Def? then StoreGlobal(e.name) else Raise;
    CodeAtSplit(A, pos, c, [i]);
    LevelForm(A, D, x, t, live, rc, sc, rt, pos);
    OverSize(A, D, rc, rt, pos, t, live);
    if e.Def? && live && Leaves(x, sc.NoScope?) { Next(A, D, pos + |c|, i, D[pos + |c|]); }
  }

  lemma OverSize(A: seq<Instr>, D: seq<int>, rc: RecurCtx, rt: Target, pos: nat, t: bool, live: bool)
    requires Over(A, D, rc, rt, pos, t, live)
    ensures |D| == |A| && (live ==> pos < |A| && D[pos] >= 0)
  {
  }

  lemma IfUnfolds(e: Form, t: bool, rc: RecurCtx, live: bool, top: bool)
    requires e.If? && Check(e, rc, top) == None
    ensures LiteralTest(e.test) != Some(false) ==> Check(e.thn, rc, top) == None
    ensures LiteralTest(e.test) != Some(true) && e.els.Some? ==> Check(e.els.value, rc, top) == None
    ensures LiteralTest(e.test) == None ==> Check(e.test, rc, top) == None
    ensures var on := if LiteralTest(e.test) == None then live && Leaves(e.test, top) else live;
            && (LiteralTest(e.test) == None ==> Level(e.test, t, live, top))
            && (LiteralTest(e.test) != Some(false) ==> Level(e.thn, t, on, top))
            && (LiteralTest(e.test) != Some(true) && e.els.Some? ==> Level(e.els.value, t, on, top))
            ==> Level(e, t, live, top)
    ensures var els := e.els.Some? ==> Leaves(e.els.value, top);
            Leaves(e, top) == match LiteralTest(e.test)
                              case Some(b) => if b then Leaves(e.thn, top) else els
                              case None => Leaves(e.test, top) && (Leaves(e.thn, top) || els)
  {
  }

  lemma {:induction false} LevelIf(A: seq<Instr>, D: seq<int>, e: Form, t: bool, live: bool, rc: RecurCtx, sc: Scopes, rt: Target, pos: nat)
    requires e.If?
    requires Deep(A, D) && Check(e, rc, sc.NoScope?) == None && (sc.NoScope? ==> Lifted(e)) && Over(A, D, rc, rt, pos, t, live)
    requires CodeAt(A, pos, Compile(e, sc, rt, pos).code) && pos + |Compile(e, sc, rt, pos).code| < |A|
    ensures Level(e, t, live, sc.NoScope?)
    ensures Risen(D, pos, pos + |Compile(e, sc, rt, pos).code|, 1, live && Leaves(e, sc.NoScope?))
    decreases e, 0
  {
    hide Deep, CodeAt, Over, Compile, CompileElse, Check, Level, Leaves;
    var c := Compile(e.test, sc, rt, pos);
    var p := pos + |c.code| + 1;
    var th := Compile(e.thn, c.sc, rt, p);
    var q := p + |th.code| + 1;
    var f := CompileElse(e.els, th.sc, rt, q);
    IfUnfolds(e, t, rc, live, sc.NoScope?);
    IfCompiled(e, sc, rt, pos, c, th, f);
    if LiteralTest(e.test) == Some(true) {
      LevelForm(A, D, e.thn, t, live, rc, sc, rt, pos);
    } else if LiteralTest(e.test) == Some(false) {
      LevelElse(A, D, e.els, t, live, rc, sc, rt, pos);
    } else {
      IfCode(A, pos, c.code, JumpIfFalse(|th.code| + 1), th.code, Jump(|f.code|), f.code);
      SameDepth(c.sc, sc);
      SameDepth(th.sc, sc);
      LevelForm(A, D, e.test, t, live, rc, sc, rt, pos);
      OverSize(A, D, rc, rt, pos, t, live);
      var on := live && Leaves(e.test, sc.NoScope?);
      if on { Tested(A, D, p - 1, |th.code| + 1); }
      OverLater(A, D, rc, rt, pos, t, live, p, t, on);
      OverLater(A, D, rc, rt, pos, t, live, q, t, on);
      LevelForm(A, D, e.thn, t, on, rc, c.sc, rt, p);
      LevelElse(A, D, e.els, t, on, rc, th.sc, rt, q);
      if on && Leaves(e.thn, sc.NoScope?) { Jumps(A, D, q - 1, |f.code|); }
    }
  }

  /** The conditional jump after a test. */
  lemma Tested(A: seq<Instr>, D: seq<int>, p: nat, off: nat)
    requires Deep(A, D) && |D| == |A| && CodeAt(A, p, [JumpIfFalse(off)]) && p + 1 + off < |A| && D[p] >= 1
    ensures D[p + 1] >= D[p] - 1 && D[p + 1 + off] >= D[p] - 1
  {
    CodeAtOne(A, p, JumpIfFalse(off));
    Along(A, D, p, 0);
    Along(A, D, p, 1);
  }

  lemma Jumps(A: seq<Instr>, D: seq<int>, p: nat, off: nat)
    requires Deep(A, D) && |D| == |A| && CodeAt(A, p, [Jump(off)]) && p + 1 + off < |A| && D[p] >= 0
    ensures D[p + 1 + off] >= D[p]
  {
    CodeAtOne(A, p, Jump(off));
    Along(A, D, p, 0);
  }

  lemma {:induction false} LevelElse(A: seq<Instr>, D: seq<int>, els: Option<Form>, t: bool, live: bool, rc: RecurCtx, sc: Scopes, rt: Target, pos: nat)
    requires Deep(A, D) && Over(A, D, rc, rt, pos, t, live)
    requires els.Some? ==> Check(els.value, rc, sc.NoScope?) == None && (sc.NoScope? ==> Lifted(els.value))
    requires CodeAt(A, pos, CompileElse(els, sc, rt, pos).code) && pos + |CompileElse(els, sc, rt, pos).code| < |A|
    ensures els.Some? ==> Level(els.value, t, live, sc.NoScope?)
    ensures Risen(D, pos, pos + |CompileElse(els, sc, rt, pos).code|, 1, live && (els.Some? ==> Leaves(els.value, sc.NoScope?)))
    decreases els, 3
  {
    hide Deep, CodeAt, Compile, Check, Level, Leaves;
    if els.Some? { LevelForm(A, D, els.value, t, live, rc, sc, rt, pos); }
    else if live { Next(A, D, pos, PushNil, D[pos] + 1); }
  }

  lemma {:induction false} LevelSequence(A: seq<Instr>, D: seq<int>, e: Form, t: bool, live: bool, rc: RecurCtx, sc: Scopes, rt: Target, pos: nat)
    requires e.Do? || e.And? || e.Or?
    requires Deep(A, D) && Check(e, rc, sc.NoScope?) == None && (sc.NoScope? ==> Lifted(e)) && Over(A, D, rc, rt, pos, t, live)
    requires CodeAt(A, pos, Compile(e, sc, rt, pos).code) && pos + |Compile(e, sc, rt, pos).code| < |A|
    ensures Level(e, t, live, sc.NoScope?)
    ensures Risen(D, pos, pos + |Compile(e, sc, rt, pos).code|, 1, live && Leaves(e, sc.NoScope?))
    decreases e, 0
  {
    hide Deep, CodeAt, CompileBody, CompileChain, CheckAll, LevelAll, LeavesAll;
    match e
    case Do(es) => LevelBody(A, D, es, 0, t, live, rc, sc, rt, pos);
    case And(es) =>
      if |es| > 0 { LevelChain(A, D, es, 0, true, t, live, rc, sc, rt, pos); }
      else { assert LevelAll(es, 0, t, t, live, sc.NoScope?) by { NoneLevel(es, t, live, sc.NoScope?); } if live { Next(A, D, pos, PushTrue, D[pos] + 1); } }
    case Or(es) =>
      if |es| > 0 { LevelChain(A, D, es, 0, false, t, live, rc, sc, rt, pos); }
      else { assert LevelAll(es, 0, t, t, live, sc.NoScope?) by { NoneLevel(es, t, live, sc.NoScope?); } if live { Next(A, D, pos, PushNil, D[pos] + 1); } }
  }

  lemma NoneLevel(es: seq<Form>, t: bool, live: bool, top: bool)
    requires es == []
    ensures LevelAll(es, 0, t, t, live, top)
  {
  }

  lemma {:induction false} LevelBody(A: seq<Instr>, D: seq<int>, es: seq<Form>, i: nat, t: bool, live: bool, rc: RecurCtx, sc: Scopes, rt: Target, pos: nat)
    requires i <= |es| && Deep(A, D) && CheckAll(es, i, rc, sc.NoScope?) == None && Over(A, D, rc, rt, pos, t, live)
    requires sc.NoScope? ==> forall j | 0 <= j < |es| :: Lifted(es[j])
    requires CodeAt(A, pos, CompileBody(es, i, sc, rt, pos).code) && pos + |CompileBody(es, i, sc, rt, pos).code| < |A|
    ensures LevelAll(es, i, t, t, live, sc.NoScope?)
    ensures Risen(D, pos, pos + |CompileBody(es, i, sc, rt, pos).code|, 1, live && LeavesAll(es, i, sc.NoScope?))
    decreases es, |es| - i
  {
    hide Deep, CodeAt, Compile, Check, Level, Leaves, Lifted;
    if i == |es| {
      if live { Next(A, D, pos, PushNil, D[pos] + 1); }
    } else if i + 1 == |es| {
      LevelForm(A, D, es[i], t, live, rc, sc, rt, pos);
    } else {
      var c := Compile(es[i], sc, rt, pos);
      var p := pos + |c.code| + 1;
      var rest := CompileBody(es, i + 1, c.sc, rt, p);
      CodeAtSplit(A, pos, c.code + [Pop], rest.code);
      CodeAtSplit(A, pos, c.code, [Pop]);
      SameDepth(c.sc, sc);
      LevelForm(A, D, es[i], t, live, rc, sc, rt, pos);
      var on := live && Leaves(es[i], sc.NoScope?);
      if on { Next(A, D, p - 1, Pop, D[p - 1] - 1); }
      OverLater(A, D, rc, rt, pos, t, live, p, t, on);
      LevelBody(A, D, es, i + 1, t, on, rc, c.sc, rt, p);
    }
  }

  lemma {:induction false} LevelChain(A: seq<Instr>, D: seq<int>, es: seq<Form>, i: nat, conj: bool, t: bool, live: bool, rc: RecurCtx, sc: Scopes, rt: Target, pos: nat)
    requires i < |es| && Deep(A, D) && CheckAll(es, i, rc, sc.NoScope?) == None && Over(A, D, rc, rt, pos, t, live)
    requires sc.NoScope? ==> forall j | 0 <= j < |es| :: Lifted(es[j])
    requires CodeAt(A, pos, CompileChain(es, i, conj, sc, rt, pos).code) && pos + |CompileChain(es, i, conj, sc, rt, pos).code| < |A|
    ensures LevelAll(es, i, t, t, live, sc.NoScope?)
    ensures Risen(D, pos, pos + |CompileChain(es, i, conj, sc, rt, pos).code|, 1, live && Leaves(es[i], sc.NoScope?))
    decreases es, |es| - i
  {
    hide Deep, CodeAt, Compile, CompileChain, Check, Level, Leaves, Lifted;
    var c := Compile(es[i], sc, rt, pos);
    ChainCompiled(es, i, conj, sc, rt, pos, c);
    if i + 1 == |es| {
      LevelForm(A, D, es[i], t, live, rc, sc, rt, pos);
    } else {
      var p := pos + |c.code| + 3;
      var rest := CompileChain(es, i + 1, conj, c.sc, rt, p);
      var over := |rest.code| + 1;
      CodeAtSplit(A, pos, c.code + ChainInstrs(conj, over), rest.code);
      CodeAtSplit(A, pos, c.code, ChainInstrs(conj, over));
      SameDepth(c.sc, sc);
      LevelForm(A, D, es[i], t, live, rc, sc, rt, pos);
      var on := live && Leaves(es[i], sc.NoScope?);
      if on { Linked(A, D, p - 3, conj, over); }
      OverLater(A, D, rc, rt, pos, t, live, p, t, on);
      LevelChain(A, D, es, i + 1, conj, t, on, rc, c.sc, rt, p);
    }
  }

  /** DUP, the conditional jump and POP of `and` and `or`. */
  lemma Linked(A: seq<Instr>, D: seq<int>, p: nat, conj: bool, over: nat)
    requires Deep(A, D) && |D| == |A| && CodeAt(A, p, ChainInstrs(conj, over)) && p + 2 + over < |A| && over > 0 && D[p] >= 1
    ensures D[p + 3] >= D[p] - 1 && D[p + 2 + over] >= D[p]
  {
    var j := if conj then JumpIfFalse(over) else JumpIfTrue(over);
    ThreeInstrs(A, p, Dup, j, Pop);
    CodeAtOne(A, p, Dup);
    CodeAtOne(A, p + 1, j);
    CodeAtOne(A, p + 2, Pop);
    hide Deep, CodeAt;
    Along(A, D, p, 0);
    Along(A, D, p + 1, 0);
    Along(A, D, p + 1, 1);
    Along(A, D, p + 2, 0);
  }

  lemma {:induction false} LevelArgs(A: seq<Instr>, D: seq<int>, es: seq<Form>, i: nat, t: bool, live: bool, rc: RecurCtx, sc: Scopes, rt: Target, pos: nat)
    requires i <= |es| && Deep(A, D) && CheckAll(es, i, rc, sc.NoScope?) == None && Over(A, D, rc, rt, pos, t, live)
    requires sc.NoScope? ==> forall j | 0 <= j < |es| :: Lifted(es[j])
    requires CodeAt(A, pos, CompileArgs(es, i, sc, rt, pos).code) && pos + |CompileArgs(es, i, sc, rt, pos).code| < |A|
    ensures LevelAll(es, i, t, false, live, sc.NoScope?)
    ensures Risen(D, pos, pos + |CompileArgs(es, i, sc, rt, pos).code|, |es| - i, live && LeavesAll(es, i, sc.NoScope?))
    decreases es, |es| - i
  {
    hide Deep, CodeAt, Compile, Check, Level, Leaves, Lifted;
    if i < |es| {
      var c := Compile(es[i], sc, rt, pos);
      var p := pos + |c.code|;
      var rest := CompileArgs(es, i + 1, c.sc, rt, p);
      CodeAtSplit(A, pos, c.code, rest.code);
      SameDepth(c.sc, sc);
      LevelForm(A, D, es[i], t, live, rc, sc, rt, pos);
      var on := live && Leaves(es[i], sc.NoScope?);
      OverLater(A, D, rc, rt, pos, t, live, p, false, on);
      LevelArgs(A, D, es, i + 1, false, on, rc, c.sc, rt, p);
    }
  }

  lemma {:induction false} LevelEffects(A: seq<Instr>, D: seq<int>, es: seq<Form>, i: nat, live: bool, rc: RecurCtx, sc: Scopes, pos: nat)
    requires i <= |es| && Deep(A, D) && CheckAll(es, i, IntoTry(rc), false) == None && sc.Inner? && |D| == |A| && (live ==> pos < |A| && D[pos] >= 0)
    requires CodeAt(A, pos, CompileEffects(es, i, sc, pos).code) && pos + |CompileEffects(es, i, sc, pos).code| < |A|
    ensures LevelAll(es, i, false, false, live, false)
    ensures Risen(D, pos, pos + |CompileEffects(es, i, sc, pos).code|, 0, live && LeavesAll(es, i, false))
    decreases es, |es| - i
  {
    hide Deep, CodeAt, Compile, Check, Level, Leaves, Lifted, IntoTry;
    if i < |es| {
      var c := Compile(es[i], sc, NoTarget, pos);
      var p := pos + |c.code| + 1;
      var rest := CompileEffects(es, i + 1, c.sc, p);
      CodeAtSplit(A, pos, c.code + [Pop], rest.code);
      CodeAtSplit(A, pos, c.code, [Pop]);
      SameDepth(c.sc, sc);
      OverTry(A, D, rc, pos, live);
      LevelForm(A, D, es[i], false, live, IntoTry(rc), sc, NoTarget, pos);
      var on := live && Leaves(es[i], false);
      if on { Next(A, D, p - 1, Pop, D[p - 1] - 1); }
      LevelEffects(A, D, es, i + 1, on, rc, c.sc, p);
    }
  }

  lemma {:induction false} LevelCall(A: seq<Instr>, D: seq<int>, e: Form, t: bool, live: bool, rc: RecurCtx, sc: Scopes, rt: Target, pos: nat)
    requires e.Call?
    requires Deep(A, D) && Check(e, rc, sc.NoScope?) == None && (sc.NoScope? ==> Lifted(e)) && Over(A, D, rc, rt, pos, t, live)
    requires CodeAt(A, pos, Compile(e, sc, rt, pos).code) && pos + |Compile(e, sc, rt, pos).code| < |A|
    ensures Level(e, t, live, sc.NoScope?)
    ensures Risen(D, pos, pos + |Compile(e, sc, rt, pos).code|, 1, live && Leaves(e, sc.NoScope?))
    decreases e, 0
  {
    hide Deep, CodeAt, Over, CompileArgs, CheckAll, LevelAll, LeavesAll;
    var h := Compile(e.head, sc, rt, pos);
    var p := pos + |h.code|;
    var a := CompileArgs(e.args, 0, h.sc, rt, p);
    var n := |e.args|;
    CodeAtSplit(A, pos, h.code + a.code, [Invoke(n)]);
    CodeAtSplit(A, pos, h.code, a.code);
    SameDepth(h.sc, sc);
    LevelForm(A, D, e.head, t, live, rc, sc, rt, pos);
    OverSize(A, D, rc, rt, pos, t, live);
    var on := live && Leaves(e.head, sc.NoScope?);
    OverLater(A, D, rc, rt, pos, t, live, p, false, on);
    LevelArgs(A, D, e.args, 0, false, on, rc, h.sc, rt, p);
    if on && LeavesAll(e.args, 0, sc.NoScope?) { Next(A, D, p + |a.code|, Invoke(n), D[p + |a.code|] - n); }
  }

  /** A chain of stores takes the depth down by as many. */
  lemma {:induction false} StoresTake(A: seq<Instr>, D: seq<int>, slots: seq<nat>, n: nat, p: nat)
    requires Deep(A, D) && |D| == |A| && n <= |slots| && CodeAt(A, p, StoresDown(slots, n)) && p + n < |A| && D[p] >= n
    ensures D[p + n] >= D[p] - n
  {
    hide Deep, CodeAt;
    if n > 0 {
      CodeAtSplit(A, p, [StoreLocal(slots[n - 1])], StoresDown(slots, n - 1));
      Next(A, D, p, StoreLocal(slots[n - 1]), D[p] - 1);
      StoresTake(A, D, slots, n - 1, p + 1);
    }
  }

  /** A jump back that is reached is no deeper than its target. */
  lemma JumpsBack(A: seq<Instr>, D: seq<int>, p: nat, start: nat)
    requires Deep(A, D) && |D| == |A| && start <= p < |A| && CodeAt(A, p, [JumpBack(p + 1 - start)]) && D[p] >= 0
    ensures D[start] >= D[p]
  {
    CodeAtOne(A, p, JumpBack(p + 1 - start));
    Along(A, D, p, 0);
  }

  lemma {:induction false} LevelRecur(A: seq<Instr>, D: seq<int>, e: Form, t: bool, live: bool, rc: RecurCtx, sc: Scopes, rt: Target, pos: nat)
    requires e.Recur?
    requires Deep(A, D) && Check(e, rc, sc.NoScope?) == None && Over(A, D, rc, rt, pos, t, live)
    requires CodeAt(A, pos, Compile(e, sc, rt, pos).code) && pos + |Compile(e, sc, rt, pos).code| < |A|
    ensures Level(e, t, live, sc.NoScope?)
    ensures Risen(D, pos, pos + |Compile(e, sc, rt, pos).code|, 1, live && Leaves(e, sc.NoScope?))
    decreases e, 0
  {
    hide Deep, CodeAt, CompileArgs, CheckAll, LevelAll, LeavesAll;
    var n := |e.args|;
    var a := CompileArgs(e.args, 0, sc, rt, pos);
    RecurCompiled(e, sc, rt, pos, rc, a);
    var p := pos + |a.code|;
    var stores := StoresDown(rt.slots, n);
    StoresOnly(rt.slots, n);
    CodeAtSplit(A, pos, a.code + stores, [JumpBack(p + n + 1 - rt.start)]);
    CodeAtSplit(A, pos, a.code, stores);
    LevelArgs(A, D, e.args, 0, t, live, rc, sc, rt, pos);
    if live && LeavesAll(e.args, 0, sc.NoScope?) {
      StoresTake(A, D, rt.slots, n, p);
      JumpsBack(A, D, p + n, rt.start);
    }
  }

  lemma {:induction false} LevelFn(A: seq<Instr>, D: seq<int>, e: Form, t: bool, live: bool, rc: RecurCtx, sc: Scopes, rt: Target, pos: nat)
    requires e.Fn?
    requires Deep(A, D) && Check(e, rc, sc.NoScope?) == None && Over(A, D, rc, rt, pos, t, live)
    requires CodeAt(A, pos, Compile(e, sc, rt, pos).code) && pos + |Compile(e, sc, rt, pos).code| < |A|
    ensures Level(e, t, live, sc.NoScope?)
    ensures Risen(D, pos, pos + |Compile(e, sc, rt, pos).code|, 1, live && Leaves(e, sc.NoScope?))
    decreases e, 0
  {
    hide Deep, CodeAt, Over, CompileFn, CheckAll, LevelAll;
    var m := FnModule(CompileFn(e.params, e.body, sc), |e.params|);
    var loads := ReadCaptures(m.captures);
    CodeAtSplit(A, pos, loads, [MakeFn(m)]);
    MadeBounded(A, D, pos + |loads|, m);
    LevelFnBody(e.params, e.body, sc);
    OverSize(A, D, rc, rt, pos, t, live);
    if live {
      LoadsRaise(A, D, m.captures, 0, pos);
      Next(A, D, pos + |loads|, MakeFn(m), D[pos + |loads|] + 1 - |loads|);
    }
  }

  lemma MadeBounded(A: seq<Instr>, D: seq<int>, p: nat, m: Module)
    requires Deep(A, D) && CodeAt(A, p, [MakeFn(m)])
    ensures Bounded(m)
  {
    CodeAtOne(A, p, MakeFn(m));
  }

  lemma {:induction false} LoadsRaise(A: seq<Instr>, D: seq<int>, caps: seq<Capture>, i: nat, p: nat)
    requires Deep(A, D) && |D| == |A| && i <= |caps| && CodeAt(A, p, ReadCaptures(caps)[i..]) && p + |caps| - i < |A| && D[p] >= 0
    ensures D[p + |caps| - i] >= D[p] + |caps| - i
    decreases |caps| - i
  {
    hide Deep, CodeAt;
    if i < |caps| {
      ReadsFrom(caps, i);
      CodeAtSplit(A, p, [PushLocal(caps[i].parentSlot)], ReadCaptures(caps)[i + 1..]);
      Next(A, D, p, PushLocal(caps[i].parentSlot), D[p] + 1);
      LoadsRaise(A, D, caps, i + 1, p + 1);
    }
  }

  /** The body of a fn whose module is bounded. */
  lemma {:induction false} LevelFnBody(params: seq<string>, body: seq<Form>, sc: Scopes)
    requires CheckAll(body, 0, InLoop(|params|, false), false) == None
    requires Bounded(FnModule(CompileFn(params, body, sc), |params|))
    ensures LevelAll(body, 0, true, true, true, false)
    decreases body, |body| + 1
  {
    hide CompileBody, CheckAll, LevelAll, LeavesAll;
    var m := FnModule(CompileFn(params, body, sc), |params|);
    var D :| Consistent(m.code, D);
    var c := CompileFn(params, body, sc).code;
    assert m.code[0..|c|] == c;
    LevelBody(m.code, D, body, 0, true, true, InLoop(|params|, false), Inner(ParamScope(params), sc), Target(0, Upto(|params|)), 0);
  }

  lemma {:induction false} LevelScoped(A: seq<Instr>, D: seq<int>, e: Form, t: bool, live: bool, rc: RecurCtx, sc: Scopes, rt: Target, pos: nat)
    requires e.Let? || e.Loop?
    requires Deep(A, D) && Check(e, rc, sc.NoScope?) == None && (sc.NoScope? ==> Lifted(e)) && Over(A, D, rc, rt, pos, t, live)
    requires CodeAt(A, pos, Compile(e, sc, rt, pos).code) && pos + |Compile(e, sc, rt, pos).code| < |A|
    ensures Level(e, t, live, sc.NoScope?)
    ensures Risen(D, pos, pos + |Compile(e, sc, rt, pos).code|, 1, live && Leaves(e, sc.NoScope?))
    decreases e, 1
  {
    hide Deep, CodeAt, Over, CompileLet, CompileLoop, CheckAll, CheckInits, LevelAll, LeavesAll, LevelInits, LeavesInits;
    if e.Let? { LevelLet(A, D, e, 0, t, live, rc, sc, rt, pos); }
    else { LevelLoop(A, D, e, 0, [], t, live, rc, sc, rt, pos); }
  }

  lemma {:induction false} LevelLet(A: seq<Instr>, D: seq<int>, e: Form, i: nat, t: bool, live: bool, rc: RecurCtx, sc: Scopes, rt: Target, pos: nat)
    requires e.Let? && i <= |e.bs| && sc.Inner? && Deep(A, D) && Over(A, D, rc, rt, pos, t, live)
    requires CheckInits(e.bs, i, rc) == None && CheckAll(e.body, 0, rc, false) == None
    requires CodeAt(A, pos, CompileLet(e, i, sc, rt, pos).code) && pos + |CompileLet(e, i, sc, rt, pos).code| < |A|
    ensures LevelInits(e.bs, i, t, live) && LevelAll(e.body, 0, t, t, live && LeavesInits(e.bs, i), false)
    ensures Risen(D, pos, pos + |CompileLet(e, i, sc, rt, pos).code|, 1, live && LeavesInits(e.bs, i) && LeavesAll(e.body, 0, false))
    decreases e, 0, |e.bs| - i
  {
    hide Deep, CodeAt, Compile, Check, Level, Leaves, CheckAll, LevelAll, LeavesAll, CompileBody, CompileLet, Restore, Bind;
    if i == |e.bs| {
      LetBodyCompiled(e, sc, rt, pos);
      LevelBody(A, D, e.body, 0, t, live, rc, sc, rt, pos);
    } else {
      var c := Compile(e.bs[i].init, sc, rt, pos);
      var p := pos + |c.code| + 1;
      LetCompiled(e, i, sc, rt, pos, c);
      var sc1 := Bind(c.sc, e.bs[i].name);
      BindInner(c.sc, e.bs[i].name);
      var rest := CompileLet(e, i + 1, sc1, rt, p);
      CodeAtSplit(A, pos, c.code + [StoreLocal(c.sc.top.nextSlot)], rest.code);
      CodeAtSplit(A, pos, c.code, [StoreLocal(c.sc.top.nextSlot)]);
      LevelForm(A, D, e.bs[i].init, t, live, rc, sc, rt, pos);
      var on := live && Leaves(e.bs[i].init, false);
      if on { Next(A, D, p - 1, StoreLocal(c.sc.top.nextSlot), D[p - 1] - 1); }
      OverLater(A, D, rc, rt, pos, t, live, p, t, on);
      LevelLet(A, D, e, i + 1, t, on, rc, sc1, rt, p);
    }
  }

  lemma BindInner(sc: Scopes, x: string)
    requires sc.Inner?
    ensures Bind(sc, x).Inner?
  {
  }

  lemma {:induction false} LevelLoop(A: seq<Instr>, D: seq<int>, e: Form, i: nat, slots: seq<nat>, t: bool, live: bool, rc: RecurCtx, sc: Scopes, rt: Target, pos: nat)
    requires e.Loop? && i <= |e.bs| && sc.Inner? && |slots| == i && Deep(A, D) && Over(A, D, rc, rt, pos, t, live)
    requires CheckInits(e.bs, i, rc) == None && CheckAll(e.body, 0, InLoop(|e.bs|, false), false) == None
    requires CodeAt(A, pos, CompileLoop(e, i, slots, sc, rt, pos).code) && pos + |CompileLoop(e, i, slots, sc, rt, pos).code| < |A|
    ensures LevelInits(e.bs, i, t, live) && LevelAll(e.body, 0, true, true, live && LeavesInits(e.bs, i), false)
    ensures Risen(D, pos, pos + |CompileLoop(e, i, slots, sc, rt, pos).code|, 1, live && LeavesInits(e.bs, i) && LeavesAll(e.body, 0, false))
    decreases e, 0, |e.bs| - i
  {
    hide Deep, CodeAt, Compile, Check, Level, Leaves, CheckAll, LevelAll, LeavesAll, CompileBody, CompileLoop, Restore, Bind;
    if i == |e.bs| {
      LoopBodyCompiled(e, slots, sc, rt, pos);
      LevelBody(A, D, e.body, 0, true, live, InLoop(|e.bs|, false), sc, Target(pos, slots), pos);
    } else {
      var c := Compile(e.bs[i].init, sc, rt, pos);
      var p := pos + |c.code| + 1;
      LoopCompiled(e, i, slots, sc, rt, pos, c);
      var slot := c.sc.top.nextSlot;
      var sc1 := Bind(c.sc, e.bs[i].name);
      BindInner(c.sc, e.bs[i].name);
      var rest := CompileLoop(e, i + 1, slots + [slot], sc1, rt, p);
      CodeAtSplit(A, pos, c.code + [StoreLocal(slot)], rest.code);
      CodeAtSplit(A, pos, c.code, [StoreLocal(slot)]);
      LevelForm(A, D, e.bs[i].init, t, live, rc, sc, rt, pos);
      var on := live && Leaves(e.bs[i].init, false);
      if on { Next(A, D, p - 1, StoreLocal(slot), D[p - 1] - 1); }
      OverLater(A, D, rc, rt, pos, t, live, p, t, on);
      LevelLoop(A, D, e, i + 1, slots + [slot], t, on, rc, sc1, rt, p);
    }
  }

  /** Where TRY_BEGIN leads. */
  lemma Guards(A: seq<Instr>, D: seq<int>, p: nat, off: nat)
    requires Deep(A, D) && |D| == |A| && CodeAt(A, p, [TryBegin(off)]) && p + 1 + off < |A| && p + 1 < |A| && D[p] >= 0
    ensures D[p + 1] >= D[p] && D[p + 1 + off] >= D[p] + 1
  {
    CodeAtOne(A, p, TryBegin(off));
    Along(A, D, p, 0);
    Along(A, D, p, 1);
  }

  lemma {:induction false} LevelTry(A: seq<Instr>, D: seq<int>, e: Form, t: bool, live: bool, rc: RecurCtx, sc: Scopes, rt: Target, pos: nat)
    requires e.Try?
    requires Deep(A, D) && Check(e, rc, sc.NoScope?) == None && (sc.NoScope? ==> Lifted(e)) && Over(A, D, rc, rt, pos, t, live)
    requires CodeAt(A, pos, Compile(e, sc, rt, pos).code) && pos + |Compile(e, sc, rt, pos).code| < |A|
    ensures Level(e, t, live, sc.NoScope?)
    ensures Risen(D, pos, pos + |Compile(e, sc, rt, pos).code|, 1, live && Leaves(e, sc.NoScope?))
    decreases e, 1
  {
    OverSize(A, D, rc, rt, pos, t, live);
    hide Deep, CodeAt, Over, CompileCatches, CompileEffects, CheckAll, CheckClauses, LevelAll, LeavesAll, LevelClauses, LeavesClause, IntoTry, Compile;
    if e.fin.NoFinally? {
      TryBare(e, sc, rt, pos);
      LevelCatches(A, D, e, live, rc, sc, pos);
    } else {
      LevelFinally(A, D, e, live, rc, sc, rt, pos);
    }
  }

  lemma {:induction false} LevelFinally(A: seq<Instr>, D: seq<int>, e: Form, live: bool, rc: RecurCtx, sc: Scopes, rt: Target, pos: nat)
    requires e.Try? && sc.Inner? && e.fin.Finally? && Deep(A, D) && |D| == |A| && (live ==> pos < |A| && D[pos] >= 0)
    requires CheckAll(e.body, 0, IntoTry(rc), false) == None && CheckClauses(e.catches, 0, IntoTry(rc)) == None
    requires CheckAll(e.fin.forms, 0, IntoTry(rc), false) == None
    requires CodeAt(A, pos, Compile(e, sc, rt, pos).code) && pos + |Compile(e, sc, rt, pos).code| < |A|
    ensures LevelAll(e.body, 0, false, false, live, false) && LevelClauses(e.catches, 0, live) && LevelAll(e.fin.forms, 0, false, false, live, false)
    ensures Risen(D, pos, pos + |Compile(e, sc, rt, pos).code|, 1,
                  live && (LeavesAll(e.body, 0, false) || LeavesClause(e.catches, 0)) && LeavesAll(e.fin.forms, 0, false))
    decreases e, 0, 1
  {
    hide Deep, CodeAt, CompileCatches, CompileEffects, CheckAll, CheckClauses, LevelAll, LeavesAll, LevelClauses, LeavesClause, IntoTry, Compile;
    var tr := CompileCatches(e, sc, pos + 1);
    var pn := pos + 1 + |tr.code| + 1;
    var n := CompileEffects(e.fin.forms, 0, tr.sc, pn);
    TryFinal(e, sc, rt, pos, tr, n);
    var slot := n.sc.top.nextSlot;
    var at := pn + |n.code| + 2;
    var x := CompileEffects(e.fin.forms, 0, Reserve(n.sc), at);
    FinallyCode(A, pos, TryBegin(|tr.code| + 1 + |n.code| + 1), tr.code, TryEnd, n.code, Jump(|x.code| + 2), StoreCaught(slot), x.code, Rethrow(slot));
    if live {
      Guards(A, D, pos, |tr.code| + 1 + |n.code| + 1);
      Next(A, D, at - 1, StoreCaught(slot), D[at - 1] - 1);
    }
    LevelCatches(A, D, e, live, rc, sc, pos + 1);
    LevelEffects(A, D, e.fin.forms, 0, live, rc, Reserve(n.sc), at);
    var left := live && (LeavesAll(e.body, 0, false) || LeavesClause(e.catches, 0));
    if left { Next(A, D, pn - 1, TryEnd, D[pn - 1]); }
    LevelEffects(A, D, e.fin.forms, 0, left, rc, tr.sc, pn);
    if left && LeavesAll(e.fin.forms, 0, false) { Jumps(A, D, pn + |n.code|, |x.code| + 2); }
  }

  lemma {:induction false} LevelCatches(A: seq<Instr>, D: seq<int>, e: Form, live: bool, rc: RecurCtx, sc: Scopes, pos: nat)
    requires e.Try? && sc.Inner? && Deep(A, D) && |D| == |A| && (live ==> pos < |A| && D[pos] >= 0)
    requires CheckAll(e.body, 0, IntoTry(rc), false) == None && CheckClauses(e.catches, 0, IntoTry(rc)) == None
    requires CodeAt(A, pos, CompileCatches(e, sc, pos).code) && pos + |CompileCatches(e, sc, pos).code| < |A|
    ensures LevelAll(e.body, 0, false, false, live, false) && LevelClauses(e.catches, 0, live)
    ensures Risen(D, pos, pos + |CompileCatches(e, sc, pos).code|, 1, live && (LeavesAll(e.body, 0, false) || LeavesClause(e.catches, 0)))
    decreases e, 0, 0
  {
    hide Deep, CodeAt, CompileBody, CompileClauses, CheckAll, LevelAll, LeavesAll, IntoTry;
    if |e.catches| == 0 {
      OverTry(A, D, rc, pos, live);
      LevelBody(A, D, e.body, 0, false, live, IntoTry(rc), sc, NoTarget, pos);
    } else {
      var b := CompileBody(e.body, 0, sc, NoTarget, pos + 1);
      CatchesCompiled(e, sc, pos, b);
      hide CompileCatches, CheckClauses, LevelClauses, LeavesClause;
      var slot := b.sc.top.nextSlot;
      var at := pos + 1 + |b.code| + 3;
      var c := CompileClauses(e.catches, 0, slot, Reserve(b.sc), at);
      CatchCode(A, pos, TryBegin(|b.code| + 2), b.code, TryEnd, Jump(|c.code| + 2), StoreCaught(slot), c.code, Rethrow(slot));
      if live {
        Guards(A, D, pos, |b.code| + 2);
        Next(A, D, at - 1, StoreCaught(slot), D[at - 1] - 1);
      }
      OverTry(A, D, rc, pos + 1, live);
      LevelBody(A, D, e.body, 0, false, live, IntoTry(rc), sc, NoTarget, pos + 1);
      if live && LeavesAll(e.body, 0, false) {
        Next(A, D, at - 3, TryEnd, D[at - 3]);
        Jumps(A, D, at - 2, |c.code| + 2);
      }
      LevelHandler(A, D, e.catches, 0, slot, live, rc, Reserve(b.sc), at);
    }
  }

  lemma {:induction false} LevelHandler(A: seq<Instr>, D: seq<int>, cs: seq<Clause>, i: nat, slot: nat, live: bool, rc: RecurCtx, sc: Scopes, pos: nat)
    requires i <= |cs| && sc.Inner? && CheckClauses(cs, i, IntoTry(rc)) == None && Deep(A, D) && |D| == |A| && (live ==> pos < |A| && D[pos] >= 0)
    requires CodeAt(A, pos, CompileClauses(cs, i, slot, sc, pos).code) && pos + |CompileClauses(cs, i, slot, sc, pos).code| + 1 < |A|
    ensures LevelClauses(cs, i, live)
    ensures Risen(D, pos, pos + |CompileClauses(cs, i, slot, sc, pos).code| + 1, 1, live && LeavesClause(cs, i))
    decreases cs, |cs| - i
  {
    hide Deep, CodeAt, CompileBody, CheckAll, LevelAll, LeavesAll, IntoTry, CompileClauses, Restore;
    if i < |cs| {
      var al := Alias(sc, cs[i].name, slot);
      var b := CompileBody(cs[i].body, 0, al, NoTarget, pos + 3);
      ClausesCompiled(cs, i, slot, sc, pos, b);
      var sc1 := Restore(b.sc, cs[i].name, sc);
      RestoreInner(b.sc, cs[i].name, sc);
      var p := pos + 3 + |b.code| + 1;
      var rest := CompileClauses(cs, i + 1, slot, sc1, p);
      ClauseCode(A, pos, PushLocal(slot), ExcMatch(cs[i].classId), JumpIfFalse(|b.code| + 1), b.code, Jump(|rest.code| + 1), rest.code);
      if live {
        Next(A, D, pos, PushLocal(slot), D[pos] + 1);
        Next(A, D, pos + 1, ExcMatch(cs[i].classId), D[pos + 1]);
        Tested(A, D, pos + 2, |b.code| + 1);
      }
      OverTry(A, D, rc, pos + 3, live);
      LevelBody(A, D, cs[i].body, 0, false, live, IntoTry(rc), al, NoTarget, pos + 3);
      if live && LeavesAll(cs[i].body, 0, false) { Jumps(A, D, p - 1, |rest.code| + 1); }
      LevelHandler(A, D, cs, i + 1, slot, live, rc, sc1, p);
    }
  }

  lemma RestoreInner(d: Scopes, x: string, c: Scopes)
    requires d.Inner? && c.Inner?
    ensures Restore(d, x, c).Inner?
  {
  }

  lemma {:induction false} ExactBounded(m: Module)
    requires ExactModule(m)
    ensures Bounded(m)
    decreases m
  {
    var D :| Exact(m.code, D);
    ExactConsistent(m.code, D);
    forall i | 0 <= i < |m.code| && m.code[i].MakeFn? ensures Bounded(m.code[i].body) { ExactBounded(m.code[i].body); }
  }

  /** The analysis of a form the compiler takes, and of every body in it, has an
      end exactly when no `recur` that is reached has operands pending. */
  lemma DepthsExist(e: Form)
    requires Check(e, NoLoop, true) == None
    ensures Bounded(TopModule(e)) <==> Level(AtTop(e), false, true, true)
  {
    if Level(AtTop(e), false, true, true) {
      AcceptedExact(e);
      ExactBounded(TopModule(e));
    }
    if Bounded(TopModule(e)) {
      CheckAtTop(e, NoLoop);
      CompileAtTop(e, NoTarget, 0);
      LiftedAtTop(e);
      BoundedLevel(AtTop(e));
      hide Check, Compile, Level;
    }
  }

  lemma BoundedLevel(e: Form)
    requires Check(e, NoLoop, true) == None && Lifted(e) && Bounded(TopModule(e))
    ensures Level(e, false, true, true)
  {
    hide Check, Compile, Level, Lifted;
    var m := TopModule(e);
    var D :| Consistent(m.code, D);
    var c := Compile(e, NoScope, NoTarget, 0).code;
    assert m.code[0..|c|] == c;
    LevelForm(m.code, D, e, false, true, NoLoop, NoScope, NoTarget, 0);
  }
}
