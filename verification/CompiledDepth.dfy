/** In compiled code every instruction that is reached has one stack depth, so
    the flow analysis ends, and agrees with it wherever it gets. */
module CompiledDepth {
  import opened Options
  import opened Syntax
  import opened Bytecode
  import opened Codegen
  import opened StackDepth
  import opened Placement
  import opened Lifting

  /** `D` gives each instruction that is reached the one depth every way into
      it has; -1 for the others. */
  ghost predicate Exact(code: seq<Instr>, D: seq<int>) {
    && |D| == |code|
    && (|code| > 0 ==> D[0] == 0)
    && (forall i | 0 <= i < |code| :: D[i] >= -1)
    && (forall i, k | 0 <= i < |code| && D[i] >= 0 && 0 <= k < |Edges(code, i, D[i])| ::
          var e := Edges(code, i, D[i])[k]; e.to < |code| && e.depth >= 0 && D[e.to] == e.depth)
  }

  /** The same of `m` and of every body in it. */
  ghost predicate ExactModule(m: Module) {
    && (exists D :: Exact(m.code, D))
    && (forall i | 0 <= i < |m.code| && m.code[i].MakeFn? :: ExactModule(m.code[i].body))
  }

  lemma ExactConsistent(code: seq<Instr>, D: seq<int>)
    requires Exact(code, D)
    ensures Consistent(code, D)
  {
    forall i | 0 <= i < |code| && D[i] >= 0 ensures Kept(code, D, i) {}
  }

  /** Wherever the analysis gets, it finds the one depth there is. */
  lemma OneDepth(code: seq<Instr>, D: seq<int>, E: seq<int>)
    requires Exact(code, D) && Consistent(code, E) && Least(code, E)
    ensures forall i | 0 <= i < |code| :: E[i] == -1 || E[i] == D[i]
  {
    ExactConsistent(code, D);
    assert Below(E, D);
    var B := seq(|code|, i requires 0 <= i < |code| => if E[i] == D[i] then D[i] else -1);
    forall i | 0 <= i < |code| && B[i] >= 0 ensures Kept(code, B, i) {
      assert Kept(code, E, i);
      forall k | 0 <= k < |Edges(code, i, B[i])| ensures Covered(B, Edges(code, i, B[i])[k]) {
        assert Covered(E, Edges(code, i, E[i])[k]);
      }
    }
    assert Consistent(code, B);
    assert Below(E, B);
  }

  /** What holds of instruction `i` of a piece at `pos`: if it is reached it
      leads to places in the piece or its end at the depth recorded there, or
      back to the recur target, where the depth is `rd`. */
  ghost predicate Leads(code: seq<Instr>, D: seq<int>, i: nat, pos: nat, rt: Target, rd: int)
    requires |D| == |code| + 1 && i < |code|
  {
    && (code[i].MakeFn? ==> ExactModule(code[i].body))
    && (D[i] >= 0 ==>
          if code[i].JumpBack? then
            var t := i + 1 - code[i].off;
            (0 <= t && D[t] == D[i]) || (rt.Target? && pos + t == rt.start && D[i] == rd)
          else
            forall k | 0 <= k < |Edges(code, i, D[i])| ::
              var e := Edges(code, i, D[i])[k]; e.to <= |code| && e.depth >= 0 && D[e.to] == e.depth)
  }

  /** The depths of a piece of code, the last being the depth it ends at. */
  ghost predicate Flow(code: seq<Instr>, D: seq<int>, pos: nat, rt: Target, rd: int) {
    && |D| == |code| + 1
    && (forall i | 0 <= i < |D| :: D[i] >= -1)
    && (forall i | 0 <= i < |code| :: Leads(code, D, i, pos, rt, rd))
  }

  ghost predicate FlowFromTo(code: seq<Instr>, D: seq<int>, pos: nat, rt: Target, rd: int, d: int, d1: int) {
    Flow(code, D, pos, rt, rd) && D[0] == d && D[|code|] == d1
  }

  /** One deeper than `d`, if that is reached and left. */
  function Up(d: int, leaves: bool): int { if d >= 0 && leaves then d + 1 else -1 }

  /** `d` again, if `m` is reached. */
  function Back(d: int, m: int): int { if m >= 0 then d else -1 }

  lemma EdgesMove(code: seq<Instr>, more: seq<Instr>, i: nat, d: int)
    requires i < |more| && !more[i].JumpBack?
    ensures |Edges(code + more, |code| + i, d)| == |Edges(more, i, d)|
    ensures forall k | 0 <= k < |Edges(more, i, d)| ::
              Edges(code + more, |code| + i, d)[k] == Edge(Edges(more, i, d)[k].to + |code|, Edges(more, i, d)[k].depth)
  {
  }

  lemma EdgesExtend(code: seq<Instr>, more: seq<Instr>, i: nat, d: int)
    requires i < |code|
    ensures Edges(code + more, i, d) == Edges(code, i, d)
  {
  }

  lemma Empty(d: int, pos: nat, rt: Target, rd: int)
    requires d >= -1
    ensures FlowFromTo([], [d], pos, rt, rd, d, d)
  {
  }

  /** One piece after another. */
  lemma Join(c1: seq<Instr>, D1: seq<int>, c2: seq<Instr>, D2: seq<int>, pos: nat, rt: Target, rd: int, d: int, m: int, d1: int)
    returns (D: seq<int>)
    requires FlowFromTo(c1, D1, pos, rt, rd, d, m) && FlowFromTo(c2, D2, pos + |c1|, rt, rd, m, d1)
    ensures D == D1[..|c1|] + D2 && |D1| > |c1| && FlowFromTo(c1 + c2, D, pos, rt, rd, d, d1)
  {
    hide Edges, ExactModule, Leads;
    var code := c1 + c2;
    D := D1[..|c1|] + D2;
    assert D[..|c1| + 1] == D1 && D[|c1|..] == D2;
    forall i | 0 <= i < |code| ensures Leads(code, D, i, pos, rt, rd) {
      if i < |c1| { LeadsEarly(c1, c2, D, i, pos, rt, rd); }
      else { LeadsLate(c1, c2, D, i - |c1|, pos, rt, rd); }
    }
  }

  lemma LeadsEarly(c1: seq<Instr>, c2: seq<Instr>, D: seq<int>, i: nat, pos: nat, rt: Target, rd: int)
    requires |D| == |c1| + |c2| + 1 && i < |c1| && Leads(c1, D[..|c1| + 1], i, pos, rt, rd)
    ensures Leads(c1 + c2, D, i, pos, rt, rd)
  {
    EdgesExtend(c1, c2, i, D[i]);
    hide Edges, ExactModule;
  }

  lemma LeadsLate(c1: seq<Instr>, c2: seq<Instr>, D: seq<int>, i: nat, pos: nat, rt: Target, rd: int)
    requires |D| == |c1| + |c2| + 1 && i < |c2| && Leads(c2, D[|c1|..], i, pos + |c1|, rt, rd)
    ensures Leads(c1 + c2, D, |c1| + i, pos, rt, rd)
  {
    hide Edges, ExactModule;
    var code := c1 + c2;
    assert code[|c1| + i] == c2[i] && D[|c1|..][i] == D[|c1| + i];
    if c2[i].JumpBack? {
      var t := i + 1 - c2[i].off;
      if 0 <= t { assert D[|c1|..][t] == D[|c1| + t]; }
    } else if D[|c1| + i] >= 0 {
      var j := |c1| + i;
      EdgesMove(c1, c2, i, D[j]);
      forall k | 0 <= k < |Edges(code, j, D[j])|
        ensures var e := Edges(code, j, D[j])[k]; e.to <= |code| && e.depth >= 0 && D[e.to] == e.depth
      {
        var e := Edges(c2, i, D[j])[k];
        assert D[|c1|..][e.to] == D[|c1| + e.to];
      }
    }
  }

  /** An instruction before a piece it may jump into or over. */
  lemma Before(i: Instr, d: int, c: seq<Instr>, D: seq<int>, pos: nat, rt: Target, rd: int) returns (D1: seq<int>)
    requires Flow(c, D, pos + 1, rt, rd) && !i.JumpBack? && d >= -1
    requires d >= 0 ==> forall k | 0 <= k < |Edges([i], 0, d)| ::
               var e := Edges([i], 0, d)[k]; 1 <= e.to <= |c| + 1 && e.depth >= 0 && D[e.to - 1] == e.depth
    requires i.MakeFn? ==> ExactModule(i.body)
    ensures D1 == [d] + D && FlowFromTo([i] + c, D1, pos, rt, rd, d, D[|c|])
  {
    var code := [i] + c;
    D1 := [d] + D;
    EdgesExtend([i], c, 0, d);
    hide Edges, ExactModule;
    assert D1[1..] == D;
    forall j | 0 <= j < |code| ensures Leads(code, D1, j, pos, rt, rd) {
      if j > 0 { LeadsLate([i], c, D1, j - 1, pos, rt, rd); }
    }
  }

  /** From depth `d` the instruction goes on to the next, at `d1`, or nowhere. */
  predicate GoesTo(i: Instr, d: int, d1: int) {
    Edges([i], 0, d) == [] || (d1 >= 0 && Edges([i], 0, d) == [Edge(1, d1)])
  }

  /** A single instruction that goes on to the next, or nowhere. */
  lemma One(i: Instr, d: int, d1: int, pos: nat, rt: Target, rd: int) returns (D: seq<int>)
    requires !i.JumpBack? && !i.MakeFn? && d >= -1 && d1 >= -1
    requires d >= 0 ==> GoesTo(i, d, d1)
    ensures FlowFromTo([i], D, pos, rt, rd, d, d1)
  {
    Empty(d1, pos + 1, rt, rd);
    D := Before(i, d, [], [d1], pos, rt, rd);
    assert [i] + [] == [i];
  }

  /** Nothing reached leads to an end that is not: any depth will do there. */
  lemma SetEnd(c: seq<Instr>, D: seq<int>, pos: nat, rt: Target, rd: int, d: int, d1: int) returns (D1: seq<int>)
    requires FlowFromTo(c, D, pos, rt, rd, d, -1) && d >= 0 && d1 >= -1
    ensures D1 == D[|c| := d1] && |c| > 0 && FlowFromTo(c, D1, pos, rt, rd, d, d1)
  {
    D1 := D[|c| := d1];
    hide ExactModule;
    forall i | 0 <= i < |c| ensures Leads(c, D1, i, pos, rt, rd) {
      assert Leads(c, D, i, pos, rt, rd);
      StillLeads(c, D, D1, i, pos, rt, rd);
    }
  }

  lemma StillLeads(c: seq<Instr>, D: seq<int>, D1: seq<int>, i: nat, pos: nat, rt: Target, rd: int)
    requires |D| == |c| + 1 && i < |c| && Leads(c, D, i, pos, rt, rd) && D[|c|] == -1 && |D1| == |D| && D1[..|c|] == D[..|c|]
    ensures Leads(c, D1, i, pos, rt, rd)
  {
    hide Edges, ExactModule;
    assert forall j | 0 <= j < |c| :: D1[j] == D1[..|c|][j] == D[j];
  }

  /** Code that is not reached. */
  lemma Dead(c: seq<Instr>, pos: nat, rt: Target, rd: int) returns (D: seq<int>)
    requires forall i | 0 <= i < |c| && c[i].MakeFn? :: ExactModule(c[i].body)
    ensures FlowFromTo(c, D, pos, rt, rd, -1, -1)
  {
    D := seq(|c| + 1, _ => -1);
    hide Edges, ExactModule;
  }

  /** The recur target `rc` allows is behind `pos`, with as many slots. */
  predicate Reachable(rc: RecurCtx, rt: Target, pos: nat) {
    rc.InLoop? && !rc.acrossTry ==> rt.Target? && |rt.slots| == rc.arity && rt.start <= pos
  }

  /** A loop's own jumps back, once the loop is complete. */
  lemma Close(c: seq<Instr>, D: seq<int>, pos: nat, rt: Target, rt1: Target, rd1: int, d: int, d1: int)
    requires rt.Target? && rt.start == pos && FlowFromTo(c, D, pos, rt, d, d, d1)
    ensures FlowFromTo(c, D, pos, rt1, rd1, d, d1)
  {
    hide Edges, ExactModule;
    forall i | 0 <= i < |c| ensures Leads(c, D, i, pos, rt1, rd1) { assert Leads(c, D, i, pos, rt, d); }
  }

  /** A body whose only exit is RETURN. */
  lemma BodyExact(c: seq<Instr>, D: seq<int>, rt: Target, d1: int)
    requires rt.Target? && rt.start == 0 && FlowFromTo(c, D, 0, rt, 0, 0, d1)
    ensures Exact(c + [Return], D)
    ensures forall i | 0 <= i < |c| && c[i].MakeFn? :: ExactModule(c[i].body)
  {
    forall i | 0 <= i < |c| && c[i].MakeFn? ensures ExactModule(c[i].body) { assert Leads(c, D, i, 0, rt, 0); }
    forall i, k | 0 <= i < |c + [Return]| && D[i] >= 0 && 0 <= k < |Edges(c + [Return], i, D[i])|
      ensures var e := Edges(c + [Return], i, D[i])[k]; e.to < |c + [Return]| && e.depth >= 0 && D[e.to] == e.depth
    {
      if i < |c| {
        EdgesExtend(c, [Return], i, D[i]);
        assert Leads(c, D, i, 0, rt, 0);
      }
    }
  }

  /** `n` instructions from one depth to another, one apart at each. */
  lemma {:induction false} Ramp(c: seq<Instr>, d: nat, down: bool, pos: nat, rt: Target, rd: int) returns (D: seq<int>)
    requires down ==> |c| <= d
    requires forall i | 0 <= i < |c| :: if down then c[i].StoreLocal? else c[i].PushLocal?
    ensures FlowFromTo(c, D, pos, rt, rd, d, if down then d - |c| else d + |c|)
  {
    if |c| == 0 {
      D := [d];
    } else {
      D := Ramp(c[1..], if down then d - 1 else d + 1, down, pos + 1, rt, rd);
      assert c == [c[0]] + c[1..];
      D := Before(c[0], d, c[1..], D, pos, rt, rd);
    }
  }

  lemma {:induction false} StoresOnly(slots: seq<nat>, n: nat)
    requires n <= |slots|
    ensures |StoresDown(slots, n)| == n && forall i | 0 <= i < n :: StoresDown(slots, n)[i].StoreLocal?
  {
    if n > 0 { StoresOnly(slots, n - 1); }
  }

  /** The one depth of each instruction of `e`'s code, run from depth `d` (-1:
      not reached); `rd` is the depth at the recur target. */
  lemma {:induction false} FlowForm(e: Form, t: bool, rc: RecurCtx, sc: Scopes, rt: Target, pos: nat, d: int, rd: int)
    returns (D: seq<int>)
    requires Check(e, rc, sc.NoScope?) == None && d >= -1 && Level(e, t, d >= 0, sc.NoScope?)
    requires Reachable(rc, rt, pos) && (d >= 0 && t ==> d == rd)
    ensures FlowFromTo(Compile(e, sc, rt, pos).code, D, pos, rt, rd, d, Up(d, Leaves(e, sc.NoScope?)))
    decreases e, 2
  {
    hide Flow, FlowFromTo, ExactModule, Compile, Check, Level, Leaves, Reachable;
    match e
    case Def(_, _) => D := FlowThen(e, t, rc, sc, rt, pos, d, rd);
    case Throw(_) => D := FlowThen(e, t, rc, sc, rt, pos, d, rd);
    case If(_, _, _) => D := FlowIf(e, t, rc, sc, rt, pos, d, rd);
    case Do(_) => D := FlowSequence(e, t, rc, sc, rt, pos, d, rd);
    case And(_) => D := FlowSequence(e, t, rc, sc, rt, pos, d, rd);
    case Or(_) => D := FlowSequence(e, t, rc, sc, rt, pos, d, rd);
    case Let(_, _) => D := FlowScoped(e, t, rc, sc, rt, pos, d, rd);
    case Loop(_, _) => D := FlowScoped(e, t, rc, sc, rt, pos, d, rd);
    case Try(_, _, _) => D := FlowScoped(e, t, rc, sc, rt, pos, d, rd);
    case Recur(_) => D := FlowRecur(e, t, rc, sc, rt, pos, d, rd);
    case Fn(_, _) => D := FlowFn(e, t, rc, sc, rt, pos, d, rd);
    case Call(_, _) => D := FlowCall(e, t, rc, sc, rt, pos, d, rd);
    case _ => D := FlowLeaf(e, sc, rt, pos, d, rd);
  }

  lemma FlowLeaf(e: Form, sc: Scopes, rt: Target, pos: nat, d: int, rd: int) returns (D: seq<int>)
    requires (e.Lit? || e.Quote? || e.Sym? || e.Global?) && d >= -1
    ensures FlowFromTo(Compile(e, sc, rt, pos).code, D, pos, rt, rd, d, Up(d, Leaves(e, sc.NoScope?)))
  {
    hide Flow, ExactModule, Resolve;
    match e
    case Lit(c) => D := Pushed(PushLiteral(c), d, pos, rt, rd);
    case Quote(c) => D := Pushed(PushLiteral(c), d, pos, rt, rd);
    case Sym(x) =>
      var r := Resolve(x, sc);
      D := Pushed(if r.NotLocal? then PushVar(x) else PushLocal(r.slot), d, pos, rt, rd);
    case Global(x) => D := Pushed(PushVar(x), d, pos, rt, rd);
  }

  /** A form and an instruction on its value. */
  lemma {:induction false} FlowThen(e: Form, t: bool, rc: RecurCtx, sc: Scopes, rt: Target, pos: nat, d: int, rd: int) returns (D: seq<int>)
    requires (e.Def? || e.Throw?) && d >= -1
    requires Check(e, rc, sc.NoScope?) == None && Level(e, t, d >= 0, sc.NoScope?) && Reachable(rc, rt, pos) && (d >= 0 && t ==> d == rd)
    ensures FlowFromTo(Compile(e, sc, rt, pos).code, D, pos, rt, rd, d, Up(d, Leaves(e, sc.NoScope?)))
    decreases e, 0
  {
    hide Flow, ExactModule;
    var x := if e.Def? then e.init else e.e;
    var m := Up(d, Leaves(x, sc.NoScope?));
    D := FlowForm(x, t, rc, sc, rt, pos, d, rd);
    D := Ended(Compile(x, sc, rt, pos).code, D, if e.Def? then StoreGlobal(e.name) else Raise, m, if e.Def? then m else -1, pos, rt, rd, d);
  }

  lemma {:induction false} FlowSequence(e: Form, t: bool, rc: RecurCtx, sc: Scopes, rt: Target, pos: nat, d: int, rd: int)
    returns (D: seq<int>)
    requires (e.Do? || e.And? || e.Or?) && d >= -1
    requires Check(e, rc, sc.NoScope?) == None && Level(e, t, d >= 0, sc.NoScope?) && Reachable(rc, rt, pos) && (d >= 0 && t ==> d == rd)
    ensures FlowFromTo(Compile(e, sc, rt, pos).code, D, pos, rt, rd, d, Up(d, Leaves(e, sc.NoScope?)))
    decreases e, 0
  {
    hide Flow, FlowFromTo, ExactModule, CompileBody, CompileChain, CheckAll, LevelAll, LeavesAll, Reachable;
    match e
    case Do(es) => D := FlowBody(es, 0, t, rc, sc, rt, pos, d, rd);
    case And(es) =>
      if |es| == 0 { D := Pushed(PushTrue, d, pos, rt, rd); } else { D := FlowChain(es, 0, true, t, rc, sc, rt, pos, d, rd); }
    case Or(es) =>
      if |es| == 0 { D := Pushed(PushNil, d, pos, rt, rd); } else { D := FlowChain(es, 0, false, t, rc, sc, rt, pos, d, rd); }
  }

  lemma {:induction false} FlowScoped(e: Form, t: bool, rc: RecurCtx, sc: Scopes, rt: Target, pos: nat, d: int, rd: int)
    returns (D: seq<int>)
    requires (e.Let? || e.Loop? || e.Try?) && d >= -1
    requires Check(e, rc, sc.NoScope?) == None && Level(e, t, d >= 0, sc.NoScope?) && Reachable(rc, rt, pos) && (d >= 0 && t ==> d == rd)
    ensures FlowFromTo(Compile(e, sc, rt, pos).code, D, pos, rt, rd, d, Up(d, Leaves(e, sc.NoScope?)))
    decreases e, 1
  {
    hide Flow, FlowFromTo, ExactModule, CompileLet, CompileLoop, CompileThunk, CompileCatches, CompileEffects,
      CheckAll, LevelAll, LeavesAll, CheckInits, LevelInits, LeavesInits, CheckClauses, LevelClauses, LeavesClause, Reachable;
    if e.Let? { D := FlowLet(e, 0, t, rc, sc, rt, pos, d, rd); }
    else if e.Loop? { D := FlowLoop(e, 0, [], t, rc, sc, rt, pos, d, rd); }
    else { D := FlowTry(e, t, rc, sc, rt, pos, d, rd); }
  }

  lemma {:induction false} FlowCall(e: Form, t: bool, rc: RecurCtx, sc: Scopes, rt: Target, pos: nat, d: int, rd: int) returns (D: seq<int>)
    requires e.Call? && d >= -1
    requires Check(e, rc, sc.NoScope?) == None && Level(e, t, d >= 0, sc.NoScope?) && Reachable(rc, rt, pos) && (d >= 0 && t ==> d == rd)
    ensures FlowFromTo(Compile(e, sc, rt, pos).code, D, pos, rt, rd, d, Up(d, Leaves(e, sc.NoScope?)))
    decreases e, 0
  {
    hide Flow, ExactModule, CompileArgs, CheckAll, LevelAll, LeavesAll;
    var h := Compile(e.head, sc, rt, pos);
    var a := CompileArgs(e.args, 0, h.sc, rt, pos + |h.code|);
    var n := |e.args|;
    var m := Up(d, Leaves(e.head, sc.NoScope?));
    SameDepth(h.sc, sc);
    D := FlowForm(e.head, t, rc, sc, rt, pos, d, rd);
    var D2 := FlowArgs(e.args, 0, false, rc, h.sc, rt, pos + |h.code|, m, rd);
    var m2 := Several(m, n, LeavesAll(e.args, 0, sc.NoScope?));
    D := Join(h.code, D, a.code, D2, pos, rt, rd, d, m, m2);
    D := Ended(h.code + a.code, D, Invoke(n), m2, if m2 >= 0 then d + 1 else -1, pos, rt, rd, d);
  }

  /** `n` deeper than `d`, if that is reached and left. */
  function Several(d: int, n: nat, leave: bool): int { if d >= 0 && leave then d + n else -1 }

  lemma Pushed(i: Instr, d: int, pos: nat, rt: Target, rd: int) returns (D: seq<int>)
    requires (i.PushConst? || i.PushNil? || i.PushTrue? || i.PushFalse? || i.PushVar? || i.PushLocal?) && d >= -1
    ensures FlowFromTo([i], D, pos, rt, rd, d, Up(d, true))
  {
    D := One(i, d, Up(d, true), pos, rt, rd);
  }

  /** A last instruction. */
  lemma Ended(c: seq<Instr>, D: seq<int>, i: Instr, m: int, d1: int, pos: nat, rt: Target, rd: int, d: int) returns (D1: seq<int>)
    requires FlowFromTo(c, D, pos, rt, rd, d, m) && !i.JumpBack? && !i.MakeFn? && d1 >= -1
    requires m >= 0 ==> GoesTo(i, m, d1)
    ensures FlowFromTo(c + [i], D1, pos, rt, rd, d, d1)
  {
    hide ExactModule, Leads, Edges;
    D1 := One(i, m, d1, pos + |c|, rt, rd);
    D1 := Join(c, D, [i], D1, pos, rt, rd, d, m, d1);
  }

  /** `c1`, then an instruction that may jump over part of `c2`. */
  lemma Across(c1: seq<Instr>, D1: seq<int>, i: Instr, m: int, c2: seq<Instr>, D2: seq<int>, pos: nat, rt: Target, rd: int, d: int, d1: int)
    returns (D: seq<int>)
    requires FlowFromTo(c1, D1, pos, rt, rd, d, m) && Flow(c2, D2, pos + |c1| + 1, rt, rd) && D2[|c2|] == d1
    requires !i.JumpBack? && !i.MakeFn?
    requires m >= 0 ==> forall k | 0 <= k < |Edges([i], 0, m)| ::
               var e := Edges([i], 0, m)[k]; 1 <= e.to <= |c2| + 1 && e.depth >= 0 && D2[e.to - 1] == e.depth
    ensures FlowFromTo(c1 + [i] + c2, D, pos, rt, rd, d, d1) && D[|c1| + 1..] == D2
  {
    hide ExactModule, Leads, Edges;
    D := Before(i, m, c2, D2, pos + |c1|, rt, rd);
    D := Join(c1, D1, [i] + c2, D, pos, rt, rd, d, m, d1);
    assert c1 + ([i] + c2) == c1 + [i] + c2;
  }

  lemma {:induction false} FlowElse(els: Option<Form>, t: bool, rc: RecurCtx, sc: Scopes, rt: Target, pos: nat, d: int, rd: int)
    returns (D: seq<int>)
    requires els.Some? ==> Check(els.value, rc, sc.NoScope?) == None && Level(els.value, t, d >= 0, sc.NoScope?)
    requires Reachable(rc, rt, pos) && d >= -1 && (d >= 0 && t ==> d == rd)
    ensures FlowFromTo(CompileElse(els, sc, rt, pos).code, D, pos, rt, rd, d, Up(d, els.Some? ==> Leaves(els.value, sc.NoScope?)))
    decreases els, 3
  {
    hide Flow, Compile, Check, Level, Leaves;
    if els.Some? { D := FlowForm(els.value, t, rc, sc, rt, pos, d, rd); } else { D := Pushed(PushNil, d, pos, rt, rd); }
  }

  lemma IfLevel(e: Form, t: bool, rc: RecurCtx, live: bool, top: bool)
    requires e.If? && Check(e, rc, top) == None && Level(e, t, live, top)
    ensures LiteralTest(e.test) != Some(false) ==> Check(e.thn, rc, top) == None
    ensures LiteralTest(e.test) != Some(true) && e.els.Some? ==> Check(e.els.value, rc, top) == None
    ensures LiteralTest(e.test) == None ==> Check(e.test, rc, top) == None && Level(e.test, t, live, top)
    ensures var on := if LiteralTest(e.test) == None then live && Leaves(e.test, top) else live;
            && (LiteralTest(e.test) != Some(false) ==> Level(e.thn, t, on, top))
            && (LiteralTest(e.test) != Some(true) && e.els.Some? ==> Level(e.els.value, t, on, top))
    ensures var els := e.els.Some? ==> Leaves(e.els.value, top);
            Leaves(e, top) == match LiteralTest(e.test)
                              case Some(b) => if b then Leaves(e.thn, top) else els
                              case None => Leaves(e.test, top) && (Leaves(e.thn, top) || els)
  {
  }

  lemma {:induction false} FlowIf(e: Form, t: bool, rc: RecurCtx, sc: Scopes, rt: Target, pos: nat, d: int, rd: int)
    returns (D: seq<int>)
    requires e.If? && d >= -1
    requires Check(e, rc, sc.NoScope?) == None && Level(e, t, d >= 0, sc.NoScope?) && Reachable(rc, rt, pos) && (d >= 0 && t ==> d == rd)
    ensures FlowFromTo(Compile(e, sc, rt, pos).code, D, pos, rt, rd, d, Up(d, Leaves(e, sc.NoScope?)))
    decreases e, 0
  {
    hide Flow, FlowFromTo, ExactModule, CompileElse, Compile, Check, Level, Leaves;
    var c := Compile(e.test, sc, rt, pos);
    var p := pos + |c.code| + 1;
    var th := Compile(e.thn, c.sc, rt, p);
    var f := CompileElse(e.els, th.sc, rt, p + |th.code| + 1);
    IfLevel(e, t, rc, d >= 0, sc.NoScope?);
    IfCompiled(e, sc, rt, pos, c, th, f);
    var test := LiteralTest(e.test);
    if test == Some(true) {
      D := FlowForm(e.thn, t, rc, sc, rt, pos, d, rd);
    } else if test == Some(false) {
      D := FlowElse(e.els, t, rc, sc, rt, pos, d, rd);
    } else {
      SameDepth(c.sc, sc);
      SameDepth(th.sc, sc);
      var m := Up(d, Leaves(e.test, sc.NoScope?));
      var s := Back(d, m);
      var Dc := FlowForm(e.test, t, rc, sc, rt, pos, d, rd);
      var Dt := FlowForm(e.thn, t, rc, c.sc, rt, p, s, rd);
      var Df := FlowElse(e.els, t, rc, th.sc, rt, p + |th.code| + 1, s, rd);
      D := Branches(c.code, Dc, th.code, Dt, f.code, Df, pos, rt, rd, d, m,
                    Up(s, Leaves(e.thn, sc.NoScope?)), Up(s, e.els.Some? ==> Leaves(e.els.value, sc.NoScope?)));
    }
  }

  lemma SameDepth(a: Scopes, b: Scopes)
    requires Depth(a) == Depth(b)
    ensures a.NoScope? == b.NoScope?
  {
  }

  /** Either branch's end, when one is reached. */
  function Either(a: int, b: int): int { if a >= 0 then a else b }

  lemma Branches(c: seq<Instr>, Dc: seq<int>, t: seq<Instr>, Dt: seq<int>, f: seq<Instr>, Df: seq<int>,
                 pos: nat, rt: Target, rd: int, d: int, m: int, a: int, b: int) returns (D: seq<int>)
    requires d >= -1 && ((m == d + 1 && m > 0) || m == -1)
    requires FlowFromTo(c, Dc, pos, rt, rd, d, m) && FlowFromTo(t, Dt, pos + |c| + 1, rt, rd, Back(d, m), a)
    requires FlowFromTo(f, Df, pos + |c| + 1 + |t| + 1, rt, rd, Back(d, m), b)
    requires ((a == Back(d, m) + 1 && a > 0) || a == -1) && ((b == Back(d, m) + 1 && b > 0) || b == -1)
    ensures FlowFromTo(c + [JumpIfFalse(|t| + 1)] + t + [Jump(|f|)] + f, D, pos, rt, rd, d, Either(a, b))
  {
    hide ExactModule, Leads;
    var s := Back(d, m);
    var over := [Jump(|f|)] + f;
    var Df1 := Df;
    if a >= 0 && b < 0 { Df1 := SetEnd(f, Df, pos + |c| + 1 + |t| + 1, rt, rd, s, a); }
    var D2 := Before(Jump(|f|), a, f, Df1, pos + |c| + 1 + |t|, rt, rd);
    var D3 := Join(t, Dt, over, D2, pos + |c| + 1, rt, rd, s, a, Either(a, b));
    assert D3[|t| + 1] == D2[1] == Df1[0];
    D := Across(c, Dc, JumpIfFalse(|t| + 1), m, t + over, D3, pos, rt, rd, d, Either(a, b));
    assert c + [JumpIfFalse(|t| + 1)] + (t + over) == c + [JumpIfFalse(|t| + 1)] + t + [Jump(|f|)] + f;
  }

  lemma {:induction false} FlowBody(es: seq<Form>, i: nat, t: bool, rc: RecurCtx, sc: Scopes, rt: Target, pos: nat, d: int, rd: int)
    returns (D: seq<int>)
    requires i <= |es| && CheckAll(es, i, rc, sc.NoScope?) == None && d >= -1 && LevelAll(es, i, t, t, d >= 0, sc.NoScope?)
    requires Reachable(rc, rt, pos) && (d >= 0 && t ==> d == rd)
    ensures FlowFromTo(CompileBody(es, i, sc, rt, pos).code, D, pos, rt, rd, d, Up(d, LeavesAll(es, i, sc.NoScope?)))
    decreases es, |es| - i
  {
    hide Flow, ExactModule, Compile, Check, Level, Leaves;
    if i == |es| {
      D := Pushed(PushNil, d, pos, rt, rd);
    } else if i + 1 == |es| {
      D := FlowForm(es[i], t, rc, sc, rt, pos, d, rd);
    } else {
      var c := Compile(es[i], sc, rt, pos);
      var rest := CompileBody(es, i + 1, c.sc, rt, pos + |c.code| + 1);
      var m := Up(d, Leaves(es[i], sc.NoScope?));
      SameDepth(c.sc, sc);
      D := FlowForm(es[i], t, rc, sc, rt, pos, d, rd);
      var D2 := FlowBody(es, i + 1, t, rc, c.sc, rt, pos + |c.code| + 1, Back(d, m), rd);
      D := Across(c.code, D, Pop, m, rest.code, D2, pos, rt, rd, d, Up(Back(d, m), LeavesAll(es, i + 1, sc.NoScope?)));
    }
  }

  lemma {:induction false} FlowEffects(es: seq<Form>, i: nat, rc: RecurCtx, sc: Scopes, pos: nat, d: int, rt: Target, rd: int)
    returns (D: seq<int>)
    requires i <= |es| && CheckAll(es, i, rc, sc.NoScope?) == None && Reachable(rc, NoTarget, pos)
    requires d >= -1 && LevelAll(es, i, false, false, d >= 0, sc.NoScope?)
    ensures FlowFromTo(CompileEffects(es, i, sc, pos).code, D, pos, rt, rd, d, Several(d, 0, LeavesAll(es, i, sc.NoScope?)))
    decreases es, |es| - i
  {
    hide Flow, ExactModule, Compile, Check, Level, Leaves;
    if i == |es| {
      D := [d];
      Empty(d, pos, rt, rd);
    } else {
      var c := Compile(es[i], sc, NoTarget, pos);
      var rest := CompileEffects(es, i + 1, c.sc, pos + |c.code| + 1);
      var m := Up(d, Leaves(es[i], sc.NoScope?));
      SameDepth(c.sc, sc);
      D := FlowForm(es[i], false, rc, sc, NoTarget, pos, d, rd);
      NoJumpOut(c.code, D, pos, rt, rd, d, m);
      var D2 := FlowEffects(es, i + 1, rc, c.sc, pos + |c.code| + 1, Back(d, m), rt, rd);
      D := Across(c.code, D, Pop, m, rest.code, D2, pos, rt, rd, d, Several(Back(d, m), 0, LeavesAll(es, i + 1, sc.NoScope?)));
    }
  }

  /** Code compiled without a recur target jumps back to none. */
  lemma NoJumpOut(c: seq<Instr>, D: seq<int>, pos: nat, rt: Target, rd: int, d: int, d1: int)
    requires FlowFromTo(c, D, pos, NoTarget, rd, d, d1)
    ensures FlowFromTo(c, D, pos, rt, rd, d, d1)
  {
    hide Edges, ExactModule;
    forall i | 0 <= i < |c| ensures Leads(c, D, i, pos, rt, rd) { assert Leads(c, D, i, pos, NoTarget, rd); }
  }

  lemma ChainLevel(es: seq<Form>, i: nat, t: bool, rc: RecurCtx, live: bool, top: bool)
    requires i < |es| && CheckAll(es, i, rc, top) == None && LevelAll(es, i, t, t, live, top)
    ensures Check(es[i], rc, top) == None && CheckAll(es, i + 1, rc, top) == None && Level(es[i], t, live, top)
    ensures LevelAll(es, i + 1, t, t, live && Leaves(es[i], top), top)
  {
    hide Check, Level, Leaves;
  }

  lemma {:induction false} FlowChain(es: seq<Form>, i: nat, conj: bool, t: bool, rc: RecurCtx, sc: Scopes, rt: Target,
                                     pos: nat, d: int, rd: int)
    returns (D: seq<int>)
    requires i < |es| && CheckAll(es, i, rc, sc.NoScope?) == None && d >= -1 && LevelAll(es, i, t, t, d >= 0, sc.NoScope?)
    requires Reachable(rc, rt, pos) && (d >= 0 && t ==> d == rd)
    ensures FlowFromTo(CompileChain(es, i, conj, sc, rt, pos).code, D, pos, rt, rd, d, Up(d, Leaves(es[i], sc.NoScope?)))
    decreases es, |es| - i
  {
    hide Flow, FlowFromTo, ExactModule, Compile, Check, Level, Leaves, CheckAll, LevelAll, CompileChain, Reachable;
    var c := Compile(es[i], sc, rt, pos);
    ChainCompiled(es, i, conj, sc, rt, pos, c);
    ChainLevel(es, i, t, rc, d >= 0, sc.NoScope?);
    var m := Up(d, Leaves(es[i], sc.NoScope?));
    D := FlowForm(es[i], t, rc, sc, rt, pos, d, rd);
    if i + 1 < |es| {
      var p := pos + |c.code| + 3;
      var rest := CompileChain(es, i + 1, conj, c.sc, rt, p);
      var over := |rest.code| + 1;
      var j := if conj then JumpIfFalse(over) else JumpIfTrue(over);
      SameDepth(c.sc, sc);
      ReachableLater(rc, rt, pos, p);
      var D2 := FlowChain(es, i + 1, conj, t, rc, c.sc, rt, p, Back(d, m), rd);
      D := Link(c.code, D, j, rest.code, D2, pos, rt, rd, d, m, Up(Back(d, m), Leaves(es[i + 1], sc.NoScope?)));
      assert c.code + [Dup, j, Pop] + rest.code == c.code + [Dup] + ([j] + ([Pop] + rest.code));
    }
  }

  lemma ReachableLater(rc: RecurCtx, rt: Target, pos: nat, pos1: nat)
    requires Reachable(rc, rt, pos) && pos <= pos1
    ensures Reachable(rc, rt, pos1)
  {
  }

  lemma Link(c: seq<Instr>, Dc: seq<int>, j: Instr, r: seq<Instr>, Dr: seq<int>, pos: nat, rt: Target, rd: int, d: int, m: int, b: int)
    returns (D: seq<int>)
    requires (m == d + 1 && m > 0) || m == -1
    requires FlowFromTo(c, Dc, pos, rt, rd, d, m) && FlowFromTo(r, Dr, pos + |c| + 3, rt, rd, Back(d, m), b)
    requires (b == Back(d, m) + 1 && b > 0) || b == -1
    requires j == JumpIfFalse(|r| + 1) || j == JumpIfTrue(|r| + 1)
    ensures FlowFromTo(c + [Dup] + ([j] + ([Pop] + r)), D, pos, rt, rd, d, m)
  {
    hide ExactModule, Leads;
    var Dr1 := Dr;
    if m >= 0 && b < 0 { Dr1 := SetEnd(r, Dr, pos + |c| + 3, rt, rd, d, m); }
    var D1 := Before(Pop, m, r, Dr1, pos + |c| + 2, rt, rd);
    var D2 := Before(j, if m >= 0 then m + 1 else -1, [Pop] + r, D1, pos + |c| + 1, rt, rd);
    D := Across(c, Dc, Dup, m, [j] + ([Pop] + r), D2, pos, rt, rd, d, m);
  }

  lemma {:induction false} FlowArgs(es: seq<Form>, i: nat, t: bool, rc: RecurCtx, sc: Scopes, rt: Target, pos: nat, d: int, rd: int)
    returns (D: seq<int>)
    requires i <= |es| && CheckAll(es, i, rc, sc.NoScope?) == None && d >= -1 && LevelAll(es, i, t, false, d >= 0, sc.NoScope?)
    requires Reachable(rc, rt, pos) && (d >= 0 && t ==> d == rd)
    ensures FlowFromTo(CompileArgs(es, i, sc, rt, pos).code, D, pos, rt, rd, d, Several(d, |es| - i, LeavesAll(es, i, sc.NoScope?)))
    decreases es, |es| - i
  {
    hide Flow, ExactModule, Compile, Check, Level, Leaves;
    if i == |es| {
      D := [d];
      Empty(d, pos, rt, rd);
    } else {
      var c := Compile(es[i], sc, rt, pos);
      var rest := CompileArgs(es, i + 1, c.sc, rt, pos + |c.code|);
      var m := Up(d, Leaves(es[i], sc.NoScope?));
      SameDepth(c.sc, sc);
      D := FlowForm(es[i], t, rc, sc, rt, pos, d, rd);
      var D2 := FlowArgs(es, i + 1, false, rc, c.sc, rt, pos + |c.code|, m, rd);
      D := Join(c.code, D, rest.code, D2, pos, rt, rd, d, m, Several(m, |es| - i - 1, LeavesAll(es, i + 1, sc.NoScope?)));
    }
  }

  lemma {:induction false} FlowLet(e: Form, i: nat, t: bool, rc: RecurCtx, sc: Scopes, rt: Target, pos: nat, d: int, rd: int)
    returns (D: seq<int>)
    requires e.Let? && i <= |e.bs| && sc.Inner? && d >= -1
    requires CheckInits(e.bs, i, rc) == None && CheckAll(e.body, 0, rc, false) == None
    requires LevelInits(e.bs, i, t, d >= 0) && LevelAll(e.body, 0, t, t, d >= 0 && LeavesInits(e.bs, i), false)
    requires Reachable(rc, rt, pos) && (d >= 0 && t ==> d == rd)
    ensures FlowFromTo(CompileLet(e, i, sc, rt, pos).code, D, pos, rt, rd, d, Up(d, LeavesInits(e.bs, i) && LeavesAll(e.body, 0, false)))
    decreases e, 0, |e.bs| - i
  {
    hide Flow, ExactModule, Compile, Check, Level, Leaves, CheckAll, LevelAll, LeavesAll, CompileBody, Restore;
    if i == |e.bs| {
      D := FlowBody(e.body, 0, t, rc, sc, rt, pos, d, rd);
    } else {
      var c := Compile(e.bs[i].init, sc, rt, pos);
      var p := pos + |c.code| + 1;
      var rest := CompileLet(e, i + 1, Bind(c.sc, e.bs[i].name), rt, p);
      var m := Up(d, Leaves(e.bs[i].init, false));
      D := FlowForm(e.bs[i].init, t, rc, sc, rt, pos, d, rd);
      var D2 := FlowLet(e, i + 1, t, rc, Bind(c.sc, e.bs[i].name), rt, p, Back(d, m), rd);
      D := Across(c.code, D, StoreLocal(c.sc.top.nextSlot), m, rest.code, D2, pos, rt, rd, d,
                  Up(Back(d, m), LeavesInits(e.bs, i + 1) && LeavesAll(e.body, 0, false)));
    }
  }

  lemma {:induction false} FlowLoop(e: Form, i: nat, slots: seq<nat>, t: bool, rc: RecurCtx, sc: Scopes, rt: Target, pos: nat, d: int, rd: int)
    returns (D: seq<int>)
    requires e.Loop? && i <= |e.bs| && sc.Inner? && |slots| == i && d >= -1
    requires CheckInits(e.bs, i, rc) == None && CheckAll(e.body, 0, InLoop(|e.bs|, false), false) == None
    requires LevelInits(e.bs, i, t, d >= 0) && LevelAll(e.body, 0, true, true, d >= 0 && LeavesInits(e.bs, i), false)
    requires Reachable(rc, rt, pos) && (d >= 0 && t ==> d == rd)
    ensures FlowFromTo(CompileLoop(e, i, slots, sc, rt, pos).code, D, pos, rt, rd, d, Up(d, LeavesInits(e.bs, i) && LeavesAll(e.body, 0, false)))
    decreases e, 0, |e.bs| - i
  {
    hide Flow, ExactModule, Compile, Check, Level, Leaves, CheckAll, LevelAll, LeavesAll, CompileBody, Restore;
    if i == |e.bs| {
      D := FlowBody(e.body, 0, true, InLoop(|e.bs|, false), sc, Target(pos, slots), pos, d, d);
      Close(CompileBody(e.body, 0, sc, Target(pos, slots), pos).code, D, pos, Target(pos, slots), rt, rd, d, Up(d, LeavesAll(e.body, 0, false)));
    } else {
      var c := Compile(e.bs[i].init, sc, rt, pos);
      var p := pos + |c.code| + 1;
      var slot := c.sc.top.nextSlot;
      var rest := CompileLoop(e, i + 1, slots + [slot], Bind(c.sc, e.bs[i].name), rt, p);
      var m := Up(d, Leaves(e.bs[i].init, false));
      D := FlowForm(e.bs[i].init, t, rc, sc, rt, pos, d, rd);
      var D2 := FlowLoop(e, i + 1, slots + [slot], t, rc, Bind(c.sc, e.bs[i].name), rt, p, Back(d, m), rd);
      D := Across(c.code, D, StoreLocal(slot), m, rest.code, D2, pos, rt, rd, d,
                  Up(Back(d, m), LeavesInits(e.bs, i + 1) && LeavesAll(e.body, 0, false)));
    }
  }

  /** A `recur` with no operands pending jumps back at the depth of the loop's
      start. */
  lemma {:induction false} FlowRecur(e: Form, t: bool, rc: RecurCtx, sc: Scopes, rt: Target, pos: nat, d: int, rd: int)
    returns (D: seq<int>)
    requires e.Recur? && d >= -1
    requires Check(e, rc, sc.NoScope?) == None && Level(e, t, d >= 0, sc.NoScope?) && Reachable(rc, rt, pos) && (d >= 0 && t ==> d == rd)
    ensures FlowFromTo(Compile(e, sc, rt, pos).code, D, pos, rt, rd, d, Up(d, Leaves(e, sc.NoScope?)))
    decreases e, 0
  {
    hide Flow, ExactModule, CompileArgs, Edges, CheckAll, LevelAll, LeavesAll;
    var n := |e.args|;
    var a := CompileArgs(e.args, 0, sc, rt, pos);
    var stores := StoresDown(rt.slots, n);
    StoresOnly(rt.slots, n);
    var m := Several(d, n, LeavesAll(e.args, 0, sc.NoScope?));
    D := FlowArgs(e.args, 0, t, rc, sc, rt, pos, d, rd);
    var D2;
    if m >= 0 { D2 := Ramp(stores, m, true, pos + |a.code|, rt, rd); } else { D2 := Dead(stores, pos + |a.code|, rt, rd); }
    var s := Back(d, m);
    D := Join(a.code, D, stores, D2, pos, rt, rd, d, m, s);
    var at := pos + |a.code| + n;
    JumpOut(at + 1 - rt.start, s, at, rt, rd);
    D := Join(a.code + stores, D, [JumpBack(at + 1 - rt.start)], [s, -1], pos, rt, rd, d, s, -1);
  }

  lemma JumpOut(off: nat, d: int, pos: nat, rt: Target, rd: int)
    requires rt.Target? && rt.start <= pos && off == pos + 1 - rt.start && d >= -1 && (d >= 0 ==> d == rd)
    ensures FlowFromTo([JumpBack(off)], [d, -1], pos, rt, rd, d, -1)
  {
  }

  /** The module of a fn body is exact. */
  lemma {:induction false} FlowFnBody(params: seq<string>, body: seq<Form>, sc: Scopes)
    requires CheckAll(body, 0, InLoop(|params|, false), false) == None && LevelAll(body, 0, true, true, true, false)
    ensures ExactModule(FnModule(CompileFn(params, body, sc), |params|))
    decreases body, |body| + 1
  {
    hide Flow, CompileBody, CheckAll, LevelAll, LeavesAll;
    var rt := Target(0, Upto(|params|));
    var r := CompileFn(params, body, sc);
    var D := FlowBody(body, 0, true, InLoop(|params|, false), Inner(ParamScope(params), sc), rt, 0, 0, 0);
    BodyExact(r.code, D, rt, Up(0, LeavesAll(body, 0, false)));
    ModuleExact(FnModule(r, |params|), r.code, D);
  }

  lemma {:induction false} FlowFn(e: Form, t: bool, rc: RecurCtx, sc: Scopes, rt: Target, pos: nat, d: int, rd: int) returns (D: seq<int>)
    requires e.Fn? && Check(e, rc, sc.NoScope?) == None && d >= -1 && Level(e, t, d >= 0, sc.NoScope?)
    ensures FlowFromTo(Compile(e, sc, rt, pos).code, D, pos, rt, rd, d, Up(d, Leaves(e, sc.NoScope?)))
    decreases e, 0
  {
    hide Flow, ExactModule, CompileFn, CheckAll, LevelAll;
    var r := CompileFn(e.params, e.body, sc);
    var m := FnModule(r, |e.params|);
    FlowFnBody(e.params, e.body, sc);
    D := MadeFlow(m, pos, rt, d, rd);
  }

  lemma MadeFlow(m: Module, pos: nat, rt: Target, d: int, rd: int) returns (D: seq<int>)
    requires ExactModule(m) && d >= -1
    ensures FlowFromTo(ReadCaptures(m.captures) + [MakeFn(m)], D, pos, rt, rd, d, Up(d, true))
  {
    hide ExactModule, Leads;
    var loads := ReadCaptures(m.captures);
    if d < 0 {
      D := Dead(loads + [MakeFn(m)], pos, rt, rd);
    } else {
      D := Ramp(loads, d, false, pos, rt, rd);
      var at := pos + |loads|;
      Empty(d + 1, at + 1, rt, rd);
      var D2 := Before(MakeFn(m), d + |loads|, [], [d + 1], at, rt, rd);
      assert [MakeFn(m)] + [] == [MakeFn(m)];
      D := Join(loads, D, [MakeFn(m)], D2, pos, rt, rd, d, d + |loads|, d + 1);
    }
  }

  lemma ModuleExact(m: Module, c: seq<Instr>, D: seq<int>)
    requires m.code == c + [Return] && Exact(m.code, D)
    requires forall i | 0 <= i < |c| && c[i].MakeFn? :: ExactModule(c[i].body)
    ensures ExactModule(m)
  {
  }

  lemma TryLevel(e: Form, t: bool, rc: RecurCtx, live: bool)
    requires e.Try? && Check(e, rc, false) == None && Level(e, t, live, false)
    ensures CheckAll(e.body, 0, IntoTry(rc), false) == None && LevelAll(e.body, 0, false, false, live, false)
    ensures CheckClauses(e.catches, 0, IntoTry(rc)) == None && LevelClauses(e.catches, 0, live)
    ensures e.fin.Finally? ==> CheckAll(e.fin.forms, 0, IntoTry(rc), false) == None && LevelAll(e.fin.forms, 0, false, false, live, false)
    ensures Leaves(e, false) == ((LeavesAll(e.body, 0, false) || LeavesClause(e.catches, 0)) && (e.fin.Finally? ==> LeavesAll(e.fin.forms, 0, false)))
  {
    hide CheckAll, LevelAll, LeavesAll, CheckClauses, LevelClauses, LeavesClause;
  }

  /** Forms level where they are reached are level where they are not. */
  lemma {:induction false} LevelDead(es: seq<Form>, i: nat, t: bool, next: bool, live: bool, top: bool)
    requires i <= |es| && LevelAll(es, i, t, next, live, top)
    ensures LevelAll(es, i, t, next, false, top)
    decreases es, |es| - i
  {
    if i < |es| {
      FormDead(es[i], t, live, top);
      LevelDead(es, i + 1, next, next, live && Leaves(es[i], top), top);
    }
  }

  lemma {:induction false} FormDead(e: Form, t: bool, live: bool, top: bool)
    requires Level(e, t, live, top)
    ensures Level(e, t, false, top)
    decreases e
  {
    match e
    case Def(_, init) => FormDead(init, t, live, top);
    case If(test, thn, els) =>
      if LiteralTest(test).None? { FormDead(test, t, live, top); }
      var on := if LiteralTest(test).None? then live && Leaves(test, top) else live;
      if LiteralTest(test) != Some(false) { FormDead(thn, t, on, top); }
      if LiteralTest(test) != Some(true) && els.Some? { FormDead(els.value, t, on, top); }
    case Do(es) => LevelDead(es, 0, t, t, live, top);
    case And(es) => LevelDead(es, 0, t, t, live, top);
    case Or(es) => LevelDead(es, 0, t, t, live, top);
    case Let(bs, body) => InitsDead(bs, 0, t, live); LevelDead(body, 0, t, t, live && LeavesInits(bs, 0), false);
    case Loop(bs, body) => InitsDead(bs, 0, t, live); LevelDead(body, 0, true, true, live && LeavesInits(bs, 0), false);
    case Recur(args) => LevelDead(args, 0, t, false, live, top);
    case Call(head, args) => FormDead(head, t, live, top); LevelDead(args, 0, false, false, live && Leaves(head, top), top);
    case Throw(x) => FormDead(x, t, live, top);
    case Try(body, catches, fin) =>
      LevelDead(body, 0, false, false, live, false);
      ClausesDead(catches, 0, live);
      if fin.Finally? { LevelDead(fin.forms, 0, false, false, live, false); }
    case _ =>
  }

  lemma {:induction false} InitsDead(bs: seq<Binding>, i: nat, t: bool, live: bool)
    requires i <= |bs| && LevelInits(bs, i, t, live)
    ensures LevelInits(bs, i, t, false)
    decreases bs, |bs| - i
  {
    if i < |bs| {
      FormDead(bs[i].init, t, live, false);
      InitsDead(bs, i + 1, t, live && Leaves(bs[i].init, false));
    }
  }

  lemma {:induction false} ClausesDead(cs: seq<Clause>, i: nat, live: bool)
    requires i <= |cs| && LevelClauses(cs, i, live)
    ensures LevelClauses(cs, i, false)
    decreases cs, |cs| - i
  {
    if i < |cs| {
      LevelDead(cs[i].body, 0, false, false, live, false);
      ClausesDead(cs, i + 1, live);
    }
  }

  lemma {:induction false} FlowTry(e: Form, t: bool, rc: RecurCtx, sc: Scopes, rt: Target, pos: nat, d: int, rd: int) returns (D: seq<int>)
    requires e.Try? && sc.Inner? && Check(e, rc, false) == None && d >= -1 && Level(e, t, d >= 0, false)
    ensures FlowFromTo(Compile(e, sc, rt, pos).code, D, pos, rt, rd, d, Up(d, Leaves(e, false)))
    decreases e, 0
  {
    TryLevel(e, t, rc, d >= 0);
    hide Flow, FlowFromTo, ExactModule, CompileCatches, CompileEffects, CheckAll, LevelAll, LeavesAll, CheckClauses, LevelClauses, LeavesClause, Check, Level, Leaves;
    if e.fin.NoFinally? { D := FlowCatches(e, rc, sc, pos, d, rt, rd); TryBare(e, sc, rt, pos); }
    else { D := FlowFinally(e, rc, sc, rt, pos, d, rd, Up(d, LeavesAll(e.body, 0, false) || LeavesClause(e.catches, 0))); }
  }

  lemma TryBare(e: Form, sc: Scopes, rt: Target, pos: nat)
    requires e.Try? && e.fin.NoFinally? && sc.Inner?
    ensures Compile(e, sc, rt, pos) == CompileCatches(e, sc, pos)
  {
    hide CompileCatches;
  }

  lemma TryFinal(e: Form, sc: Scopes, rt: Target, pos: nat, t: Piece, n: Piece)
    requires e.Try? && sc.Inner? && e.fin.Finally? && t == CompileCatches(e, sc, pos + 1)
    requires n == CompileEffects(e.fin.forms, 0, t.sc, pos + 1 + |t.code| + 1)
    ensures t.sc.Inner? && n.sc.Inner?
    ensures var slot := n.sc.top.nextSlot;
            var x := CompileEffects(e.fin.forms, 0, Reserve(n.sc), pos + 1 + |t.code| + 1 + |n.code| + 2);
            Compile(e, sc, rt, pos) ==
              Piece([TryBegin(|t.code| + 1 + |n.code| + 1)] + t.code + [TryEnd] + n.code + [Jump(|x.code| + 2)] +
                    [StoreCaught(slot)] + x.code + [Rethrow(slot)], x.sc)
  {
    hide CompileCatches, CompileEffects;
  }

  lemma {:induction false} FlowFinally(e: Form, rc: RecurCtx, sc: Scopes, rt: Target, pos: nat, d: int, rd: int, mt: int) returns (D: seq<int>)
    requires e.Try? && sc.Inner? && e.fin.Finally? && d >= -1
    requires CheckAll(e.body, 0, IntoTry(rc), false) == None && LevelAll(e.body, 0, false, false, d >= 0, false)
    requires CheckClauses(e.catches, 0, IntoTry(rc)) == None && LevelClauses(e.catches, 0, d >= 0)
    requires CheckAll(e.fin.forms, 0, IntoTry(rc), false) == None && LevelAll(e.fin.forms, 0, false, false, d >= 0, false)
    requires mt == Up(d, LeavesAll(e.body, 0, false) || LeavesClause(e.catches, 0))
    ensures FlowFromTo(Compile(e, sc, rt, pos).code, D, pos, rt, rd, d, Several(mt, 0, LeavesAll(e.fin.forms, 0, false)))
    decreases e, 0, 1
  {
    hide Flow, FlowFromTo, ExactModule, CompileCatches, CompileEffects, CheckAll, LevelAll, LeavesAll, CheckClauses, LevelClauses, LeavesClause, Compile;
    var tr := CompileCatches(e, sc, pos + 1);
    var n := CompileEffects(e.fin.forms, 0, tr.sc, pos + 1 + |tr.code| + 1);
    var at := pos + 1 + |tr.code| + 1 + |n.code| + 2;
    TryFinal(e, sc, rt, pos, tr, n);
    var x := CompileEffects(e.fin.forms, 0, Reserve(n.sc), at);
    if mt < 0 { LevelDead(e.fin.forms, 0, false, false, d >= 0, false); }
    var Dt := FlowCatches(e, rc, sc, pos + 1, d, rt, rd);
    var Dn := FlowEffects(e.fin.forms, 0, IntoTry(rc), tr.sc, pos + 1 + |tr.code| + 1, mt, rt, rd);
    var Dx := FlowEffects(e.fin.forms, 0, IntoTry(rc), Reserve(n.sc), at, d, rt, rd);
    D := FinallyFlow(tr.code, Dt, n.code, Dn, n.sc.top.nextSlot, x.code, Dx, pos, rt, rd, d, mt,
                     Several(mt, 0, LeavesAll(e.fin.forms, 0, false)), Several(d, 0, LeavesAll(e.fin.forms, 0, false)));
  }

  lemma FinallyFlow(t: seq<Instr>, Dt: seq<int>, n: seq<Instr>, Dn: seq<int>, slot: nat, x: seq<Instr>, Dx: seq<int>,
                    pos: nat, rt: Target, rd: int, d: int, mt: int, mn: int, mx: int) returns (D: seq<int>)
    requires d >= -1 && (mt == Up(d, true) || mt == -1) && (mn == mt || mn == -1)
    requires FlowFromTo(t, Dt, pos + 1, rt, rd, d, mt)
    requires FlowFromTo(n, Dn, pos + 1 + |t| + 1, rt, rd, mt, mn)
    requires FlowFromTo(x, Dx, pos + 1 + |t| + 1 + |n| + 2, rt, rd, d, mx)
    ensures FlowFromTo([TryBegin(|t| + 1 + |n| + 1)] + t + [TryEnd] + n + [Jump(|x| + 2)] + [StoreCaught(slot)] + x + [Rethrow(slot)],
                       D, pos, rt, rd, d, mn)
  {
    hide ExactModule, Leads;
    var p := pos + 1 + |t|;
    var h, Dh := HandlerFlow(slot, x, Dx, p + 1 + |n| + 1, rt, rd, d, mx);
    if mn >= 0 { Dh := SetEnd(h, Dh, p + 1 + |n| + 1, rt, rd, Up(d, true), mn); }
    var D1 := Across(n, Dn, Jump(|x| + 2), mn, h, Dh, p + 1, rt, rd, mt, mn);
    var c1 := n + [Jump(|x| + 2)] + h;
    var D2 := Across(t, Dt, TryEnd, mt, c1, D1, pos + 1, rt, rd, d, mn);
    var c2 := t + [TryEnd] + c1;
    assert D1[|n| + 1..] == Dh;
    assert D2[|t| + 1..] == D1;
    assert D2[|t| + 1 + |n| + 1] == Up(d, true);
    D := Before(TryBegin(|t| + 1 + |n| + 1), d, c2, D2, pos, rt, rd);
    FinallyGrouped(TryBegin(|t| + 1 + |n| + 1), t, n, Jump(|x| + 2), StoreCaught(slot), x, Rethrow(slot));
  }

  lemma FinallyGrouped(i: Instr, t: seq<Instr>, n: seq<Instr>, j: Instr, k: Instr, x: seq<Instr>, l: Instr)
    ensures [i] + (t + [TryEnd] + (n + [j] + ([k] + (x + [l])))) == [i] + t + [TryEnd] + n + [j] + [k] + x + [l]
  {
  }

  /** A handler's code: the exception stored, forms run, the exception raised
      again. */
  lemma HandlerFlow(slot: nat, x: seq<Instr>, Dx: seq<int>, pos: nat, rt: Target, rd: int, d: int, m: int)
    returns (h: seq<Instr>, D: seq<int>)
    requires FlowFromTo(x, Dx, pos + 1, rt, rd, d, m)
    ensures h == [StoreCaught(slot)] + (x + [Rethrow(slot)]) && FlowFromTo(h, D, pos, rt, rd, Up(d, true), -1)
  {
    hide ExactModule, Leads;
    D := Ended(x, Dx, Rethrow(slot), m, -1, pos + 1, rt, rd, d);
    D := Before(StoreCaught(slot), Up(d, true), x + [Rethrow(slot)], D, pos, rt, rd);
    h := [StoreCaught(slot)] + (x + [Rethrow(slot)]);
  }

  lemma {:induction false} FlowCatches(e: Form, rc: RecurCtx, sc: Scopes, pos: nat, d: int, rt: Target, rd: int) returns (D: seq<int>)
    requires e.Try? && sc.Inner? && d >= -1
    requires CheckAll(e.body, 0, IntoTry(rc), false) == None && LevelAll(e.body, 0, false, false, d >= 0, false)
    requires CheckClauses(e.catches, 0, IntoTry(rc)) == None && LevelClauses(e.catches, 0, d >= 0)
    ensures FlowFromTo(CompileCatches(e, sc, pos).code, D, pos, rt, rd, d, Up(d, LeavesAll(e.body, 0, false) || LeavesClause(e.catches, 0)))
    decreases e, 0, 0
  {
    hide Flow, FlowFromTo, ExactModule, CompileBody, CompileClauses, CheckAll, LevelAll, LeavesAll, CheckClauses, LevelClauses;
    var mb := Up(d, LeavesAll(e.body, 0, false));
    if |e.catches| == 0 {
      D := FlowBody(e.body, 0, false, IntoTry(rc), sc, NoTarget, pos, d, rd);
      NoJumpOut(CompileBody(e.body, 0, sc, NoTarget, pos).code, D, pos, rt, rd, d, mb);
    } else {
      var b := CompileBody(e.body, 0, sc, NoTarget, pos + 1);
      var slot := b.sc.top.nextSlot;
      var at := pos + 1 + |b.code| + 3;
      var c := CompileClauses(e.catches, 0, slot, Reserve(b.sc), at);
      var Db := FlowBody(e.body, 0, false, IntoTry(rc), sc, NoTarget, pos + 1, d, rd);
      NoJumpOut(b.code, Db, pos + 1, rt, rd, d, mb);
      var Dc := FlowClauses(e.catches, 0, slot, rc, Reserve(b.sc), at, d, rt, rd);
      D := CatchFlow(b.code, Db, slot, c.code, Dc, pos, rt, rd, d, mb, Up(d, LeavesClause(e.catches, 0)));
    }
  }

  lemma CatchFlow(b: seq<Instr>, Db: seq<int>, slot: nat, c: seq<Instr>, Dc: seq<int>, pos: nat, rt: Target, rd: int, d: int, mb: int, mc: int)
    returns (D: seq<int>)
    requires d >= -1 && (mb == Up(d, true) || mb == -1) && (mc == Up(d, true) || mc == -1)
    requires FlowFromTo(b, Db, pos + 1, rt, rd, d, mb)
    requires FlowFromTo(c + [Rethrow(slot)], Dc, pos + 1 + |b| + 3, rt, rd, d, mc)
    ensures FlowFromTo([TryBegin(|b| + 2)] + b + [TryEnd, Jump(|c| + 2)] + [StoreCaught(slot)] + c + [Rethrow(slot)],
                       D, pos, rt, rd, d, Either(mb, mc))
  {
    hide ExactModule, Leads;
    var p := pos + 1 + |b|;
    var h := [StoreCaught(slot)] + (c + [Rethrow(slot)]);
    var Dh := Before(StoreCaught(slot), Up(d, true), c + [Rethrow(slot)], Dc, p + 2, rt, rd);
    if mb >= 0 && mc < 0 { Dh := SetEnd(h, Dh, p + 2, rt, rd, Up(d, true), mb); }
    var D1 := Before(Jump(|c| + 2), mb, h, Dh, p + 1, rt, rd);
    var D2 := Across(b, Db, TryEnd, mb, [Jump(|c| + 2)] + h, D1, pos + 1, rt, rd, d, Either(mb, mc));
    var c2 := b + [TryEnd] + ([Jump(|c| + 2)] + h);
    assert D2[|b| + 1..] == D1;
    assert D2[|b| + 2] == D1[1] == Dh[0] == Up(d, true);
    D := Before(TryBegin(|b| + 2), d, c2, D2, pos, rt, rd);
    CatchGrouped(TryBegin(|b| + 2), b, Jump(|c| + 2), StoreCaught(slot), c, Rethrow(slot));
  }

  lemma CatchGrouped(i: Instr, b: seq<Instr>, j: Instr, k: Instr, c: seq<Instr>, l: Instr)
    ensures [i] + (b + [TryEnd] + ([j] + ([k] + (c + [l])))) == [i] + b + [TryEnd, j] + [k] + c + [l]
  {
  }

  lemma {:induction false} FlowClauses(cs: seq<Clause>, i: nat, slot: nat, rc: RecurCtx, sc: Scopes, pos: nat, d: int, rt: Target, rd: int)
    returns (D: seq<int>)
    requires i <= |cs| && sc.Inner? && CheckClauses(cs, i, IntoTry(rc)) == None && d >= -1 && LevelClauses(cs, i, d >= 0)
    ensures FlowFromTo(CompileClauses(cs, i, slot, sc, pos).code + [Rethrow(slot)], D, pos, rt, rd, d, Up(d, LeavesClause(cs, i)))
    decreases cs, |cs| - i
  {
    hide Flow, FlowFromTo, ExactModule, CompileBody, CheckAll, LevelAll, LeavesAll;
    if i == |cs| {
      D := One(Rethrow(slot), d, -1, pos, rt, rd);
      assert [] + [Rethrow(slot)] == [Rethrow(slot)];
    } else {
      var al := Alias(sc, cs[i].name, slot);
      var b := CompileBody(cs[i].body, 0, al, NoTarget, pos + 3);
      var sc1 := Restore(b.sc, cs[i].name, sc);
      var p := pos + 3 + |b.code| + 1;
      var rest := CompileClauses(cs, i + 1, slot, sc1, p);
      var mb := Up(d, LeavesAll(cs[i].body, 0, false));
      var Db := FlowBody(cs[i].body, 0, false, IntoTry(rc), al, NoTarget, pos + 3, d, rd);
      NoJumpOut(b.code, Db, pos + 3, rt, rd, d, mb);
      var Dr := FlowClauses(cs, i + 1, slot, rc, sc1, p, d, rt, rd);
      D := ClauseFlow(slot, cs[i].classId, b.code, Db, rest.code, Dr, pos, rt, rd, d, mb, Up(d, LeavesClause(cs, i + 1)));
    }
  }

  lemma ClauseFlow(slot: nat, classId: nat, b: seq<Instr>, Db: seq<int>, r: seq<Instr>, Dr: seq<int>, pos: nat, rt: Target, rd: int,
                   d: int, mb: int, mr: int)
    returns (D: seq<int>)
    requires d >= -1 && (mb == Up(d, true) || mb == -1) && (mr == Up(d, true) || mr == -1)
    requires FlowFromTo(b, Db, pos + 3, rt, rd, d, mb)
    requires FlowFromTo(r + [Rethrow(slot)], Dr, pos + 3 + |b| + 1, rt, rd, d, mr)
    ensures FlowFromTo([PushLocal(slot), ExcMatch(classId), JumpIfFalse(|b| + 1)] + b + [Jump(|r| + 1)] + r + [Rethrow(slot)],
                       D, pos, rt, rd, d, Either(mb, mr))
  {
    hide ExactModule, Leads;
    var r1 := r + [Rethrow(slot)];
    var Dr1 := Dr;
    if mb >= 0 && mr < 0 { Dr1 := SetEnd(r1, Dr, pos + 3 + |b| + 1, rt, rd, d, mb); }
    var D0 := Across(b, Db, Jump(|r| + 1), mb, r1, Dr1, pos + 3, rt, rd, d, Either(mb, mr));
    var c0 := b + [Jump(|r| + 1)] + r1;
    assert D0[|b| + 1..] == Dr1;
    assert D0[|b| + 1] == d;
    D := TestFlow(slot, classId, |b| + 1, c0, D0, pos, rt, rd, d);
    assert [PushLocal(slot)] + ([ExcMatch(classId)] + ([JumpIfFalse(|b| + 1)] + c0)) ==
      [PushLocal(slot), ExcMatch(classId), JumpIfFalse(|b| + 1)] + b + [Jump(|r| + 1)] + r + [Rethrow(slot)];
  }

  /** The class test before a clause's code. */
  lemma TestFlow(slot: nat, classId: nat, off: nat, c: seq<Instr>, Dc: seq<int>, pos: nat, rt: Target, rd: int, d: int) returns (D: seq<int>)
    requires Flow(c, Dc, pos + 3, rt, rd) && d >= -1 && off <= |c| && Dc[0] == d && Dc[off] == d
    ensures FlowFromTo([PushLocal(slot)] + ([ExcMatch(classId)] + ([JumpIfFalse(off)] + c)), D, pos, rt, rd, d, Dc[|c|])
  {
    hide ExactModule, Leads;
    var u := Up(d, true);
    var D1 := Before(JumpIfFalse(off), u, c, Dc, pos + 2, rt, rd);
    var D2 := Before(ExcMatch(classId), u, [JumpIfFalse(off)] + c, D1, pos + 1, rt, rd);
    D := Before(PushLocal(slot), d, [ExcMatch(classId)] + ([JumpIfFalse(off)] + c), D2, pos, rt, rd);
  }

  /** Every body of an accepted top-level form, however deep, has one depth at
      each instruction that is reached: its analysis ends, and finds that
      depth. */
  lemma AcceptedExact(e: Form)
    requires Accepted(e)
    ensures ExactModule(TopModule(e))
  {
    hide Flow, ExactModule, Compile, Check, Level, Leaves;
    CheckAtTop(e, NoLoop);
    CompileAtTop(e, NoTarget, 0);
    var r := Compile(AtTop(e), NoScope, NoTarget, 0);
    var D := FlowForm(AtTop(e), false, NoLoop, NoScope, NoTarget, 0, 0, 0);
    var d1 := Up(0, Leaves(AtTop(e), true));
    NoJumpOut(r.code, D, 0, Target(0, []), 0, 0, d1);
    BodyExact(r.code, D, Target(0, []), d1);
    ModuleExact(TopModule(e), r.code, D);
  }

  /** The analysis of a compiled body: each instruction's depth, or -1 where
      no path leads. */
  method CompiledStack(m: Module) returns (maxStack: nat, depth: seq<int>)
    requires ExactModule(m)
    ensures Consistent(m.code, depth) && Deepest(m.code, depth, maxStack) && Attained(m.code, depth, maxStack)
    ensures forall D | Exact(m.code, D) :: forall i | 0 <= i < |m.code| :: depth[i] == -1 || depth[i] == D[i]
  {
    ghost var D :| Exact(m.code, D);
    ExactConsistent(m.code, D);
    maxStack, depth := ComputeMaxStack(m.code, D);
    forall E | Exact(m.code, E)
      ensures forall i | 0 <= i < |m.code| :: depth[i] == -1 || depth[i] == E[i]
    {
      OneDepth(m.code, E, depth);
    }
  }
}
