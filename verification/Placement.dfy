/** How the code of each form is made of the code of its parts, and the scopes
    they are compiled in. */
module Placement {
  import opened Options
  import opened Syntax
  import opened Bytecode
  import opened Codegen
  import opened Scoping
  import opened ScopingProof

  function SlotsOf(sc: Scopes): nat { if sc.Inner? then sc.top.nextSlot else 0 }

  lemma ExtendsFrom(a: Scopes, b: Scopes, fin: Scope)
    requires Grows(a, b) && (b.Inner? ==> Extends(b.top, fin))
    ensures a.Inner? ==> Extends(a.top, fin)
  {
    if a.Inner? { ExtendsTrans(a.top, b.top, fin); }
  }

  lemma {:induction false} ParamNamesLast(params: seq<string>, n: nat, x: string)
    requires n <= |params| && x in ParamNames(params, n)
    ensures LastAt(params[..n], x, ParamNames(params, n)[x])
  {
    if params[n - 1] != x {
      ParamNamesLast(params, n - 1, x);
      var j := ParamNames(params, n - 1)[x];
      assert params[..n][j + 1..] == params[..n - 1][j + 1..] + [params[n - 1]];
    }
  }

  lemma ParamsNamed(params: seq<string>)
    ensures LoopNames(ParamScope(params), params, Upto(|params|))
  {
    ParamNamesFacts(params, |params|);
    forall x | x in ParamScope(params).names
      ensures x in params
      ensures exists j :: LastAt(params, x, j) && Upto(|params|)[j] == ParamScope(params).names[x]
    {
      ParamNamesLast(params, |params|, x);
      assert params[..|params|] == params;
    }
  }

  lemma ExtendsSelf(a: Scope)
    ensures Extends(a, a)
  {
  }

  lemma GrowsSlots(a: Scopes, b: Scopes)
    requires Grows(a, b)
    ensures SlotsOf(a) <= SlotsOf(b) && a.Inner? == b.Inner?
  {
  }

  lemma IfCode(code: seq<Instr>, pos: nat, c: seq<Instr>, j: Instr, t: seq<Instr>, k: Instr, f: seq<Instr>)
    requires CodeAt(code, pos, c + [j] + t + [k] + f)
    ensures CodeAt(code, pos, c) && CodeAt(code, pos + |c|, [j]) && CodeAt(code, pos + |c| + 1, t)
    ensures CodeAt(code, pos + |c| + 1 + |t|, [k]) && CodeAt(code, pos + |c| + 1 + |t| + 1, f)
  {
    CodeAtSplit(code, pos, c + [j] + t + [k], f);
    CodeAtSplit(code, pos, c + [j] + t, [k]);
    CodeAtSplit(code, pos, c + [j], t);
    CodeAtSplit(code, pos, c, [j]);
  }

  lemma IfChecked(e: Form, t: bool, rc: RecurCtx, top: bool)
    requires e.If? && Check(e, rc, top) == None && Level(e, t, true, top)
    ensures LiteralTest(e.test) != Some(false) ==> Check(e.thn, rc, top) == None
    ensures LiteralTest(e.test) != Some(true) && e.els.Some? ==> Check(e.els.value, rc, top) == None
    ensures LiteralTest(e.test) == None ==> Check(e.test, rc, top) == None && Level(e.test, t, true, top)
    ensures LiteralTest(e.test) != None || Leaves(e.test, top) ==>
              && (LiteralTest(e.test) != Some(false) ==> Level(e.thn, t, true, top))
              && (LiteralTest(e.test) != Some(true) && e.els.Some? ==> Level(e.els.value, t, true, top))
  {
  }

  lemma IfCompiled(e: Form, sc: Scopes, rt: Target, pos: nat, r: Piece, th: Piece, el: Piece)
    requires e.If?
    requires r == Compile(e.test, sc, rt, pos) && th == Compile(e.thn, r.sc, rt, pos + |r.code| + 1)
    requires el == CompileElse(e.els, th.sc, rt, pos + |r.code| + 1 + |th.code| + 1)
    ensures LiteralTest(e.test) == None ==>
              Compile(e, sc, rt, pos) ==
                Piece(r.code + [JumpIfFalse(|th.code| + 1)] + th.code + [Jump(|el.code|)] + el.code, el.sc)
    ensures LiteralTest(e.test) == Some(true) ==> Compile(e, sc, rt, pos) == Compile(e.thn, sc, rt, pos)
    ensures LiteralTest(e.test) == Some(false) ==> Compile(e, sc, rt, pos) == CompileElse(e.els, sc, rt, pos)
  {
    hide CompileElse;
  }

  lemma ThreeInstrs(code: seq<Instr>, pos: nat, i: Instr, j: Instr, k: Instr)
    requires CodeAt(code, pos, [i, j, k])
    ensures CodeAt(code, pos, [i]) && CodeAt(code, pos + 1, [j]) && CodeAt(code, pos + 2, [k])
  {
    assert [i, j, k] == [i] + [j] + [k];
    CodeAtSplit(code, pos, [i] + [j], [k]);
    CodeAtSplit(code, pos, [i], [j]);
  }

  lemma BindExtends(c: Scopes, x: string, fin: Scope)
    requires c.Inner? && Extends(Bind(c, x).top, fin)
    ensures Extends(c.top, fin)
  {
    ExtendsTrans(c.top, Bind(c, x).top, fin);
  }

  predicate LastAt(names: seq<string>, x: string, j: int) {
    0 <= j < |names| && names[j] == x && x !in names[j + 1..]
  }

  /** `slots` are the slots of `names`, a repeated name meaning its last one;
      no other name has one of them. */
  ghost predicate LoopNames(top: Scope, names: seq<string>, slots: seq<nat>) {
    && |names| == |slots|
    && (forall j | 0 <= j < |names| :: names[j] in top.names)
    && (forall x | x in top.names ::
          if x in names then exists j :: LastAt(names, x, j) && slots[j] == top.names[x]
          else top.names[x] !in slots)
  }

  lemma LoopNamesGrow(sc: Scopes, sc1: Scopes, names: seq<string>, slots: seq<nat>)
    requires sc.Inner? && Grows(sc, sc1) && LoopNames(sc.top, names, slots)
    requires forall s | s in slots :: s < sc.top.nextSlot
    ensures LoopNames(sc1.top, names, slots)
  {
    forall x | x in sc1.top.names
      ensures if x in names then exists j :: LastAt(names, x, j) && slots[j] == sc1.top.names[x]
              else sc1.top.names[x] !in slots
    {
      if x !in sc.top.names { assert CapturedAfter(x, |sc.top.captures|, sc1.top); }
    }
  }

  lemma LoopNamesBind(sc: Scopes, y: string, names: seq<string>, slots: seq<nat>)
    requires sc.Inner? && WellFormed(sc) && LoopNames(sc.top, names, slots)
    requires forall s | s in slots :: s < sc.top.nextSlot
    ensures LoopNames(Bind(sc, y).top, names + [y], slots + [sc.top.nextSlot])
  {
    var sc1 := Bind(sc, y);
    var names1, slots1 := names + [y], slots + [sc.top.nextSlot];
    forall x | x in sc1.top.names
      ensures if x in names1 then exists j :: LastAt(names1, x, j) && slots1[j] == sc1.top.names[x]
              else sc1.top.names[x] !in slots1
    {
      if x == y {
        assert LastAt(names1, x, |names|);
      } else if x in names {
        var j :| LastAt(names, x, j) && slots[j] == sc.top.names[x];
        assert names1[j + 1..] == names[j + 1..] + [y];
        assert LastAt(names1, x, j);
      }
    }
  }

  lemma LastAtUnique(names: seq<string>, x: string, i: int, j: int)
    requires LastAt(names, x, i) && LastAt(names, x, j)
    ensures i == j
  {
    Later(names, i, j);
    Later(names, j, i);
  }

  lemma Later(names: seq<string>, i: int, j: int)
    requires 0 <= i < |names| && 0 <= j < |names|
    ensures i < j ==> names[j] in names[i + 1..]
  {
    if i < j { assert names[i + 1..][j - i - 1] == names[j]; }
  }

  lemma {:induction false} StoresDownLength(slots: seq<nat>, n: nat)
    requires n <= |slots|
    ensures |StoresDown(slots, n)| == n
  {
    if n > 0 { StoresDownLength(slots, n - 1); }
  }

  lemma RecurCompiled(e: Form, sc: Scopes, rt: Target, pos: nat, rc: RecurCtx, r: Piece)
    requires e.Recur? && Check(e, rc, sc.NoScope?) == None
    requires rt.Target? && |rt.slots| == rc.arity && rt.start <= pos
    requires r == CompileArgs(e.args, 0, sc, rt, pos)
    ensures rc.InLoop? && !rc.acrossTry && |e.args| == |rt.slots| && sc.Inner?
    ensures CheckAll(e.args, 0, rc, sc.NoScope?) == None
    ensures Compile(e, sc, rt, pos) ==
              Piece(r.code + StoresDown(rt.slots, |rt.slots|) + [JumpBack(pos + |r.code| + |rt.slots| + 1 - rt.start)], r.sc)
  {
  }

  lemma ReadsFrom(caps: seq<Capture>, i: nat)
    requires i < |caps|
    ensures ReadCaptures(caps)[i..] == [PushLocal(caps[i].parentSlot)] + ReadCaptures(caps)[i + 1..]
  {
  }

  lemma BodyChecked(es: seq<Form>, i: nat, rc: RecurCtx, top: bool, t: bool)
    requires i < |es| && CheckAll(es, i, rc, top) == None && LevelAll(es, i, t, t, true, top)
    ensures Check(es[i], rc, top) == None && CheckAll(es, i + 1, rc, top) == None && Level(es[i], t, true, top)
    ensures Leaves(es[i], top) ==> LevelAll(es, i + 1, t, t, true, top)
  {
    hide Check, Level;
  }

  function ChainInstrs(conj: bool, over: nat): seq<Instr> {
    [Dup, if conj then JumpIfFalse(over) else JumpIfTrue(over), Pop]
  }

  lemma ChainCompiled(es: seq<Form>, i: nat, conj: bool, sc: Scopes, rt: Target, pos: nat, r: Piece)
    requires i < |es| && r == Compile(es[i], sc, rt, pos)
    ensures CompileChain(es, i, conj, sc, rt, pos) ==
              if i + 1 == |es| then r else
              var rest := CompileChain(es, i + 1, conj, r.sc, rt, pos + |r.code| + 3);
              Piece(r.code + ChainInstrs(conj, |rest.code| + 1) + rest.code, rest.sc)
  {
    hide Compile;
  }

  lemma LetBodyCompiled(e: Form, sc: Scopes, rt: Target, pos: nat)
    requires e.Let? && sc.Inner?
    ensures CompileLet(e, |e.bs|, sc, rt, pos) == CompileBody(e.body, 0, sc, rt, pos)
  {
    hide CompileBody;
  }

  lemma LoopBodyCompiled(e: Form, slots: seq<nat>, sc: Scopes, rt: Target, pos: nat)
    requires e.Loop? && sc.Inner?
    ensures CompileLoop(e, |e.bs|, slots, sc, rt, pos) == CompileBody(e.body, 0, sc, Target(pos, slots), pos)
  {
    hide CompileBody;
  }

  lemma LetCompiled(e: Form, i: nat, sc: Scopes, rt: Target, pos: nat, r: Piece)
    requires e.Let? && sc.Inner? && i < |e.bs| && r == Compile(e.bs[i].init, sc, rt, pos)
    ensures r.sc.Inner?
    ensures var rest := CompileLet(e, i + 1, Bind(r.sc, e.bs[i].name), rt, pos + |r.code| + 1);
            CompileLet(e, i, sc, rt, pos) ==
              Piece(r.code + [StoreLocal(r.sc.top.nextSlot)] + rest.code, Restore(rest.sc, e.bs[i].name, r.sc))
  {
    hide Compile, Bind, Restore;
  }

  lemma LoopCompiled(e: Form, i: nat, slots: seq<nat>, sc: Scopes, rt: Target, pos: nat, r: Piece)
    requires e.Loop? && sc.Inner? && i < |e.bs| && r == Compile(e.bs[i].init, sc, rt, pos)
    ensures r.sc.Inner?
    ensures var rest := CompileLoop(e, i + 1, slots + [r.sc.top.nextSlot], Bind(r.sc, e.bs[i].name), rt, pos + |r.code| + 1);
            CompileLoop(e, i, slots, sc, rt, pos) ==
              Piece(r.code + [StoreLocal(r.sc.top.nextSlot)] + rest.code, Restore(rest.sc, e.bs[i].name, r.sc))
  {
    hide Compile, Bind, Restore;
  }

  /** A `try` is never in the scope of the `recur` target around it. */
  lemma TryAnywhere(e: Form, sc: Scopes, rt: Target, pos: nat)
    requires e.Try? && sc.Inner?
    ensures Compile(e, sc, rt, pos) == Compile(e, sc, NoTarget, pos)
  {
    hide CompileCatches, CompileEffects;
  }

  lemma TryChecked(e: Form, rc: RecurCtx, t: bool)
    requires e.Try? && Check(e, rc, false) == None && Level(e, t, true, false)
    ensures CheckAll(e.body, 0, IntoTry(rc), false) == None && LevelAll(e.body, 0, false, false, true, false)
    ensures CheckClauses(e.catches, 0, IntoTry(rc)) == None && LevelClauses(e.catches, 0, true)
    ensures e.fin.Finally? ==> CheckAll(e.fin.forms, 0, IntoTry(rc), false) == None && LevelAll(e.fin.forms, 0, false, false, true, false)
  {
    hide CheckAll, LevelAll, CheckClauses, LevelClauses;
  }

  lemma ClausesChecked(cs: seq<Clause>, i: nat, rc: RecurCtx)
    requires i < |cs| && CheckClauses(cs, i, rc) == None && LevelClauses(cs, i, true)
    ensures CheckAll(cs[i].body, 0, rc, false) == None && LevelAll(cs[i].body, 0, false, false, true, false)
    ensures CheckClauses(cs, i + 1, rc) == None && LevelClauses(cs, i + 1, true)
  {
    hide CheckAll, LevelAll;
  }

  lemma CatchCode(code: seq<Instr>, pos: nat, i0: Instr, b: seq<Instr>, i1: Instr, i2: Instr, i3: Instr, c: seq<Instr>, i4: Instr)
    requires CodeAt(code, pos, [i0] + b + [i1, i2] + [i3] + c + [i4])
    ensures CodeAt(code, pos, [i0]) && CodeAt(code, pos + 1, b)
    ensures CodeAt(code, pos + 1 + |b|, [i1]) && CodeAt(code, pos + 1 + |b| + 1, [i2]) && CodeAt(code, pos + 1 + |b| + 2, [i3])
    ensures CodeAt(code, pos + 1 + |b| + 3, c) && CodeAt(code, pos + 1 + |b| + 3 + |c|, [i4])
  {
    hide CodeAt;
    CodeAtSplit(code, pos, [i0] + b + [i1, i2] + [i3] + c, [i4]);
    CodeAtSplit(code, pos, [i0] + b + [i1, i2] + [i3], c);
    CodeAtSplit(code, pos, [i0] + b + [i1, i2], [i3]);
    CodeAtSplit(code, pos, [i0] + b, [i1, i2]);
    CodeAtSplit(code, pos, [i0], b);
    assert [i1, i2] == [i1] + [i2];
    CodeAtSplit(code, pos + 1 + |b|, [i1], [i2]);
  }

  lemma FinallyCode(code: seq<Instr>, pos: nat, i0: Instr, t: seq<Instr>, i1: Instr, n: seq<Instr>, i2: Instr, i3: Instr,
                    x: seq<Instr>, i4: Instr)
    requires CodeAt(code, pos, [i0] + t + [i1] + n + [i2] + [i3] + x + [i4])
    ensures CodeAt(code, pos, [i0]) && CodeAt(code, pos + 1, t)
    ensures CodeAt(code, pos + 1 + |t|, [i1]) && CodeAt(code, pos + 1 + |t| + 1, n)
    ensures CodeAt(code, pos + 1 + |t| + 1 + |n|, [i2]) && CodeAt(code, pos + 1 + |t| + 1 + |n| + 1, [i3])
    ensures CodeAt(code, pos + 1 + |t| + 1 + |n| + 2, x) && CodeAt(code, pos + 1 + |t| + 1 + |n| + 2 + |x|, [i4])
  {
    hide CodeAt;
    CodeAtSplit(code, pos, [i0] + t + [i1] + n + [i2] + [i3] + x, [i4]);
    CodeAtSplit(code, pos, [i0] + t + [i1] + n + [i2] + [i3], x);
    CodeAtSplit(code, pos, [i0] + t + [i1] + n + [i2], [i3]);
    CodeAtSplit(code, pos, [i0] + t + [i1] + n, [i2]);
    CodeAtSplit(code, pos, [i0] + t + [i1], n);
    CodeAtSplit(code, pos, [i0] + t, [i1]);
    CodeAtSplit(code, pos, [i0], t);
  }

  lemma ClauseCode(code: seq<Instr>, pos: nat, i0: Instr, i1: Instr, i2: Instr, b: seq<Instr>, i3: Instr, r: seq<Instr>)
    requires CodeAt(code, pos, [i0, i1, i2] + b + [i3] + r)
    ensures CodeAt(code, pos, [i0]) && CodeAt(code, pos + 1, [i1]) && CodeAt(code, pos + 2, [i2])
    ensures CodeAt(code, pos + 3, b) && CodeAt(code, pos + 3 + |b|, [i3]) && CodeAt(code, pos + 3 + |b| + 1, r)
  {
    hide CodeAt;
    CodeAtSplit(code, pos, [i0, i1, i2] + b + [i3], r);
    CodeAtSplit(code, pos, [i0, i1, i2] + b, [i3]);
    CodeAtSplit(code, pos, [i0, i1, i2], b);
    ThreeInstrs(code, pos, i0, i1, i2);
  }

  lemma ClausesCompiled(cs: seq<Clause>, i: nat, slot: nat, sc: Scopes, pos: nat, b: Piece)
    requires sc.Inner? && i < |cs| && b == CompileBody(cs[i].body, 0, Alias(sc, cs[i].name, slot), NoTarget, pos + 3)
    ensures b.sc.Inner?
    ensures var rest := CompileClauses(cs, i + 1, slot, Restore(b.sc, cs[i].name, sc), pos + 3 + |b.code| + 1);
            CompileClauses(cs, i, slot, sc, pos) ==
              Piece([PushLocal(slot), ExcMatch(cs[i].classId), JumpIfFalse(|b.code| + 1)] +
                    b.code + [Jump(|rest.code| + 1)] + rest.code, rest.sc)
  {
    hide CompileBody, Restore;
  }

  /** The scope after a clause, its name given back. */
  lemma ClauseScope(sc: Scopes, name: string, slot: nat, d: Scopes)
    requires sc.Inner? && WellFormed(sc) && WellFormed(d) && Grows(Alias(sc, name, slot), d)
    requires slot < sc.top.nextSlot && Unnamed(slot, sc.top)
    ensures d.Inner?
    ensures var sc1 := Restore(d, name, sc);
            && WellFormed(sc1) && Grows(sc, sc1) && slot < sc1.top.nextSlot && Unnamed(slot, sc1.top)
  {
    hide WellFormed;
    RestoreGrows(sc, Alias(sc, name, slot), name, d);
    UnnamedGrows(slot, sc, Restore(d, name, sc));
  }

  lemma CatchesCompiled(e: Form, sc: Scopes, pos: nat, b: Piece)
    requires e.Try? && sc.Inner? && |e.catches| > 0 && b == CompileBody(e.body, 0, sc, NoTarget, pos + 1)
    ensures b.sc.Inner?
    ensures var slot := b.sc.top.nextSlot;
            var c := CompileClauses(e.catches, 0, slot, Reserve(b.sc), pos + 1 + |b.code| + 3);
            CompileCatches(e, sc, pos) ==
              Piece([TryBegin(|b.code| + 2)] + b.code + [TryEnd, Jump(|c.code| + 2)] +
                    [StoreCaught(slot)] + c.code + [Rethrow(slot)], c.sc)
  {
    hide CompileBody, CompileClauses;
  }

  lemma TryCompiled(e: Form, sc: Scopes, pos: nat, t: Piece, n: Piece)
    requires e.Try? && sc.Inner? && e.fin.Finally? && t == CompileCatches(e, sc, pos + 1)
    requires n == CompileEffects(e.fin.forms, 0, t.sc, pos + 1 + |t.code| + 1)
    ensures n.sc.Inner?
    ensures forall rt ::
              var slot := n.sc.top.nextSlot;
              var x := CompileEffects(e.fin.forms, 0, Reserve(n.sc), pos + 1 + |t.code| + 1 + |n.code| + 2);
              Compile(e, sc, rt, pos) ==
                Piece([TryBegin(|t.code| + 1 + |n.code| + 1)] + t.code + [TryEnd] + n.code + [Jump(|x.code| + 2)] +
                      [StoreCaught(slot)] + x.code + [Rethrow(slot)], x.sc)
  {
    hide CompileCatches, CompileEffects;
  }

  lemma NoClauses(cs: seq<Clause>, slot: nat, sc: Scopes, pos: nat)
    requires sc.Inner?
    ensures CompileClauses(cs, |cs|, slot, sc, pos) == Piece([], sc)
  {
  }
}
