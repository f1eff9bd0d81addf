/** Compiling any form leaves the scopes well formed and only adds captures. */
module ScopingProof {
  import opened Options
  import opened Syntax
  import opened Codegen
  import opened Scoping

  lemma {:induction false} CompileGrows(e: Form, sc: Scopes, rt: Target, pos: nat)
    requires WellFormed(sc)
    ensures WellFormed(Compile(e, sc, rt, pos).sc) && Grows(sc, Compile(e, sc, rt, pos).sc)
    decreases e, if sc.NoScope? then 2 else 1
  {
    hide WellFormed, Grows, CompileBody, CompileChain, CompileArgs, CompileLet, CompileLoop, CompileFn, CompileElse, CompileCatches, CompileEffects;
    GrowsSelf(sc);
    match e
    case Lit(_) =>
    case Quote(_) =>
    case Global(_) =>
    case Sym(x) => ResolveGrows(x, sc);
    case Def(_, init) => CompileGrows(init, sc, rt, pos);
    case If(test, thn, els) =>
      if LiteralTest(test).Some? {
        if LiteralTest(test).value { CompileGrows(thn, sc, rt, pos); } else { ElseGrows(els, sc, rt, pos); }
      } else {
        IfGrows(e, sc, rt, pos);
      }
    case Do(es) => BodyGrows(es, 0, sc, rt, pos);
    case And(es) => if |es| > 0 { ChainGrows(es, 0, true, sc, rt, pos); }
    case Or(es) => if |es| > 0 { ChainGrows(es, 0, false, sc, rt, pos); }
    case Let(_, _) => if sc.Inner? { LetGrows(e, 0, sc, rt, pos); }
    case Loop(_, _) => if sc.Inner? { LoopGrows(e, 0, [], sc, rt, pos); }
    case Recur(args) => ArgsGrow(args, 0, sc, rt, pos);
    case Fn(params, body) => FnGrows(params, body, sc);
    case Call(head, args) =>
      CompileGrows(head, sc, rt, pos);
      var h := Compile(head, sc, rt, pos);
      ArgsGrow(args, 0, h.sc, rt, pos + |h.code|);
      GrowsTrans(sc, h.sc, CompileArgs(args, 0, h.sc, rt, pos + |h.code|).sc);
    case Throw(x) => CompileGrows(x, sc, rt, pos);
    case Try(_, _, _) => if sc.Inner? { TryGrows(e, sc, rt, pos); }
  }

  lemma {:induction false} IfGrows(e: Form, sc: Scopes, rt: Target, pos: nat)
    requires WellFormed(sc) && e.If? && LiteralTest(e.test).None?
    ensures WellFormed(Compile(e, sc, rt, pos).sc) && Grows(sc, Compile(e, sc, rt, pos).sc)
    decreases e, 0
  {
    hide WellFormed, Grows;
    CompileGrows(e.test, sc, rt, pos);
    var c := Compile(e.test, sc, rt, pos);
    CompileGrows(e.thn, c.sc, rt, pos + |c.code| + 1);
    var t := Compile(e.thn, c.sc, rt, pos + |c.code| + 1);
    ElseGrows(e.els, t.sc, rt, pos + |c.code| + 1 + |t.code| + 1);
    var f := CompileElse(e.els, t.sc, rt, pos + |c.code| + 1 + |t.code| + 1);
    GrowsTrans(sc, c.sc, t.sc);
    GrowsTrans(sc, t.sc, f.sc);
  }

  lemma {:induction false} ElseGrows(els: Option<Form>, sc: Scopes, rt: Target, pos: nat)
    requires WellFormed(sc)
    ensures WellFormed(CompileElse(els, sc, rt, pos).sc) && Grows(sc, CompileElse(els, sc, rt, pos).sc)
    decreases els, 3
  {
    hide WellFormed, Grows;
    GrowsSelf(sc);
    if els.Some? { CompileGrows(els.value, sc, rt, pos); }
  }

  lemma {:induction false} FnGrows(params: seq<string>, body: seq<Form>, sc: Scopes)
    requires WellFormed(sc)
    ensures var r := CompileFn(params, body, sc);
            && r.sc.Inner? && WellFormed(r.sc) && Grows(Inner(ParamScope(params), sc), r.sc)
            && WellFormed(r.sc.outer) && Grows(sc, r.sc.outer)
    decreases body, |body| + 1
  {
    ParamScopeWellFormed(params, sc);
    BodyGrows(body, 0, Inner(ParamScope(params), sc), Target(0, Upto(|params|)), 0);
  }

  lemma {:induction false} BodyGrows(es: seq<Form>, i: nat, sc: Scopes, rt: Target, pos: nat)
    requires WellFormed(sc) && i <= |es|
    ensures WellFormed(CompileBody(es, i, sc, rt, pos).sc) && Grows(sc, CompileBody(es, i, sc, rt, pos).sc)
    decreases es, |es| - i
  {
    hide WellFormed, Grows;
    GrowsSelf(sc);
    if i < |es| {
      CompileGrows(es[i], sc, rt, pos);
      if i + 1 < |es| {
        var c := Compile(es[i], sc, rt, pos);
        BodyGrows(es, i + 1, c.sc, rt, pos + |c.code| + 1);
        GrowsTrans(sc, c.sc, CompileBody(es, i + 1, c.sc, rt, pos + |c.code| + 1).sc);
      }
    }
  }

  lemma {:induction false} EffectsGrow(es: seq<Form>, i: nat, sc: Scopes, pos: nat)
    requires WellFormed(sc) && i <= |es|
    ensures WellFormed(CompileEffects(es, i, sc, pos).sc) && Grows(sc, CompileEffects(es, i, sc, pos).sc)
    decreases es, |es| - i
  {
    hide WellFormed, Grows;
    GrowsSelf(sc);
    if i < |es| {
      CompileGrows(es[i], sc, NoTarget, pos);
      var c := Compile(es[i], sc, NoTarget, pos);
      EffectsGrow(es, i + 1, c.sc, pos + |c.code| + 1);
      GrowsTrans(sc, c.sc, CompileEffects(es, i + 1, c.sc, pos + |c.code| + 1).sc);
    }
  }

  lemma {:induction false} ChainGrows(es: seq<Form>, i: nat, conj: bool, sc: Scopes, rt: Target, pos: nat)
    requires WellFormed(sc) && i < |es|
    ensures WellFormed(CompileChain(es, i, conj, sc, rt, pos).sc) && Grows(sc, CompileChain(es, i, conj, sc, rt, pos).sc)
    decreases es, |es| - i
  {
    hide WellFormed, Grows;
    CompileGrows(es[i], sc, rt, pos);
    if i + 1 < |es| {
      var c := Compile(es[i], sc, rt, pos);
      ChainGrows(es, i + 1, conj, c.sc, rt, pos + |c.code| + 3);
      GrowsTrans(sc, c.sc, CompileChain(es, i + 1, conj, c.sc, rt, pos + |c.code| + 3).sc);
    }
  }

  lemma {:induction false} ArgsGrow(es: seq<Form>, i: nat, sc: Scopes, rt: Target, pos: nat)
    requires WellFormed(sc) && i <= |es|
    ensures WellFormed(CompileArgs(es, i, sc, rt, pos).sc) && Grows(sc, CompileArgs(es, i, sc, rt, pos).sc)
    decreases es, |es| - i
  {
    hide WellFormed, Grows;
    GrowsSelf(sc);
    if i < |es| {
      CompileGrows(es[i], sc, rt, pos);
      var c := Compile(es[i], sc, rt, pos);
      ArgsGrow(es, i + 1, c.sc, rt, pos + |c.code|);
      GrowsTrans(sc, c.sc, CompileArgs(es, i + 1, c.sc, rt, pos + |c.code|).sc);
    }
  }

  lemma {:induction false} LetGrows(e: Form, i: nat, sc: Scopes, rt: Target, pos: nat)
    requires WellFormed(sc) && e.Let? && sc.Inner? && i <= |e.bs|
    ensures WellFormed(CompileLet(e, i, sc, rt, pos).sc) && Grows(sc, CompileLet(e, i, sc, rt, pos).sc)
    decreases e, 0, |e.bs| - i
  {
    hide WellFormed, Grows;
    if i == |e.bs| {
      BodyGrows(e.body, 0, sc, rt, pos);
    } else {
      CompileGrows(e.bs[i].init, sc, rt, pos);
      var c := Compile(e.bs[i].init, sc, rt, pos);
      var x := e.bs[i].name;
      BindWellFormed(c.sc, x);
      LetGrows(e, i + 1, Bind(c.sc, x), rt, pos + |c.code| + 1);
      var rest := CompileLet(e, i + 1, Bind(c.sc, x), rt, pos + |c.code| + 1);
      BindGrowsFrom(sc, c.sc, x, rest.sc);
    }
  }

  lemma {:induction false} LoopGrows(e: Form, i: nat, slots: seq<nat>, sc: Scopes, rt: Target, pos: nat)
    requires WellFormed(sc) && e.Loop? && sc.Inner? && i <= |e.bs|
    ensures WellFormed(CompileLoop(e, i, slots, sc, rt, pos).sc) && Grows(sc, CompileLoop(e, i, slots, sc, rt, pos).sc)
    decreases e, 0, |e.bs| - i
  {
    hide WellFormed, Grows;
    if i == |e.bs| {
      BodyGrows(e.body, 0, sc, Target(pos, slots), pos);
    } else {
      CompileGrows(e.bs[i].init, sc, rt, pos);
      var c := Compile(e.bs[i].init, sc, rt, pos);
      var x := e.bs[i].name;
      var slots1 := slots + [c.sc.top.nextSlot];
      BindWellFormed(c.sc, x);
      LoopGrows(e, i + 1, slots1, Bind(c.sc, x), rt, pos + |c.code| + 1);
      var rest := CompileLoop(e, i + 1, slots1, Bind(c.sc, x), rt, pos + |c.code| + 1);
      BindGrowsFrom(sc, c.sc, x, rest.sc);
    }
  }

  lemma {:induction false} TryGrows(e: Form, sc: Scopes, rt: Target, pos: nat)
    requires WellFormed(sc) && e.Try? && sc.Inner?
    ensures WellFormed(Compile(e, sc, rt, pos).sc) && Grows(sc, Compile(e, sc, rt, pos).sc)
    decreases e, 0, 1
  {
    hide WellFormed, Grows;
    if e.fin.NoFinally? {
      CatchesGrow(e, sc, pos);
    } else {
      CatchesGrow(e, sc, pos + 1);
      var t := CompileCatches(e, sc, pos + 1);
      EffectsGrow(e.fin.forms, 0, t.sc, pos + 1 + |t.code| + 1);
      var n := CompileEffects(e.fin.forms, 0, t.sc, pos + 1 + |t.code| + 1);
      ReserveGrows(n.sc);
      var at := pos + 1 + |t.code| + 1 + |n.code| + 1 + 1;
      EffectsGrow(e.fin.forms, 0, Reserve(n.sc), at);
      var x := CompileEffects(e.fin.forms, 0, Reserve(n.sc), at);
      GrowsTrans(sc, t.sc, n.sc);
      ReserveGrowsFrom(sc, n.sc, x.sc);
    }
  }

  lemma {:induction false} CatchesGrow(e: Form, sc: Scopes, pos: nat)
    requires WellFormed(sc) && e.Try? && sc.Inner?
    ensures WellFormed(CompileCatches(e, sc, pos).sc) && Grows(sc, CompileCatches(e, sc, pos).sc)
    decreases e, 0, 0
  {
    hide WellFormed, Grows;
    if |e.catches| == 0 {
      BodyGrows(e.body, 0, sc, NoTarget, pos);
    } else {
      BodyGrows(e.body, 0, sc, NoTarget, pos + 1);
      var b := CompileBody(e.body, 0, sc, NoTarget, pos + 1);
      ReserveGrows(b.sc);
      var at := pos + 1 + |b.code| + 2 + 1;
      ClausesGrow(e.catches, 0, b.sc.top.nextSlot, Reserve(b.sc), at);
      ReserveGrowsFrom(sc, b.sc, CompileClauses(e.catches, 0, b.sc.top.nextSlot, Reserve(b.sc), at).sc);
    }
  }

  /** `slot` stays without a name between clauses. */
  lemma {:induction false} ClausesGrow(cs: seq<Clause>, i: nat, slot: nat, sc: Scopes, pos: nat)
    requires WellFormed(sc) && sc.Inner? && i <= |cs| && slot < sc.top.nextSlot && Unnamed(slot, sc.top)
    ensures var r := CompileClauses(cs, i, slot, sc, pos);
            WellFormed(r.sc) && Grows(sc, r.sc)
    decreases cs, |cs| - i
  {
    hide WellFormed, Grows;
    GrowsSelf(sc);
    if i < |cs| {
      var x := cs[i].name;
      AliasWellFormed(sc, x, slot);
      BodyGrows(cs[i].body, 0, Alias(sc, x, slot), NoTarget, pos + 3);
      var b := CompileBody(cs[i].body, 0, Alias(sc, x, slot), NoTarget, pos + 3);
      RestoreGrows(sc, Alias(sc, x, slot), x, b.sc);
      var sc1 := Restore(b.sc, x, sc);
      UnnamedGrows(slot, sc, sc1);
      ClausesGrow(cs, i + 1, slot, sc1, pos + 3 + |b.code| + 1);
      GrowsTrans(sc, sc1, CompileClauses(cs, i + 1, slot, sc1, pos + 3 + |b.code| + 1).sc);
    }
  }

  lemma UnnamedGrows(slot: nat, a: Scopes, b: Scopes)
    requires a.Inner? && Grows(a, b) && slot < a.top.nextSlot && Unnamed(slot, a.top)
    ensures b.Inner? && slot < b.top.nextSlot && Unnamed(slot, b.top)
  {
    forall x | x in b.top.names ensures b.top.names[x] != slot {
      if x !in a.top.names { assert CapturedAfter(x, |a.top.captures|, b.top); }
    }
  }
}
