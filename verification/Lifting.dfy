/** A top-level form and the same form with its `let`s, `loop`s and `try`s made
    calls compile to the same code. */
module Lifting {
  import opened Options
  import opened Syntax
  import opened Bytecode
  import opened Codegen
  import opened Scoping
  import opened ScopingProof
  import opened Placement

  lemma {:induction false} CheckAtTop(e: Form, rc: RecurCtx)
    ensures Check(AtTop(e), rc, true) == Check(e, rc, true)
    decreases e
  {
    match e
    case Def(_, init) => CheckAtTop(init, rc);
    case If(test, thn, els) =>
      LiteralAtTop(test);
      CheckAtTop(test, rc);
      CheckAtTop(thn, rc);
      if els.Some? { CheckAtTop(els.value, rc); }
    case Do(es) => AllChecked(es, 0, rc);
    case And(es) => AllChecked(es, 0, rc);
    case Or(es) => AllChecked(es, 0, rc);
    case Let(_, _) => CallChecked(e, rc);
    case Loop(_, _) => CallChecked(e, rc);
    case Try(_, _, _) => CallChecked(e, rc);
    case Call(head, args) => CheckAtTop(head, rc); AllChecked(args, 0, rc);
    case Throw(x) => CheckAtTop(x, rc);
    case _ =>
  }

  lemma LiteralAtTop(test: Form)
    ensures LiteralTest(AtTop(test)) == LiteralTest(test)
  {
  }

  lemma CallChecked(e: Form, rc: RecurCtx)
    requires e.Let? || e.Loop? || e.Try?
    ensures Check(Call(Fn([], [e]), []), rc, true) == Check(e, rc, true)
  {
    var in1 := InLoop(0, false);
    var r := Check(e, in1, false);
    assert Check(e, rc, true) == r by { hide CheckAll, CheckInits, CheckClauses; }
    hide Check;
    assert CheckAll([e], 1, in1, false) == None;
    assert CheckAll([e], 0, in1, false) == r;
    assert CheckAll([], 0, rc, true) == None;
    FnCheck(e, rc);
  }

  lemma FnCheck(e: Form, rc: RecurCtx)
    ensures Check(Call(Fn([], [e]), []), rc, true) ==
            var r := CheckAll([e], 0, InLoop(0, false), false); if r.Some? then r else CheckAll([], 0, rc, true)
  {
    hide CheckAll;
  }

  lemma {:induction false} AllChecked(es: seq<Form>, i: nat, rc: RecurCtx)
    requires i <= |es|
    ensures CheckAll(AllAtTop(es), i, rc, true) == CheckAll(es, i, rc, true)
    decreases es, |es| - i
  {
    if i < |es| {
      CheckAtTop(es[i], rc);
      AllChecked(es, i + 1, rc);
    }
  }

  lemma TopScope(sc: Scopes)
    requires Depth(sc) == 0
    ensures sc == NoScope
  {
  }

  lemma {:induction false} CompileAtTop(e: Form, rt: Target, pos: nat)
    ensures Compile(AtTop(e), NoScope, rt, pos) == Compile(e, NoScope, rt, pos) && Compile(e, NoScope, rt, pos).sc == NoScope
    decreases e, 1
  {
    TopScope(Compile(e, NoScope, rt, pos).sc);
    hide Compile;
    match e
    case Def(_, _) => ThenAtTop(e, rt, pos);
    case Throw(_) => ThenAtTop(e, rt, pos);
    case If(_, _, _) => IfAtTop(e, rt, pos);
    case Do(_) => SequenceAtTop(e, rt, pos);
    case And(_) => SequenceAtTop(e, rt, pos);
    case Or(_) => SequenceAtTop(e, rt, pos);
    case Let(_, _) => ThunkAtTop(e, rt, pos);
    case Loop(_, _) => ThunkAtTop(e, rt, pos);
    case Try(_, _, _) => ThunkAtTop(e, rt, pos);
    case Call(_, _) => CallAtTop(e, rt, pos);
    case _ =>
  }

  lemma {:induction false} ThenAtTop(e: Form, rt: Target, pos: nat)
    requires e.Def? || e.Throw?
    ensures Compile(AtTop(e), NoScope, rt, pos) == Compile(e, NoScope, rt, pos)
    decreases e, 0
  {
    CompileAtTop(if e.Def? then e.init else e.e, rt, pos);
  }

  lemma {:induction false} SequenceAtTop(e: Form, rt: Target, pos: nat)
    requires e.Do? || e.And? || e.Or?
    ensures Compile(AtTop(e), NoScope, rt, pos) == Compile(e, NoScope, rt, pos)
    decreases e, 0
  {
    hide CompileBody, CompileChain;
    match e
    case Do(es) => BodyAtTop(es, 0, rt, pos);
    case And(es) => if |es| > 0 { ChainAtTop(es, 0, true, rt, pos); }
    case Or(es) => if |es| > 0 { ChainAtTop(es, 0, false, rt, pos); }
  }

  lemma {:induction false} CallAtTop(e: Form, rt: Target, pos: nat)
    requires e.Call?
    ensures Compile(AtTop(e), NoScope, rt, pos) == Compile(e, NoScope, rt, pos)
    decreases e, 0
  {
    hide CompileArgs;
    CompileAtTop(e.head, rt, pos);
    ArgsAtTop(e.args, 0, rt, pos + |Compile(e.head, NoScope, rt, pos).code|);
  }

  lemma {:induction false} IfAtTop(e: Form, rt: Target, pos: nat)
    requires e.If?
    ensures Compile(AtTop(e), NoScope, rt, pos) == Compile(e, NoScope, rt, pos)
    decreases e, 0
  {
    hide Compile, CompileElse;
    var c := Compile(e.test, NoScope, rt, pos);
    var p := pos + |c.code| + 1;
    var th := Compile(e.thn, NoScope, rt, p);
    var q := p + |th.code| + 1;
    LiteralAtTop(e.test);
    CompileAtTop(e.test, rt, pos);
    CompileAtTop(e.thn, rt, p);
    CompileAtTop(e.thn, rt, pos);
    ElseAtTop(e.els, rt, pos);
    ElseAtTop(e.els, rt, q);
    IfCompiled(e, NoScope, rt, pos, c, th, CompileElse(e.els, NoScope, rt, q));
    IfCompiled(AtTop(e), NoScope, rt, pos, c, th, CompileElse(AtTop(e).els, NoScope, rt, q));
  }

  lemma {:induction false} ElseAtTop(els: Option<Form>, rt: Target, pos: nat)
    ensures CompileElse(if els.Some? then Some(AtTop(els.value)) else None, NoScope, rt, pos) == CompileElse(els, NoScope, rt, pos)
    decreases els, 2
  {
    hide Compile;
    if els.Some? { CompileAtTop(els.value, rt, pos); }
  }

  lemma {:induction false} BodyAtTop(es: seq<Form>, i: nat, rt: Target, pos: nat)
    requires i <= |es|
    ensures CompileBody(AllAtTop(es), i, NoScope, rt, pos) == CompileBody(es, i, NoScope, rt, pos)
    decreases es, |es| - i
  {
    hide Compile;
    if i < |es| {
      CompileAtTop(es[i], rt, pos);
      if i + 1 < |es| { BodyAtTop(es, i + 1, rt, pos + |Compile(es[i], NoScope, rt, pos).code| + 1); }
    }
  }

  lemma {:induction false} ChainAtTop(es: seq<Form>, i: nat, conj: bool, rt: Target, pos: nat)
    requires i < |es|
    ensures CompileChain(AllAtTop(es), i, conj, NoScope, rt, pos) == CompileChain(es, i, conj, NoScope, rt, pos)
    decreases es, |es| - i
  {
    hide Compile;
    CompileAtTop(es[i], rt, pos);
    if i + 1 < |es| { ChainAtTop(es, i + 1, conj, rt, pos + |Compile(es[i], NoScope, rt, pos).code| + 3); }
  }

  lemma {:induction false} ArgsAtTop(es: seq<Form>, i: nat, rt: Target, pos: nat)
    requires i <= |es|
    ensures CompileArgs(AllAtTop(es), i, NoScope, rt, pos) == CompileArgs(es, i, NoScope, rt, pos)
    decreases es, |es| - i
  {
    hide Compile;
    if i < |es| {
      CompileAtTop(es[i], rt, pos);
      ArgsAtTop(es, i + 1, rt, pos + |Compile(es[i], NoScope, rt, pos).code|);
    }
  }

  lemma ThunkAtTop(e: Form, rt: Target, pos: nat)
    requires e.Let? || e.Loop? || e.Try?
    ensures Compile(AtTop(e), NoScope, rt, pos) == Compile(e, NoScope, rt, pos)
  {
    ThunkCaptures(e);
    var r := Compile(e, Inner(ParamScope([]), NoScope), Target(0, []), 0);
    assert Compile(e, NoScope, rt, pos) == Piece([MakeFn(FnModule(r, 0)), Invoke(0)], NoScope);
    OneFormFn(e, r);
    CalledFn(e, r, rt, pos);
  }

  lemma OneFormFn(e: Form, r: Piece)
    requires r == Compile(e, Inner(ParamScope([]), NoScope), Target(0, []), 0)
    ensures CompileFn([], [e], NoScope) == r
  {
    hide Compile;
    assert Upto(0) == [];
  }

  lemma CalledFn(e: Form, r: Piece, rt: Target, pos: nat)
    requires CompileFn([], [e], NoScope) == r && r.sc.Inner? && r.sc.outer == NoScope && r.sc.top.captures == []
    ensures Compile(Call(Fn([], [e]), []), NoScope, rt, pos) == Piece([MakeFn(FnModule(r, 0)), Invoke(0)], NoScope)
  {
    hide CompileFn;
    var f := Fn([], [e]);
    assert ReadCaptures([]) == [];
    assert Compile(f, NoScope, rt, pos) == Piece([MakeFn(FnModule(r, 0))], NoScope);
    assert CompileArgs([], 0, NoScope, rt, pos + 1) == Piece([], NoScope);
  }

  lemma ThunkCaptures(e: Form)
    ensures var r := Compile(e, Inner(ParamScope([]), NoScope), Target(0, []), 0);
            r.sc.Inner? && r.sc.outer == NoScope && r.sc.top.captures == []
  {
    hide Compile;
    var fsc := Inner(ParamScope([]), NoScope);
    ParamScopeWellFormed([], NoScope);
    CompileGrows(e, fsc, Target(0, []), 0);
    var r := Compile(e, fsc, Target(0, []), 0);
    TopScope(r.sc.outer);
    var caps := r.sc.top.captures;
    assert forall i | 0 <= i < |caps| :: CaptureOk(caps[i], r.sc);
    assert |caps| > 0 ==> CaptureOk(caps[0], r.sc);
  }

  lemma {:induction false} LiftedAtTop(e: Form)
    ensures Lifted(AtTop(e))
    decreases e
  {
    match e
    case Def(_, init) => LiftedAtTop(init);
    case If(test, thn, els) =>
      LiftedAtTop(test);
      LiftedAtTop(thn);
      if els.Some? { LiftedAtTop(els.value); }
    case Do(es) => AllLifted(es);
    case And(es) => AllLifted(es);
    case Or(es) => AllLifted(es);
    case Call(head, args) => LiftedAtTop(head); AllLifted(args);
    case Throw(x) => LiftedAtTop(x);
    case _ =>
  }

  lemma {:induction false} AllLifted(es: seq<Form>)
    ensures forall i | 0 <= i < |es| :: Lifted(AllAtTop(es)[i])
    decreases es
  {
    forall i | 0 <= i < |es| ensures Lifted(AllAtTop(es)[i]) { LiftedAtTop(es[i]); }
  }
}
