/** A form that has a value is one whose code can be left at its end. */
module Leaving {
  import opened Options
  import opened Syntax
  import opened Values
  import opened Evaluator

  lemma {:induction false} StoppedShort(P: Prims, es: seq<Form>, i: nat, env: Env, g: Env, fuel: nat)
    requires i <= |es| && EvalArgs(P, es, i, env, g, fuel).Stopped?
    ensures !EvalArgs(P, es, i, env, g, fuel).o.Val?
    decreases |es| - i
  {
    if Eval(P, es[i], env, g, fuel).Val? { StoppedShort(P, es, i + 1, env, Eval(P, es[i], env, g, fuel).g, fuel); }
  }

  lemma {:induction false} ValLeaves(P: Prims, e: Form, env: Env, g: Env, fuel: nat, top: bool)
    requires Eval(P, e, env, g, fuel).Val?
    ensures Leaves(e, top)
    decreases fuel, e
  {
    match e
    case Def(_, init) => ValLeaves(P, init, env, g, fuel, top);
    case If(_, _, _) => IfLeaves(P, e, env, g, fuel, top);
    case Do(es) => BodyLeaves(P, es, 0, env, g, fuel, top);
    case And(es) => if |es| > 0 { ValLeaves(P, es[0], env, g, fuel, top); }
    case Or(es) => if |es| > 0 { ValLeaves(P, es[0], env, g, fuel, top); }
    case Let(_, _) => LetLeaves(P, e, 0, env, g, fuel);
    case Loop(_, _) => LoopLeaves(P, e, 0, env, g, fuel);
    case Recur(args) => if EvalArgs(P, args, 0, env, g, fuel).Stopped? { StoppedShort(P, args, 0, env, g, fuel); }
    case Throw(x) =>
    case Call(head, args) =>
      ValLeaves(P, head, env, g, fuel, top);
      var o := Eval(P, head, env, g, fuel);
      if EvalArgs(P, args, 0, env, o.g, fuel).Stopped? { StoppedShort(P, args, 0, env, o.g, fuel); }
      ArgsLeave(P, args, 0, env, Eval(P, head, env, g, fuel).g, fuel, top);
    case Try(_, _, _) => TryLeaves(P, e, env, g, fuel);
    case _ =>
  }

  lemma {:induction false} IfLeaves(P: Prims, e: Form, env: Env, g: Env, fuel: nat, top: bool)
    requires e.If? && Eval(P, e, env, g, fuel).Val?
    ensures Leaves(e, top)
    decreases fuel, e, 0
  {
    ValLeaves(P, e.test, env, g, fuel, top);
    var o := Eval(P, e.test, env, g, fuel);
    if Truthy(o.v) { ValLeaves(P, e.thn, env, o.g, fuel, top); }
    else if e.els.Some? { ValLeaves(P, e.els.value, env, o.g, fuel, top); }
  }

  lemma {:induction false} BodyLeaves(P: Prims, es: seq<Form>, i: nat, env: Env, g: Env, fuel: nat, top: bool)
    requires i <= |es| && EvalBody(P, es, i, env, g, fuel).Val?
    ensures LeavesAll(es, i, top)
    decreases fuel, es, |es| - i
  {
    if i < |es| {
      ValLeaves(P, es[i], env, g, fuel, top);
      if i + 1 < |es| { BodyLeaves(P, es, i + 1, env, Eval(P, es[i], env, g, fuel).g, fuel, top); }
    }
  }

  lemma {:induction false} ArgsLeave(P: Prims, es: seq<Form>, i: nat, env: Env, g: Env, fuel: nat, top: bool)
    requires i <= |es| && EvalArgs(P, es, i, env, g, fuel).Vals?
    ensures LeavesAll(es, i, top)
    decreases fuel, es, |es| - i
  {
    if i < |es| {
      ValLeaves(P, es[i], env, g, fuel, top);
      ArgsLeave(P, es, i + 1, env, Eval(P, es[i], env, g, fuel).g, fuel, top);
    }
  }

  lemma {:induction false} LetLeaves(P: Prims, e: Form, i: nat, env: Env, g: Env, fuel: nat)
    requires e.Let? && i <= |e.bs| && EvalLet(P, e, i, env, g, fuel).Val?
    ensures LeavesInits(e.bs, i) && LeavesAll(e.body, 0, false)
    decreases fuel, e, |e.bs| - i
  {
    if i == |e.bs| { BodyLeaves(P, e.body, 0, env, g, fuel, false); }
    else {
      var o := Eval(P, e.bs[i].init, env, g, fuel);
      ValLeaves(P, e.bs[i].init, env, g, fuel, false);
      LetLeaves(P, e, i + 1, env[e.bs[i].name := o.v], o.g, fuel);
    }
  }

  lemma {:induction false} LoopLeaves(P: Prims, e: Form, i: nat, env: Env, g: Env, fuel: nat)
    requires e.Loop? && i <= |e.bs| && EvalLoop(P, e, i, env, g, fuel).Val?
    ensures LeavesInits(e.bs, i) && LeavesAll(e.body, 0, false)
    decreases fuel, e, |e.bs| - i
  {
    if i == |e.bs| { RoundsLeave(P, BindingNames(e.bs), e.body, env, g, fuel); }
    else {
      var o := Eval(P, e.bs[i].init, env, g, fuel);
      ValLeaves(P, e.bs[i].init, env, g, fuel, false);
      LoopLeaves(P, e, i + 1, env[e.bs[i].name := o.v], o.g, fuel);
    }
  }

  lemma {:induction false} RoundsLeave(P: Prims, names: seq<string>, body: seq<Form>, env: Env, g: Env, fuel: nat)
    requires EvalRounds(P, names, body, env, g, fuel).Val?
    ensures LeavesAll(body, 0, false)
    decreases fuel, body, |body| + 1
  {
    var o := EvalBody(P, body, 0, env, g, fuel);
    if o.Val? { BodyLeaves(P, body, 0, env, g, fuel, false); }
    else { RoundsLeave(P, names, body, BindAll(env, names, o.args, 0), o.g, fuel - 1); }
  }

  lemma {:induction false} TryLeaves(P: Prims, e: Form, env: Env, g: Env, fuel: nat)
    requires e.Try? && Eval(P, e, env, g, fuel).Val?
    ensures Leaves(e, false)
    decreases fuel, e, 0
  {
    var o := EvalBody(P, e.body, 0, env, g, fuel);
    var handled := if o.Throws? then EvalCatch(P, e.catches, 0, o.x, env, o.g, fuel) else o;
    if e.fin.Finally? {
      if !handled.OutOfFuel? && EvalArgs(P, e.fin.forms, 0, env, handled.g, fuel).Stopped? {
        StoppedShort(P, e.fin.forms, 0, env, handled.g, fuel);
      }
      ArgsLeave(P, e.fin.forms, 0, env, handled.g, fuel, false);
    }
    if o.Val? { BodyLeaves(P, e.body, 0, env, g, fuel, false); }
    else { CatchLeaves(P, e.catches, 0, o.x, env, o.g, fuel); }
  }

  lemma {:induction false} CatchLeaves(P: Prims, cs: seq<Clause>, i: nat, x: Exn<Value>, env: Env, g: Env, fuel: nat)
    requires i <= |cs| && EvalCatch(P, cs, i, x, env, g, fuel).Val?
    ensures LeavesClause(cs, i)
    decreases fuel, cs, |cs| - i
  {
    if P.matches(CaughtValue(P, x), cs[i].classId) {
      BodyLeaves(P, cs[i].body, 0, env[cs[i].name := CaughtValue(P, x)], g, fuel, false);
    } else {
      CatchLeaves(P, cs, i + 1, x, env, g, fuel);
    }
  }
}
