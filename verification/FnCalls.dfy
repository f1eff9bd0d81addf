/** What a call of a fn does, said of the evaluator, of the VM and of compiled
    code. */
module FnCalls {
  import opened Options
  import opened Syntax
  import opened Bytecode
  import opened Values
  import opened Evaluator
  import opened Vm
  import opened Codegen
  import opened Correspondence
  import opened Runs
  import opened Correctness

  /** `k` is the last place of its name. */
  predicate LastAt(names: seq<string>, k: nat) { k < |names| && forall j | k < j < |names| :: names[j] != names[k] }

  /** `env1` is `env` with each name bound to its value, the last one of a name
      given twice, and nothing else. */
  ghost predicate Binds(env: Env, names: seq<string>, vs: seq<Value>, env1: Env)
    requires |names| == |vs|
  {
    && (forall x :: x in env1 <==> x in env || x in names)
    && (forall x | x in env && x !in names :: env1[x] == env[x])
    && (forall k: nat | LastAt(names, k) :: env1[names[k]] == vs[k])
  }

  lemma LastInTail(x: string, names: seq<string>, k: nat)
    requires LastAt([x] + names, k)
    ensures k > 0 ==> LastAt(names, k - 1)
    ensures k == 0 ==> x !in names
  {
    var all := [x] + names;
    if k > 0 {
      forall j | k - 1 < j < |names| ensures names[j] != names[k - 1] { assert all[j + 1] != all[k]; }
    } else {
      forall j | 0 <= j < |names| ensures names[j] != x { assert all[j + 1] != all[0]; }
    }
  }

  lemma {:induction false} AllBound(env: Env, names: seq<string>, vs: seq<Value>, i: nat)
    requires i <= |names| == |vs|
    ensures Binds(env, names[i..], vs[i..], BindAll(env, names, vs, i))
    decreases |vs| - i
  {
    if i < |vs| {
      var env1 := env[names[i] := vs[i]];
      AllBound(env1, names, vs, i + 1);
      var e, ns := BindAll(env, names, vs, i), names[i..];
      assert ns == [names[i]] + names[i + 1..];
      forall k: nat | LastAt(ns, k) ensures e[ns[k]] == vs[i..][k] { LastInTail(names[i], names[i + 1..], k); }
    }
  }

  lemma CallValued(P: Prims, head: Form, args: seq<Form>, env: Env, g: Env, fuel: nat, f: Value, g1: Env, vs: seq<Value>, g2: Env)
    requires Eval(P, head, env, g, fuel) == Val(f, g1) && f.Closure? && EvalArgs(P, args, 0, env, g1, fuel) == Vals(vs, g2)
    ensures Eval(P, Call(head, args), env, g, fuel) ==
            if |f.params| != |vs| then Throws(Managed(Error(ArityMismatch(|f.params|, |vs|)), 0), g2)
            else if |vs| > 17 then Throws(Managed(Error(TooManyParameters), 0), g2)
            else if fuel == 0 then OutOfFuel
            else EvalRounds(P, f.params, f.body, BindAll(f.env, f.params, vs, 0), g2, fuel - 1)
  {
    hide EvalArgs, EvalRounds, BindAll;
  }

  /** The evaluator: a fn of `n` parameters called with as many values, 17 at
      most, is its body run with each parameter bound to its value; more than 17
      and another number of values than of parameters are errors. */
  lemma ClosureCalled(P: Prims, head: Form, args: seq<Form>, env: Env, g: Env, fuel: nat, f: Value, g1: Env, vs: seq<Value>, g2: Env)
    requires Eval(P, head, env, g, fuel) == Val(f, g1) && f.Closure? && EvalArgs(P, args, 0, env, g1, fuel) == Vals(vs, g2)
    ensures var o := Eval(P, Call(head, args), env, g, fuel);
            if |vs| != |f.params| then o == Throws(Managed(Error(ArityMismatch(|f.params|, |vs|)), 0), g2)
            else if |vs| >= 18 then o == Throws(Managed(Error(TooManyParameters), 0), g2)
            else fuel > 0 ==>
              exists env1 :: Binds(f.env, f.params, vs, env1) && o == EvalRounds(P, f.params, f.body, env1, g2, fuel - 1)
  {
    CallValued(P, head, args, env, g, fuel, f, g1, vs, g2);
    hide Eval, EvalArgs, EvalRounds, BindAll, Binds;
    if |vs| == |f.params| {
      AllBound(f.env, f.params, vs, 0);
      assert f.params[0..] == f.params && vs[0..] == vs;
    }
  }

  /** What slot `s` of a new frame holds: the last capture that has it, the
      argument at `s`, or nil. */
  ghost predicate SlotStarts(m: Module, args: seq<VmValue>, caps: seq<VmValue>, s: nat, w: VmValue)
    requires |caps| == |m.captures|
  {
    && (forall j | 0 <= j < |caps| && m.captures[j].localSlot == s && (forall i | j < i < |caps| :: m.captures[i].localSlot != s) :: w == caps[j])
    && ((forall j | 0 <= j < |caps| :: m.captures[j].localSlot != s) ==> w == if s < |args| then args[s] else VNil)
  }

  lemma {:induction false} Written(L: seq<VmValue>, m: Module, caps: seq<VmValue>, i: nat)
    requires |caps| == |m.captures| && i <= |caps|
    requires forall j | i <= j < |caps| :: m.captures[j].localSlot < |L|
    ensures var L1 := WriteCaptures(L, m.captures, caps, i);
            && |L1| == |L|
            && (forall s, j | 0 <= s < |L| && i <= j < |caps| && m.captures[j].localSlot == s && (forall q | j < q < |caps| :: m.captures[q].localSlot != s) ::
                  L1[s] == caps[j])
            && (forall s | 0 <= s < |L| && (forall j | i <= j < |caps| :: m.captures[j].localSlot != s) :: L1[s] == L[s])
    decreases |caps| - i
  {
    if i < |caps| { Written(L[m.captures[i].localSlot := caps[i]], m, caps, i + 1); }
  }

  /** A frame as a call of `m` starts it. */
  ghost predicate Fresh(m: Module, args: seq<VmValue>, caps: seq<VmValue>, f: Frame)
    requires |caps| == |m.captures|
  {
    && f.m == m && f.ip == 0 && f.stack == [] && f.handlers == [] && f.caught == map[] && f.just == None
    && |f.locals| == m.arity + m.localCount
    && (forall s: nat | s < |f.locals| :: SlotStarts(m, args, caps, s, f.locals[s]))
  }

  /** The VM: CALL of a compiled fn on the stack below its arguments enters a
      fresh frame with as many arguments as parameters, 17 at most, and raises
      otherwise. */
  lemma FnCalled(P: Prims, f: Frame, k: Callers, g: Globals, rest: seq<VmValue>, m: Module, caps: seq<VmValue>, args: seq<VmValue>)
    requires f.ip < |f.m.code| && f.m.code[f.ip] == Invoke(|args|) && f.stack == rest + [VFn(m, caps)] + args
    requires |caps| == |m.captures| && forall j | 0 <= j < |caps| :: m.captures[j].localSlot < m.arity + m.localCount
    ensures var c := Step(P, Run(f, k, g));
            if |args| != m.arity then c == Unwind(Managed(VError(ArityMismatch(m.arity, |args|)), 0), Caller(f, k), g)
            else if |args| >= 18 then c == Unwind(Managed(VError(TooManyParameters), 0), Caller(f, k), g)
            else c.Run? && Fresh(m, args, caps, c.f) && c.k == Caller(f.(ip := f.ip + 1, stack := rest), k) && c.g == g
  {
    var base := |f.stack| - |args| - 1;
    assert f.stack[base] == VFn(m, caps) && f.stack[base + 1..] == args && f.stack[..base] == rest;
    if |args| == m.arity {
      Written(args + seq(m.localCount, _ => VNil), m, caps, 0);
    }
  }

  // ---- from the form to the end of the run

  /** `((fn [p ...] q) c ...)`, where the parameter `q` is the `i`-th. */
  function Picking(params: seq<string>, i: nat, cs: seq<Const>): Form
    requires i < |params|
  {
    Call(Fn(params, [Sym(params[i])]), Quotes(cs))
  }

  function Quotes(cs: seq<Const>): seq<Form> { seq(|cs|, j requires 0 <= j < |cs| => Quote(cs[j])) }

  function ConstValues(cs: seq<Const>): seq<Value> { seq(|cs|, j requires 0 <= j < |cs| => ConstValue(cs[j])) }

  lemma {:induction false} QuotesAccepted(cs: seq<Const>, i: nat, live: bool)
    requires i <= |cs|
    ensures CheckAll(Quotes(cs), i, NoLoop, true) == None && LevelAll(Quotes(cs), i, false, false, live, true)
    decreases |cs| - i
  {
    if i < |cs| { QuotesAccepted(cs, i + 1, live); }
  }

  lemma {:induction false} QuotesValued(P: Prims, cs: seq<Const>, i: nat, g: Env, fuel: nat)
    requires i <= |cs|
    ensures EvalArgs(P, Quotes(cs), i, map[], g, fuel) == Vals(ConstValues(cs)[i..], g)
    decreases |cs| - i
  {
    if i < |cs| {
      QuotesValued(P, cs, i + 1, g, fuel);
      assert ConstValues(cs)[i..] == [ConstValue(cs[i])] + ConstValues(cs)[i + 1..];
    }
  }

  lemma PickingAccepted(params: seq<string>, i: nat, cs: seq<Const>)
    requires i < |params|
    ensures Accepted(Picking(params, i, cs)) && AtTop(Picking(params, i, cs)) == Picking(params, i, cs)
  {
    var e, body := Picking(params, i, cs), [Sym(params[i])];
    QuotesAccepted(cs, 0, true);
    assert CheckAll(body, 1, InLoop(|params|, false), false) == None;
    assert CheckAll(body, 0, InLoop(|params|, false), false) == None;
    assert Leaves(body[0], false) && LevelAll(body, 1, true, true, true, false);
    assert LevelAll(body, 0, true, true, true, false);
    assert AllAtTop(Quotes(cs)) == Quotes(cs);
  }

  lemma PickingValued(P: Prims, params: seq<string>, i: nat, cs: seq<Const>, g: Env)
    requires LastAt(params, i) && |cs| == |params|
    ensures Eval(P, Picking(params, i, cs), map[], g, 1) ==
            if |cs| <= 17 then Val(ConstValue(cs[i]), g) else Throws(Managed(Error(TooManyParameters), 0), g)
  {
    var f, body := Closure(params, [Sym(params[i])], map[]), [Sym(params[i])];
    QuotesValued(P, cs, 0, g, 1);
    assert ConstValues(cs)[0..] == ConstValues(cs);
    ClosureCalled(P, Fn(params, body), Quotes(cs), map[], g, 1, f, g, ConstValues(cs), g);
    if |cs| <= 17 {
      var env1 :| Binds(map[], params, ConstValues(cs), env1) &&
                  Eval(P, Picking(params, i, cs), map[], g, 1) == EvalRounds(P, params, body, env1, g, 0);
      assert env1[params[i]] == ConstValue(cs[i]);
      assert EvalBody(P, body, 0, env1, g, 0) == Val(ConstValue(cs[i]), g);
    }
  }

  /** Compiled and run: a fn called with constants, 17 at most, answers its
      `i`-th parameter with the `i`-th of them; with 18 or more the run ends in
      the error. */
  lemma ParametersArrive(P: Prims, params: seq<string>, i: nat, cs: seq<Const>, g: Env, vg: Globals) returns (c: Config)
    requires PrimsAgree(P) && RelGlobals(g, vg) && LastAt(params, i) && |cs| == |params|
    ensures Reaches(P, Start(TopModule(Picking(params, i, cs)), vg), c)
    ensures |cs| <= 17 ==> c.Done? && c.v == ConstVmValue(cs[i])
    ensures |cs| >= 18 ==> c.Uncaught? && c.x == Managed(VError(TooManyParameters), 0)
  {
    hide PrimsAgree, RelGlobals, Accepted, Eval, TopModule, Reaches, AtTop, Busy;
    PickingAccepted(params, i, cs);
    PickingValued(P, params, i, cs, g);
    c := TopLevel(P, Picking(params, i, cs), g, vg, 1);
  }

  // ---- results

  /** No function in `v`. */
  predicate Plain(v: Value) {
    match v
    case Node(_, items) => forall i | 0 <= i < |items| :: Plain(items[i])
    case Closure(_, _, _) => false
    case _ => true
  }

  /** `v` as the VM holds it. */
  function Held(v: Value): VmValue
    requires Plain(v)
  {
    match v
    case Nil => VNil
    case True => VTrue
    case False => VFalse
    case Atom(a) => VAtom(a)
    case Node(tag, items) => VNode(tag, seq(|items|, i requires 0 <= i < |items| => Held(items[i])))
    case Error(kind) => VError(kind)
  }

  lemma {:induction false} OneHeld(v: Value, w: VmValue)
    requires Plain(v)
    ensures Rel(v, w) <==> w == Held(v)
    decreases v
  {
    if v.Node? && w.VNode? && |w.items| == |v.items| {
      forall i | 0 <= i < |v.items| ensures Rel(v.items[i], w.items[i]) <==> w.items[i] == Held(v.items[i]) {
        OneHeld(v.items[i], w.items[i]);
      }
    }
  }

  /** A form whose value holds no function ends in exactly that value. */
  lemma PlainResult(P: Prims, e: Form, g: Env, vg: Globals, fuel: nat) returns (c: Config)
    requires PrimsAgree(P) && Accepted(e) && RelGlobals(g, vg)
    requires EvalTop(P, e, g, fuel).Val? && Plain(EvalTop(P, e, g, fuel).v)
    ensures Reaches(P, Start(TopModule(e), vg), c) && c.Done? && c.v == Held(EvalTop(P, e, g, fuel).v)
  {
    hide PrimsAgree, RelGlobals, Accepted, TopModule, Reaches, EvalTop, Busy, Rel, Held;
    c := TopLevel(P, e, g, vg, fuel);
    OneHeld(EvalTop(P, e, g, fuel).v, c.v);
  }
}
