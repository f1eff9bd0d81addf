/** The main theorems about compiled code: a top-level form, a program of them. */
module Correctness {
  import opened Syntax
  import opened Bytecode
  import opened Values
  import opened Evaluator
  import opened Vm
  import opened Codegen
  import opened Correspondence
  import opened Runs
  import opened Simulation
  import opened Lifting

  /** The end `c` of a run is what outcome `o` says. */
  ghost predicate Ends(o: Outcome, c: Config) {
    match o
    case Val(v, g) => c.Done? && Rel(v, c.v) && RelGlobals(g, c.g)
    case Throws(x, g) => c.Uncaught? && RelExn(x, c.x) && RelGlobals(g, c.g)
    case Recurs(_, _) => false
    case OutOfFuel => true
  }

  lemma FinishTop(X: Site, o: Outcome, a: Config, end: nat, c: Config) returns (d: Config)
    requires a.Run? && a.f.m == X.m && a.f.handlers == [] && X.k == Top
    requires Reaches(X.P, a, c) && After(X, o, a.f, 0, NoTarget, end, c) && CodeAt(X.m.code, end, [Return])
    ensures Reaches(X.P, a, d) && Ends(o, d)
  {
    hide Rel, RelGlobals, Preserved, CaughtKept, CodeAt;
    match o
    case Val(_, _) =>
      d := Then(X, a, c, Return);
    case Throws(_, _) =>
      ReachesThen(X.P, a, c);
      d := Step(X.P, c);
      ReachesThen(X.P, a, d);
      d := Step(X.P, d);
    case OutOfFuel => d := c;
  }

  /** What a top-level form means. */
  function EvalTop(P: Prims, e: Form, g: Env, fuel: nat): Outcome { Eval(P, AtTop(e), map[], g, fuel) }

  /** A compiled top-level form, run on globals that represent `g`, ends as the
      evaluator says, in globals that represent the evaluator's; if the
      evaluator runs out of fuel, the run is at least as long as that. */
  lemma TopLevel(P: Prims, e: Form, g: Env, vg: Globals, fuel: nat) returns (c: Config)
    requires PrimsAgree(P) && Accepted(e) && RelGlobals(g, vg)
    ensures Reaches(P, Start(TopModule(e), vg), c) && Ends(EvalTop(P, e, g, fuel), c)
    ensures EvalTop(P, e, g, fuel).OutOfFuel? ==> Busy(P, Start(TopModule(e), vg), fuel)
  {
    hide PrimsAgree, RelGlobals, Compile, Eval, After, Check, Level, AtTop, Busy, Moves;
    CheckAtTop(e, NoLoop);
    CompileAtTop(e, NoTarget, 0);
    var r := Compile(AtTop(e), NoScope, NoTarget, 0);
    var m := TopModule(e);
    var X := Site(P, m, Top, map[], Scope(map[], 0, []));
    var a := Start(m, vg);
    assert m.code[0..|r.code|] == r.code && m.code[|r.code|..|r.code| + 1] == [Return];
    c := Sim(X, AtTop(e), false, NoLoop, map[], g, fuel, NoScope, NoTarget, 0, a);
    c := FinishTop(X, EvalTop(P, e, g, fuel), a, |r.code|, c);
  }

  predicate Final(c: Config) { c.Done? || c.Uncaught? || c.Fault? }

  lemma {:induction false} FinalStays(P: Prims, c: Config, n: nat)
    requires Final(c)
    ensures Steps(P, c, n) == c
    decreases n
  {
    if n > 0 { FinalStays(P, c, n - 1); }
  }

  /** A run ends in one way only. */
  lemma OneEnd(P: Prims, a: Config, c: Config, d: Config)
    requires Reaches(P, a, c) && Reaches(P, a, d) && Final(c) && Final(d)
    ensures c == d
  {
    var m: nat :| Steps(P, a, m) == c;
    var n: nat :| Steps(P, a, n) == d;
    if m <= n {
      StepsAdd(P, a, m, n - m);
      FinalStays(P, c, n - m);
    } else {
      StepsAdd(P, a, n, m - n);
      FinalStays(P, d, m - n);
    }
  }

  /** A run of accepted code that ends is one the evaluator finishes, and ends
      as the evaluator says; the VM never gets into an undefined state. */
  lemma OnlyEnd(P: Prims, e: Form, g: Env, vg: Globals, d: Config) returns (fuel: nat)
    requires PrimsAgree(P) && Accepted(e) && RelGlobals(g, vg)
    requires Reaches(P, Start(TopModule(e), vg), d) && Final(d)
    ensures EvalTop(P, e, g, fuel) != OutOfFuel
    ensures Ends(EvalTop(P, e, g, fuel), d) && !d.Fault?
  {
    var a := Start(TopModule(e), vg);
    fuel :| Steps(P, a, fuel) == d;
    hide PrimsAgree, Eval, Rel, RelGlobals, Steps, EvalTop, Accepted, TopModule;
    var c := TopLevel(P, e, g, vg, fuel);
    OneEnd(P, a, c, d);
  }

  /** Top-level forms in order, up to the first that throws. */
  function EvalProgram(P: Prims, es: seq<Form>, i: nat, g: Env, fuel: nat): Outcome
    requires i <= |es|
    decreases |es| - i
  {
    if i == |es| then Val(Nil, g) else
    var o := EvalTop(P, es[i], g, fuel);
    if !o.Val? || i + 1 == |es| then o else EvalProgram(P, es, i + 1, o.g, fuel)
  }

  /** Each form compiled, run to its end, and the next run in the globals it
      left. */
  ghost predicate RunsTo(P: Prims, es: seq<Form>, i: nat, vg: Globals, c: Config)
    requires i <= |es|
    decreases |es| - i
  {
    if i == |es| then c == Done(VNil, vg) else
    exists d :: Reaches(P, Start(TopModule(es[i]), vg), d) &&
      if !d.Done? || i + 1 == |es| then c == d else RunsTo(P, es, i + 1, d.g, c)
  }

  lemma {:induction false} Program(P: Prims, es: seq<Form>, i: nat, g: Env, vg: Globals, fuel: nat) returns (c: Config)
    requires PrimsAgree(P) && RelGlobals(g, vg) && i <= |es|
    requires forall e | e in es :: Accepted(e)
    ensures !EvalProgram(P, es, i, g, fuel).OutOfFuel? ==>
              RunsTo(P, es, i, vg, c) && Ends(EvalProgram(P, es, i, g, fuel), c)
    decreases |es| - i
  {
    hide PrimsAgree, RelGlobals, EvalTop, Reaches, Rel, RelExn, Accepted, Busy;
    if i == |es| {
      c := Done(VNil, vg);
      assert Rel(Nil, VNil) by { NilRelated(); }
    } else {
      var o := EvalTop(P, es[i], g, fuel);
      var d := TopLevel(P, es[i], g, vg, fuel);
      if o.Val? && i + 1 < |es| {
        c := Program(P, es, i + 1, o.g, d.g, fuel);
      } else {
        c := d;
      }
    }
  }

  lemma NilRelated()
    ensures Rel(Nil, VNil)
  {
  }

  /** Primitives on which the two kinds of value agree: every callee answers
      the list of its arguments, every value may be thrown, a clause for class
      0 handles any error and no other. */
  function Lists(): Prims {
    Prims(
      (f: Value, vs: seq<Value>) => if f == Nil then Raises(Foreign(0)) else Returns(Node(0, vs)),
      (f: VmValue, ws: seq<VmValue>) => if f == VNil then Raises(Foreign(0)) else Returns(VNode(0, ws)),
      (v: Value, c: nat) => v.Error? && c == 0,
      (w: VmValue, c: nat) => w.VError? && c == 0,
      (v: Value) => true,
      (w: VmValue) => true,
      (n: int) => Error(Internal),
      (n: int) => VError(Internal))
  }

  /** The hypothesis about primitives can be met. */
  lemma ListsAgree()
    ensures PrimsAgree(Lists())
  {
    var P := Lists();
    forall f, h, vs, ws | Rel(f, h) && RelAll(vs, ws) && !f.Closure?
      ensures RelResult(P.call(f, vs), P.vmCall(h, ws))
    {
      assert f == Nil <==> h == VNil;
    }
  }
}
