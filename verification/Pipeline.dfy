/** From a form to the end of its run: compiled word by word, its locals
    cleared, run by the VM. */
module Pipeline {
  import opened Options
  import opened Syntax
  import opened Bytecode
  import opened Values
  import opened Evaluator
  import opened Vm
  import opened Codegen
  import opened Correspondence
  import opened Correctness
  import opened Assembler
  import opened LastReads
  import opened ClearingPass
  import opened Lockstep
  import opened FormCompiler

  /** The whole pipeline: a form compiled and cleared ends as the evaluator
      says, up to clearing in the functions it leaves behind. */
  lemma ClearedTopLevel(P: Prims, e: Form, g: Env, vg: Globals, h: Globals, fuel: nat) returns (c: Config, d: Config)
    requires PrimsAgree(P) && PrimsBlind(P) && Accepted(e) && RelGlobals(g, vg) && TwinGlobals(vg, h)
    ensures Reaches(P, Start(ClearedModule(TopModule(e)), h), d)
    ensures Correctness.Ends(EvalTop(P, e, g, fuel), c) && TwinConfig(c, d)
  {
    hide PrimsAgree, PrimsBlind, RelGlobals, TwinGlobals, TwinConfig, Correctness.Ends, EvalTop, Check, Level;
    c := TopLevel(P, e, g, vg, fuel);
    var a := Start(TopModule(e), vg);
    var n: nat :| Steps(P, a, n) == c;
    ClearingKeepsRuns(P, e, vg, h, n);
    d := Steps(P, Start(ClearedModule(TopModule(e)), h), n);
  }

  /** The hypothesis about primitives can be met, with Correctness.ListsAgree. */
  lemma ListsBlind()
    ensures PrimsBlind(Lists())
  {
    var P := Lists();
    forall f, h, ws, vs | Twin(f, h) && TwinAll(ws, vs) && !f.VFn? ensures TwinResult(P.vmCall(f, ws), P.vmCall(h, vs)) {
      assert f == VNil <==> h == VNil;
    }
  }

  /** A top-level form in a module of its own, as the file runner compiles it:
      what comes out is the form's code with every inner body cleared. */
  method CompileTopLevel(e: Form) returns (r: Status, b: Block)
    ensures Says(r, Check(e, NoLoop, true))
    ensures r == Status.Done ==> Holds(b, ClearedModule(TopModule(e)))
  {
    hide Compile, Check, Inside, Grown, Holds;
    b := Block([], [], [], 0, 0, []);
    var c := new Compiler();
    var out := new BytecodeModule();
    :- c.CompileForm(e, out);
    ghost var p := Compile(e, NoScope, NoTarget, 0);
    GrownContext([], out.instrs, [], c.scopes, p);
    ghost var w := out.instrs;
    var _ :- c.Put(RETURN, 0, out, Return);
    PutIs(w, out.instrs, c.scopes, Return);
    assert out.instrs == Inside(p.code) + [Return];
    b := Freeze(out, 0, 0, []);
    TopUncleared(e);
    r := Status.Done;
  }

  /** With no locals there is nothing to clear at the top level. */
  lemma TopUncleared(e: Form)
    requires Check(e, NoLoop, true) == None
    ensures Module(Inside(Compile(e, NoScope, NoTarget, 0).code) + [Return], 0, 0, []) == ClearedModule(TopModule(e))
  {
    var code := Compile(e, NoScope, NoTarget, 0).code;
    NoLocalsAtTop(e);
    hide Compile, Check;
    ClearedFn(code, 0, 0, []);
    InsideJoin(code, [Return]);
    InsideOne(Return);
    var C, D := TopModule(e).code, Inside(code) + [Return];
    assert C == code + [Return] && D == Inside(C);
    forall i: nat | i < |C| ensures !Eligible(D, 0, [], i) {
      EligibleInside(C, 0, [], i);
      EligibleReads(C, 0, [], i);
      assert !C[i].PushLocal?;
      hide Eligible;
    }
    hide Eligible;
    assert Cleared(D, 0, []) == D;
  }

  lemma NoLocalsAtTop(e: Form)
    requires Check(e, NoLoop, true) == None
    ensures forall i | 0 <= i < |TopModule(e).code| :: !TopModule(e).code[i].PushLocal?
  {
    hide Compile, Check;
    TopReads(e);
  }
}
