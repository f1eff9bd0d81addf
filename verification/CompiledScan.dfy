/** The debugger's scan is right of compiled programs: nothing stands in the way
    of dispatching an exception there. */
module CompiledScan {
  import opened Syntax
  import opened Values
  import opened Vm
  import opened HandlerShape
  import opened LastReads
  import opened Lockstep
  import opened Correspondence
  import opened DebuggerScan
  import opened CompiledHandlers
  import Codegen
  import Correctness

  /** An accepted form, and globals to run it on that represent `g0`. */
  ghost predicate Program(P: Prims, e: Form, g0: Env, g: Globals, h: Globals) {
    PrimsAgree(P) && PrimsBlind(P) && Accepted(e) && RelGlobals(g0, g) && TwinGlobals(g, h)
  }

  /** Its cleared module about to run. */
  function Loaded(e: Form, h: Globals): Config { Start(ClearedModule(Codegen.TopModule(e)), h) }

  /** A cleared program never reaches a fault. */
  lemma NeverFaults(P: Prims, e: Form, g0: Env, g: Globals, h: Globals)
    requires Program(P, e, g0, g, h)
    ensures !Reaches(P, Loaded(e, h), Fault)
  {
    if Reaches(P, Loaded(e, h), Fault) {
      var n: nat :| Steps(P, Loaded(e, h), n) == Fault;
      ClearingKeepsRuns(P, e, g, h, n);
      var fuel := Correctness.OnlyEnd(P, e, g0, g, Steps(P, Start(Codegen.TopModule(e), g), n));
    }
  }

  /** A handler that could not take an exception would be one. */
  lemma UntakenFaults(P: Prims, x: Exn<VmValue>, f: Frame, k: Callers, g: Globals)
    requires |f.handlers| > 0 && HandlerCode(f.m.code, f.handlers[|f.handlers| - 1].target) && !Takes(f)
    ensures var a := Step(P, Unwind(x, Caller(f, k), g)); a == Fault || Step(P, a) == Fault
  {
    hide ClausesAt, FinallyAt;
  }

  /** So the handler an exception meets can take it. */
  lemma HandlerTakes(P: Prims, e: Form, g0: Env, g: Globals, h: Globals, x: Exn<VmValue>, f: Frame, k: Callers, h1: Globals)
    requires Program(P, e, g0, g, h) && Reaches(P, Loaded(e, h), Unwind(x, Caller(f, k), h1)) && |f.handlers| > 0
    ensures Takes(f)
  {
    var s, a := Loaded(e, h), Unwind(x, Caller(f, k), h1);
    FrameHandlers(P, e, g, h, a, f);
    NeverFaults(P, e, g0, g, h);
    hide Loaded, Program, HandlerCode, Takes, Step, Reaches;
    ReachesThen(P, s, a);
    ReachesThen(P, s, Step(P, a));
    if !Takes(f) { UntakenFaults(P, x, f, k, h1); }
  }

  /** The innermost handler is a `finally` whose forms do not complete. */
  ghost predicate Breaks(P: Prims, x: Exn<VmValue>, f: Frame, k: Callers, g: Globals) {
    && Takes(f) && !ClausesAt(f.m.code, Target(f) + 1, CatchSlot(f))
    && forall f2, g2 :: !Completes(P, Taken(P, x, f), k, g, f2, g2, CatchSlot(f))
  }

  /** Where dispatching an exception in a compiled program comes to: to a clause
      that selects it, out of the frame, or to a `finally` that does not
      complete. */
  lemma {:induction false} Dispatched(P: Prims, e: Form, g0: Env, g: Globals, h: Globals, x: Exn<VmValue>, f: Frame, k: Callers, h1: Globals)
    returns (n: nat, x1: Exn<VmValue>, f1: Frame, g1: Globals)
    requires Program(P, e, g0, g, h)
    requires Reaches(P, Loaded(e, h), Unwind(x, Caller(f, k), h1))
    ensures Arrives(P, x, f, k, h1, n, x1, f1, g1) && (Ends(P, x1, f1) || Breaks(P, x1, f1, k, g1))
    decreases |f.handlers|
  {
    hide Loaded, Program, Completes, Reaches;
    n, x1, f1, g1 := |f.handlers|, x, f, h1;
    if |f.handlers| > 0 {
      HandlerTakes(P, e, g0, g, h, x, f, k, h1);
      if !Ends(P, x, f) && !Breaks(P, x, f, k, h1) {
        var f2, g2 := HandsOn(P, x, f, k, h1);
        PassedOn(P, x, f, k, h1, f2, g2);
        ReachesTrans(P, Loaded(e, h), Unwind(x, Caller(f, k), h1), Unwind(Again(P, x), Caller(f2, k), g2));
        n, x1, f1, g1 := Dispatched(P, e, g0, g, h, Again(P, x), f2, k, g2);
        Arrived(P, Again(P, x), f2, k, g2, n, x1, f1, g1);
      }
    }
  }

  /** A handler that neither selects nor breaks hands the exception on. */
  lemma HandsOn(P: Prims, x: Exn<VmValue>, f: Frame, k: Callers, g: Globals) returns (f2: Frame, g2: Globals)
    requires Takes(f) && !Ends(P, x, f) && !Breaks(P, x, f, k, g)
    ensures PassesOn(P, x, f, k, g, f2, g2)
  {
    hide Completes;
    var t, ex := Taken(P, x, f), CatchSlot(f);
    if ClausesAt(f.m.code, t.ip, ex) {
      f2, g2 := t.(ip := Choose(P, f.m.code, t.ip, ex, VmCaughtValue(P, x)).at), g;
    } else {
      f2, g2 :| Completes(P, t, k, g, f2, g2, ex);
    }
  }

  /** In a compiled program: wherever an exception is about to be dispatched in
      a frame, it begins a clause's body, with its value in the clause's slot,
      or leaves the frame, unless a `finally` on its way does not complete; and
      the scan says which of the two, but for too many clauses. */
  lemma CompiledScan(P: Prims, e: Form, g0: Env, g: Globals, h: Globals, x: Exn<VmValue>, f: Frame, k: Callers, h1: Globals)
    returns (n: nat, x1: Exn<VmValue>, f1: Frame, g1: Globals)
    requires Program(P, e, g0, g, h)
    requires Reaches(P, Loaded(e, h), Unwind(x, Caller(f, k), h1))
    ensures Arrives(P, x, f, k, h1, n, x1, f1, g1) && (Ends(P, x1, f1) || Breaks(P, x1, f1, k, g1))
    ensures Ends(P, x1, f1) ==>
              && (FrameCatches(P, f.m.code, f.handlers, VmCaughtValue(P, x)) <==>
                    n > 0 || exists j :: 0 <= j < |f.handlers| && TooMany(f.m.code, f.handlers[j].target))
              && (n == 0 ==> Reaches(P, Unwind(x, Caller(f, k), h1), Unwind(x1, k, g1)))
              && (n > 0 ==>
                    && Takes(f1) && ClausesAt(f.m.code, Target(f1) + 1, CatchSlot(f1))
                    && var c := Choose(P, f.m.code, Target(f1) + 1, CatchSlot(f1), VmCaughtValue(P, x));
                    && c.Selected? && Reaches(P, Unwind(x, Caller(f, k), h1), Run(Taken(P, x1, f1).(ip := c.at), k, g1)))
  {
    n, x1, f1, g1 := Dispatched(P, e, g0, g, h, x, f, k, h1);
    FrameHandlers(P, e, g, h, Unwind(x, Caller(f, k), h1), f);
    hide Loaded, Program, HandlerCode, TooMany, Arrives, Takes, Choose, Reaches, FrameCatches;
    if Ends(P, x1, f1) { ScanRight(P, x, f, k, h1, n, x1, f1, g1); }
  }
}
