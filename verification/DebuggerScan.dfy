/** What the debugger asks when something is thrown: does the frame catch it?
    It reads the handlers' code; the answer is what dispatching would do. */
module DebuggerScan {
  import opened Options
  import opened Bytecode
  import opened Values
  import opened Vm
  import opened HandlerShape

  const MAX_CLAUSES := 4096

  /** From the clause at `ip` on, `left` at most: one selects `w`, or the code
      is not what a `try` compiles to. */
  function ClausesCatch(P: Prims, C: seq<Instr>, ip: nat, ex: nat, w: VmValue, left: nat): bool
    decreases left
  {
    if left == 0 || ip >= |C| then true
    else if C[ip].Rethrow? || (C[ip] != PushLocal(ex) && C[ip] != PushLocalClear(ex)) then false
    else if ip + 2 >= |C| || !C[ip + 1].ExcMatch? || !C[ip + 2].JumpIfFalse? then true
    else P.vmMatches(w, C[ip + 1].classId) || ClausesCatch(P, C, ip + 3 + C[ip + 2].off, ex, w, left - 1)
  }

  function HandlerCatches(P: Prims, C: seq<Instr>, t: nat, w: VmValue): bool {
    t >= |C| || !C[t].StoreCaught? || ClausesCatch(P, C, t + 1, C[t].slot, w, MAX_CLAUSES)
  }

  function FrameCatches(P: Prims, C: seq<Instr>, hs: seq<Handler>, w: VmValue): bool {
    hs != [] && (HandlerCatches(P, C, hs[|hs| - 1].target, w) || FrameCatches(P, C, hs[..|hs| - 1], w))
  }

  /** The scan of one handler's code. */
  method ScanHandler(P: Prims, C: seq<Instr>, t: nat, w: VmValue) returns (r: bool)
    ensures r == HandlerCatches(P, C, t, w)
  {
    if t >= |C| || !C[t].StoreCaught? { return true; }
    var ex, clauses := C[t].slot, 0;
    var ip: nat := t + 1;
    while clauses < MAX_CLAUSES
      invariant clauses <= MAX_CLAUSES
      invariant HandlerCatches(P, C, t, w) == ClausesCatch(P, C, ip, ex, w, MAX_CLAUSES - clauses)
    {
      if ip >= |C| { return true; }
      if C[ip].Rethrow? || !ReadsSlot(C[ip], ex) { return false; }
      if ip + 2 >= |C| || !C[ip + 1].ExcMatch? || !C[ip + 2].JumpIfFalse? { return true; }
      if P.vmMatches(w, C[ip + 1].classId) { return true; }
      ip, clauses := ip + 3 + C[ip + 2].off, clauses + 1;
    }
    return true;
  }

  /** The scan of a frame's handlers, innermost first. */
  method ScanFrame(P: Prims, f: Frame, w: VmValue) returns (r: bool)
    ensures r == FrameCatches(P, f.m.code, f.handlers, w)
  {
    var n := |f.handlers|;
    assert f.handlers[..n] == f.handlers;
    while n > 0
      invariant n <= |f.handlers|
      invariant FrameCatches(P, f.m.code, f.handlers, w) == FrameCatches(P, f.m.code, f.handlers[..n], w)
    {
      assert f.handlers[..n][..n - 1] == f.handlers[..n - 1];
      var catches := ScanHandler(P, f.m.code, f.handlers[n - 1].target, w);
      if catches { return true; }
      n := n - 1;
    }
    return false;
  }

  // ---- what dispatching does

  /** The body of the first clause that selects `w`, or the RETHROW. */
  datatype Choice = Selected(at: nat) | Unmatched(at: nat)

  function Choose(P: Prims, C: seq<Instr>, p: nat, ex: nat, w: VmValue): Choice
    requires ClausesAt(C, p, ex)
    decreases |C| - p
  {
    if C[p] == Rethrow(ex) then Unmatched(p)
    else if P.vmMatches(w, C[p + 1].classId) then Selected(p + 3)
    else Choose(P, C, p + 3 + C[p + 2].off, ex, w)
  }

  /** The handler at `t` has a clause for `w`. */
  predicate Selects(P: Prims, C: seq<Instr>, t: nat, w: VmValue) {
    t < |C| && C[t].StoreCaught? && ClausesAt(C, t + 1, C[t].slot) && Choose(P, C, t + 1, C[t].slot, w).Selected?
  }

  /** It has so many clauses that the scan gives up. */
  predicate TooMany(C: seq<Instr>, t: nat) {
    t < |C| && C[t].StoreCaught? && ClausesAt(C, t + 1, C[t].slot) && ClauseCount(C, t + 1, C[t].slot) >= 4096
  }

  lemma {:induction false} ClausesScanned(P: Prims, C: seq<Instr>, p: nat, ex: nat, w: VmValue, left: nat)
    requires ClausesAt(C, p, ex)
    ensures ClausesCatch(P, C, p, ex, w, left) <==> Choose(P, C, p, ex, w).Selected? || ClauseCount(C, p, ex) >= left
    decreases |C| - p
  {
    if left > 0 && C[p] != Rethrow(ex) && !P.vmMatches(w, C[p + 1].classId) {
      ClausesScanned(P, C, p + 3 + C[p + 2].off, ex, w, left - 1);
    }
  }

  /** The scan is right of a handler unless it gives up. */
  lemma HandlerScanned(P: Prims, C: seq<Instr>, t: nat, w: VmValue)
    requires HandlerCode(C, t)
    ensures HandlerCatches(P, C, t, w) <==> Selects(P, C, t, w) || TooMany(C, t)
  {
    var ex := C[t].slot;
    if ClausesAt(C, t + 1, ex) { ClausesScanned(P, C, t + 1, ex, w, MAX_CLAUSES); }
  }

  lemma {:induction false} FrameScanned(P: Prims, C: seq<Instr>, hs: seq<Handler>, w: VmValue)
    requires forall n | 0 <= n < |hs| :: HandlerCode(C, hs[n].target)
    ensures FrameCatches(P, C, hs, w) <==>
              exists n :: 0 <= n < |hs| && (Selects(P, C, hs[n].target, w) || TooMany(C, hs[n].target))
  {
    hide HandlerCode, TooMany, Selects, HandlerCatches;
    if hs != [] {
      var last := |hs| - 1;
      FrameScanned(P, C, hs[..last], w);
      HandlerScanned(P, C, hs[last].target, w);
      if n :| 0 <= n < |hs| && (Selects(P, C, hs[n].target, w) || TooMany(C, hs[n].target)) {
        assert n < last ==> hs[..last][n] == hs[n];
      }
    }
  }

  /** The innermost handler can take an exception. */
  predicate Takes(f: Frame) {
    && |f.handlers| > 0
    && var h := f.handlers[|f.handlers| - 1];
    && h.depth <= |f.stack| && h.target < |f.m.code| && f.m.code[h.target].StoreCaught?
    && f.m.code[h.target].slot < |f.locals|
  }

  function Target(f: Frame): nat
    requires Takes(f)
  {
    f.handlers[|f.handlers| - 1].target
  }

  function CatchSlot(f: Frame): nat
    requires Takes(f)
  {
    f.m.code[Target(f)].slot
  }

  /** The frame once it has, and has kept the exception in its slot. */
  function Taken(P: Prims, x: Exn<VmValue>, f: Frame): Frame
    requires Takes(f)
  {
    var ex := CatchSlot(f);
    f.(ip := Target(f) + 1, stack := f.stack[..f.handlers[|f.handlers| - 1].depth],
       locals := f.locals[ex := VmCaughtValue(P, x)], handlers := f.handlers[..|f.handlers| - 1],
       caught := if x.Managed? then f.caught[ex := x] else f.caught - {ex}, just := None)
  }

  lemma TakesIt(P: Prims, x: Exn<VmValue>, f: Frame, k: Callers, g: Globals)
    requires Takes(f)
    ensures Reaches(P, Unwind(x, Caller(f, k), g), Run(Taken(P, x, f), k, g))
  {
    var a := Unwind(x, Caller(f, k), g);
    var b := Step(P, a);
    var s := f.stack[..f.handlers[|f.handlers| - 1].depth];
    assert b.f.stack == s + [VmCaughtValue(P, x)] && b.f.stack[..|s|] == s;
    assert Step(P, b) == Run(Taken(P, x, f), k, g);
    ReachesStep(P, a);
    ReachesThen(P, a, b);
  }

  lemma ClausePassed(P: Prims, f: Frame, k: Callers, g: Globals, ex: nat)
    requires f.ip + 2 < |f.m.code| && f.m.code[f.ip] == PushLocal(ex) && f.m.code[f.ip + 1].ExcMatch? && f.m.code[f.ip + 2].JumpIfFalse?
    requires ex < |f.locals|
    ensures var C := f.m.code;
            var to := if P.vmMatches(f.locals[ex], C[f.ip + 1].classId) then f.ip + 3 else f.ip + 3 + C[f.ip + 2].off;
            Reaches(P, Run(f, k, g), Run(f.(ip := to), k, g))
  {
    var a := Run(f, k, g);
    var v, c := f.locals[ex], f.m.code[f.ip + 1].classId;
    var f1 := f.(ip := f.ip + 1, stack := f.stack + [v]);
    var f2 := f.(ip := f.ip + 2, stack := f.stack + [Bool(P.vmMatches(v, c))]);
    assert Step(P, a) == Run(f1, k, g);
    ReachesStep(P, a);
    assert (f.stack + [v])[..|f.stack|] == f.stack;
    assert Step(P, Run(f1, k, g)) == Run(f2, k, g);
    ReachesThen(P, a, Run(f1, k, g));
    assert f2.stack[..|f.stack|] == f.stack;
    ReachesThen(P, a, Run(f2, k, g));
  }

  /** The clauses run to the body of the one chosen, or to the RETHROW. */
  lemma {:induction false} ClausesRun(P: Prims, f: Frame, k: Callers, g: Globals, ex: nat)
    requires ClausesAt(f.m.code, f.ip, ex) && ex < |f.locals|
    ensures Reaches(P, Run(f, k, g), Run(f.(ip := Choose(P, f.m.code, f.ip, ex, f.locals[ex]).at), k, g))
    decreases |f.m.code| - f.ip
  {
    var C := f.m.code;
    if C[f.ip] == Rethrow(ex) {
      ReachesSelf(P, Run(f, k, g));
    } else {
      ClausePassed(P, f, k, g, ex);
      if !P.vmMatches(f.locals[ex], C[f.ip + 1].classId) {
        var f1 := f.(ip := f.ip + 3 + C[f.ip + 2].off);
        ClausesRun(P, f1, k, g, ex);
        ReachesTrans(P, Run(f, k, g), Run(f1, k, g), Run(f1.(ip := Choose(P, C, f1.ip, ex, f.locals[ex]).at), k, g));
      }
    }
  }

  /** What a RETHROW of the exception `x` raises. */
  function Again(P: Prims, x: Exn<VmValue>): Exn<VmValue> {
    if x.Managed? then x else Managed(VmCaughtValue(P, x), 0)
  }

  /** Some `finally` forms, begun at `f1`, complete normally at `f2`, at the
      RETHROW of the slot `ex`. */
  ghost predicate Completes(P: Prims, f1: Frame, k: Callers, g1: Globals, f2: Frame, g2: Globals, ex: nat) {
    && Reaches(P, Run(f1, k, g1), Run(f2, k, g2))
    && f2.m == f1.m && f2.ip < |f2.m.code| && f2.m.code[f2.ip] == Rethrow(ex) && f2.handlers == f1.handlers
    && ex < |f2.locals| && ex < |f1.locals| && f2.locals[ex] == f1.locals[ex]
    && (ex in f1.caught <==> ex in f2.caught) && (ex in f1.caught ==> f2.caught[ex] == f1.caught[ex])
  }

  /** The innermost handler of `f` takes `x` and raises it again, from `f2`: no
      clause of it selects `x`, or it is a `finally` whose forms complete. */
  ghost predicate PassesOn(P: Prims, x: Exn<VmValue>, f: Frame, k: Callers, g: Globals, f2: Frame, g2: Globals) {
    && Takes(f)
    && var f1, ex := Taken(P, x, f), CatchSlot(f);
    if ClausesAt(f.m.code, f1.ip, ex) then
      var c := Choose(P, f.m.code, f1.ip, ex, VmCaughtValue(P, x));
      c.Unmatched? && f2 == f1.(ip := c.at) && g2 == g
    else Completes(P, f1, k, g, f2, g2, ex)
  }

  lemma {:induction false} UnmatchedEnds(P: Prims, C: seq<Instr>, p: nat, ex: nat, w: VmValue)
    requires ClausesAt(C, p, ex) && Choose(P, C, p, ex, w).Unmatched?
    ensures var at := Choose(P, C, p, ex, w).at; at < |C| && C[at] == Rethrow(ex)
    decreases |C| - p
  {
    if C[p] != Rethrow(ex) { UnmatchedEnds(P, C, p + 3 + C[p + 2].off, ex, w); }
  }

  lemma PassedOn(P: Prims, x: Exn<VmValue>, f: Frame, k: Callers, g: Globals, f2: Frame, g2: Globals)
    requires PassesOn(P, x, f, k, g, f2, g2)
    ensures Reaches(P, Unwind(x, Caller(f, k), g), Unwind(Again(P, x), Caller(f2, k), g2))
    ensures f2.m == f.m && f2.handlers == f.handlers[..|f.handlers| - 1]
    ensures VmCaughtValue(P, Again(P, x)) == VmCaughtValue(P, x)
    ensures !Selects(P, f.m.code, f.handlers[|f.handlers| - 1].target, VmCaughtValue(P, x))
  {
    var f1, ex := Taken(P, x, f), CatchSlot(f);
    var a := Unwind(x, Caller(f, k), g);
    TakesIt(P, x, f, k, g);
    if ClausesAt(f.m.code, f1.ip, ex) {
      ClausesRun(P, f1, k, g, ex);
      UnmatchedEnds(P, f.m.code, f1.ip, ex, VmCaughtValue(P, x));
    }
    ReachesTrans(P, a, Run(f1, k, g), Run(f2, k, g2));
    assert Step(P, Run(f2, k, g2)) == Unwind(Again(P, x), Caller(f2, k), g2);
    ReachesThen(P, a, Run(f2, k, g2));
  }

  /** The handlers of `f` from the `n`-th on pass `x` on, one after the other:
      it is `x1` then, in `f1`. */
  ghost predicate Arrives(P: Prims, x: Exn<VmValue>, f: Frame, k: Callers, g: Globals, n: nat, x1: Exn<VmValue>, f1: Frame, g1: Globals)
    decreases |f.handlers|
  {
    if |f.handlers| <= n then |f.handlers| == n && x1 == x && f1 == f && g1 == g
    else exists f2: Frame, g2: Globals ::
      |f2.handlers| < |f.handlers| && PassesOn(P, x, f, k, g, f2, g2) && Arrives(P, Again(P, x), f2, k, g2, n, x1, f1, g1)
  }

  lemma {:induction false} Arrived(P: Prims, x: Exn<VmValue>, f: Frame, k: Callers, g: Globals, n: nat, x1: Exn<VmValue>, f1: Frame, g1: Globals)
    requires Arrives(P, x, f, k, g, n, x1, f1, g1)
    ensures Reaches(P, Unwind(x, Caller(f, k), g), Unwind(x1, Caller(f1, k), g1))
    ensures n <= |f.handlers| && f1.m == f.m && f1.handlers == f.handlers[..n] && VmCaughtValue(P, x1) == VmCaughtValue(P, x)
    ensures forall j | n <= j < |f.handlers| :: !Selects(P, f.m.code, f.handlers[j].target, VmCaughtValue(P, x))
    decreases |f.handlers|
  {
    hide PassesOn, Selects, VmCaughtValue, Again;
    if |f.handlers| <= n {
      ReachesSelf(P, Unwind(x, Caller(f, k), g));
    } else {
      var f2: Frame, g2: Globals :|
        |f2.handlers| < |f.handlers| && PassesOn(P, x, f, k, g, f2, g2) && Arrives(P, Again(P, x), f2, k, g2, n, x1, f1, g1);
      PassedOn(P, x, f, k, g, f2, g2);
      Arrived(P, Again(P, x), f2, k, g2, n, x1, f1, g1);
      ReachesTrans(P, Unwind(x, Caller(f, k), g), Unwind(Again(P, x), Caller(f2, k), g2), Unwind(x1, Caller(f1, k), g1));
    }
  }

  /** Dispatching `x` ends here: no handler is left, or the innermost left has a
      clause for it. */
  predicate Ends(P: Prims, x: Exn<VmValue>, f: Frame) {
    f.handlers == [] || (Takes(f) && Selects(P, f.m.code, Target(f), VmCaughtValue(P, x)))
  }

  /** The answer, given that the `finally` forms met on the way complete: the
      body of a clause begins to run, with the exception's value in its slot, or
      the frame is left; the scan says which, unless a handler has too many
      clauses, and is never wrong when it says that nothing catches. */
  lemma ScanRight(P: Prims, x: Exn<VmValue>, f: Frame, k: Callers, g: Globals, n: nat, x1: Exn<VmValue>, f1: Frame, g1: Globals)
    requires forall j | 0 <= j < |f.handlers| :: HandlerCode(f.m.code, f.handlers[j].target)
    requires Arrives(P, x, f, k, g, n, x1, f1, g1) && Ends(P, x1, f1)
    ensures FrameCatches(P, f.m.code, f.handlers, VmCaughtValue(P, x)) <==>
              n > 0 || exists j :: 0 <= j < |f.handlers| && TooMany(f.m.code, f.handlers[j].target)
    ensures n == 0 ==> Reaches(P, Unwind(x, Caller(f, k), g), Unwind(x1, k, g1))
    ensures n > 0 ==>
              && Takes(f1) && ClausesAt(f.m.code, Target(f1) + 1, CatchSlot(f1))
              && var c := Choose(P, f.m.code, Target(f1) + 1, CatchSlot(f1), VmCaughtValue(P, x));
              && c.Selected? && Reaches(P, Unwind(x, Caller(f, k), g), Run(Taken(P, x1, f1).(ip := c.at), k, g1))
  {
    hide HandlerCode, TooMany, PassesOn;
    var a, b, w := Unwind(x, Caller(f, k), g), Unwind(x1, Caller(f1, k), g1), VmCaughtValue(P, x);
    Arrived(P, x, f, k, g, n, x1, f1, g1);
    FrameScanned(P, f.m.code, f.handlers, w);
    if n == 0 {
      ReachesThen(P, a, b);
    } else {
      assert Target(f1) == f.handlers[n - 1].target;
      assert Selects(P, f.m.code, f.handlers[n - 1].target, w);
      var t := Taken(P, x1, f1);
      TakesIt(P, x1, f1, k, g1);
      ClausesRun(P, t, k, g1, CatchSlot(f1));
      ReachesTrans(P, a, b, Run(t, k, g1));
      ReachesTrans(P, a, Run(t, k, g1), Run(t.(ip := Choose(P, f.m.code, t.ip, CatchSlot(f1), w).at), k, g1));
    }
  }
}
