/** No run of a compiled and cleared form takes an operand stack past what the
    flow analysis finds for its body. */
module BoundedRuns {
  import opened Options
  import opened Syntax
  import opened Bytecode
  import opened Values
  import opened Vm
  import opened Codegen
  import opened StackDepth
  import opened StackBound
  import opened CompiledDepth
  import opened Clearing
  import opened LastReads
  import Layout
  import LayoutProof
  import Lockstep

  /** `b` is `m` or a body in it. */
  ghost predicate BodyIn(b: Module, m: Module)
    decreases m
  {
    b == m || exists i :: 0 <= i < |m.code| && m.code[i].MakeFn? && BodyIn(b, m.code[i].body)
  }

  lemma LaidHandlers(m: Module)
    requires LayoutProof.Laid(m)
    ensures HandlersInRange(m.code)
    ensures forall i | 0 <= i < |m.code| && m.code[i].MakeFn? :: LayoutProof.Laid(m.code[i].body)
  {
    var p, fin, named := BodyOf(m);
    var H := HandlersOf(m);
    forall i: nat | i < |m.code| && m.code[i].TryBegin? ensures i + 1 + m.code[i].off < |m.code| {
      assert i < p.hi;
      assert Layout.Forward(m.code, i, i + 1 + m.code[i].off);
      Goes(m, p, fin, named, H, i, i + 1 + m.code[i].off);
    }
    forall i | 0 <= i < |m.code| && m.code[i].MakeFn? ensures LayoutProof.Laid(m.code[i].body) {
      assert p.lo <= i < p.hi;
      LayoutProof.MadeLaid(m.code[i].body);
    }
  }

  lemma {:induction false} LaidIn(b: Module, m: Module)
    requires LayoutProof.Laid(m) && BodyIn(b, m)
    ensures HandlersInRange(b.code)
    decreases m
  {
    LaidHandlers(m);
    if b != m {
      var i :| 0 <= i < |m.code| && m.code[i].MakeFn? && BodyIn(b, m.code[i].body);
      LaidIn(b, m.code[i].body);
    }
  }

  /** Clearing moves no jump and no depth. */
  lemma ClearedCode(m: Module, i: nat, d: int)
    requires i < |m.code|
    ensures |ClearedModule(m).code| == |m.code|
    ensures Edges(ClearedModule(m).code, i, d) == Edges(m.code, i, d)
    ensures ClearedModule(m).code[i].TryBegin? == m.code[i].TryBegin? && ClearedModule(m).code[i].MakeFn? == m.code[i].MakeFn?
    ensures m.code[i].TryBegin? ==> ClearedModule(m).code[i] == m.code[i]
    ensures m.code[i].MakeFn? ==> ClearedModule(m).code[i] == MakeFn(ClearedModule(m.code[i].body))
  {
    assert ClearedModule(m).code[i] == ClearedAt(m, i);
    if m.code[i].MakeFn? { SameCaptures(m.code[i].body); }
    hide Eligible, ClearedModule;
  }

  lemma SameCaptures(m: Module)
    ensures ClearedModule(m).captures == m.captures
  {
  }

  lemma {:induction false} BodyInCleared(b: Module, m: Module) returns (b0: Module)
    requires BodyIn(b, ClearedModule(m))
    ensures BodyIn(b0, m) && b == ClearedModule(b0)
    decreases m
  {
    var c := ClearedModule(m);
    if b == c {
      b0 := m;
    } else {
      var i: nat :| i < |c.code| && c.code[i].MakeFn? && BodyIn(b, c.code[i].body);
      ClearedCode(m, i, 0);
      b0 := BodyInCleared(b, m.code[i].body);
    }
  }

  lemma ClearedHandlers(m: Module)
    requires HandlersInRange(m.code)
    ensures HandlersInRange(ClearedModule(m).code)
  {
    forall i: nat | i < |m.code| && ClearedModule(m).code[i].TryBegin? ensures i + 1 + ClearedModule(m).code[i].off < |m.code| {
      ClearedCode(m, i, 0);
    }
  }

  /** A cleared body has the depths it had. */
  lemma {:induction false} ExactCleared(m: Module)
    requires ExactModule(m)
    ensures ExactModule(ClearedModule(m))
    decreases m
  {
    var D :| Exact(m.code, D);
    var c := ClearedModule(m);
    forall i, k | 0 <= i < |c.code| && D[i] >= 0 && 0 <= k < |Edges(c.code, i, D[i])|
      ensures var e := Edges(c.code, i, D[i])[k]; e.to < |c.code| && e.depth >= 0 && D[e.to] == e.depth
    {
      ClearedCode(m, i, D[i]);
    }
    assert Exact(c.code, D);
    forall i | 0 <= i < |c.code| && c.code[i].MakeFn? ensures ExactModule(c.code[i].body) {
      ClearedCode(m, i, 0);
      ExactCleared(m.code[i].body);
    }
  }

  lemma {:induction false} ExactIn(b: Module, m: Module)
    requires ExactModule(m) && BodyIn(b, m)
    ensures ExactModule(b)
    decreases m
  {
    if b != m {
      var i :| 0 <= i < |m.code| && m.code[i].MakeFn? && BodyIn(b, m.code[i].body);
      ExactIn(b, m.code[i].body);
    }
  }

  /** Every body of an accepted form, cleared, has an analysis that ends, so
      CompiledDepth.CompiledStack finds its depth. */
  lemma ClearedBodiesExact(e: Form, b: Module)
    requires Accepted(e) && BodyIn(b, ClearedModule(TopModule(e)))
    ensures ExactModule(b)
  {
    AcceptedExact(e);
    ExactCleared(TopModule(e));
    ExactIn(b, ClearedModule(TopModule(e)));
  }

  /** `f` is running, or waits for a call, or is being unwound to. */
  predicate Suspended(f: Frame, k: Callers) { k.Caller? && (k.frame == f || Suspended(f, k.rest)) }

  predicate OnStack(f: Frame, c: Config) {
    match c
    case Run(g, k, _) => f == g || Suspended(f, k)
    case Unwind(_, k, _) => Suspended(f, k)
    case _ => false
  }

  lemma {:induction false} SuspendedFits(A: Analysis, f: Frame, k: Callers)
    requires CallersFit(A, k) && Suspended(f, k) && Covers(A, f.m)
    ensures |f.stack| <= A.deepest(f.m)
  {
    if k.frame != f { SuspendedFits(A, f, k.rest); }
  }

  lemma StartFits(A: Analysis, m: Module, h: Globals)
    ensures AllFit(A, Start(m, h))
  {
    if Covers(A, m) && |m.code| > 0 { assert A.depth(m)[0] >= 0; }
  }

  /** In every state a compiled and cleared form reaches, the stack of every
      frame that runs one of its bodies is within what the analysis found for
      that body: any depths `D` consistent with it and their deepest, `n`. */
  lemma FramesBounded(P: Prims, e: Form, h: Globals, c: Config, f: Frame, D: seq<int>, n: nat)
    requires Check(e, NoLoop, true) == None && Reaches(P, Start(ClearedModule(TopModule(e)), h), c)
    requires OnStack(f, c) && BodyIn(f.m, ClearedModule(TopModule(e)))
    requires Consistent(f.m.code, D) && Deepest(f.m.code, D, n)
    ensures |f.stack| <= n
  {
    var m := TopModule(e);
    var b0 := BodyInCleared(f.m, m);
    Lockstep.TopLaid(e);
    LaidIn(b0, m);
    ClearedHandlers(b0);
    var A := Analysis(_ => D, _ => n);
    assert Covers(A, f.m);
    hide Covers, Fits, Raising, Check;
    var steps: nat :| Steps(P, Start(ClearedModule(m), h), steps) == c;
    StartFits(A, ClearedModule(m), h);
    RunFits(A, P, Start(ClearedModule(m), h), steps);
    FrameFits(A, f, c);
  }

  lemma FrameFits(A: Analysis, f: Frame, c: Config)
    requires AllFit(A, c) && OnStack(f, c) && Covers(A, f.m)
    ensures |f.stack| <= A.deepest(f.m)
  {
    match c
    case Run(g, k, _) => if f != g { SuspendedFits(A, f, k); }
    case Unwind(_, k, _) => if k.frame != f { SuspendedFits(A, f, k.rest); }
    case _ =>
  }
}
