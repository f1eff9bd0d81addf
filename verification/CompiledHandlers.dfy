/** Every handler a frame of a compiled, cleared form ever has is one the
    debugger's scan can read. */
module CompiledHandlers {
  import opened Options
  import opened Syntax
  import opened Bytecode
  import opened Values
  import opened Vm
  import opened Codegen
  import opened HandlerShape
  import opened LastReads
  import opened LayoutProof
  import opened Clearing
  import opened Lockstep
  import opened BoundedRuns
  import opened Placement
  import opened DebuggerScan

  lemma {:induction false} ClausesCleared(m: Module, p: nat, ex: nat)
    requires ClausesAt(m.code, p, ex) && StoreCaught(ex) in m.code
    ensures ClausesAt(ClearedModule(m).code, p, ex)
    decreases |m.code| - p
  {
    var C := m.code;
    assert forall i | p <= i < |C| && i <= p + 2 :: ClearedModule(m).code[i] == ClearedAt(m, i);
    if C[p] != Rethrow(ex) {
      assert !Eligible(C, m.arity, m.captures, p);
      ClausesCleared(m, p + 3 + C[p + 2].off, ex);
    }
  }

  lemma HandlerCleared(m: Module, t: nat)
    requires HandlerCode(m.code, t)
    ensures HandlerCode(ClearedModule(m).code, t)
  {
    var C, ex := m.code, m.code[t].slot;
    assert forall i | 0 <= i < |C| :: ClearedModule(m).code[i] == ClearedAt(m, i);
    assert C[t] == StoreCaught(ex);
    if ClausesAt(C, t + 1, ex) {
      ClausesCleared(m, t + 1, ex);
    } else {
      var q :| t + 1 <= q < |C| && C[q] == Rethrow(ex);
      assert ClearedModule(m).code[q] == Rethrow(ex);
    }
  }

  lemma LaidHandler(m: Module, i: nat)
    requires Laid(m) && i < |m.code| && m.code[i].TryBegin?
    ensures HandlerCode(m.code, i + 1 + m.code[i].off)
  {
    hide HandlerCode;
    var p, fin, named := BodyOf(m);
    assert p.lo <= i < p.hi;
  }

  lemma TwinHandlers(f: Frame, v: Frame)
    requires TwinFrame(f, v)
    ensures forall j | 0 <= j < |v.handlers| :: HandlerCode(v.m.code, v.handlers[j].target)
  {
    hide HandlerCode, ClearedModule, Laid;
    var H := HandlersOf(f.m);
    forall j | 0 <= j < |v.handlers| ensures HandlerCode(v.m.code, v.handlers[j].target) {
      LaidHandler(f.m, H[f.ip][j]);
      HandlerCleared(f.m, v.handlers[j].target);
    }
  }

  lemma {:induction false} TwinSuspended(k: Callers, l: Callers, v: Frame) returns (f: Frame)
    requires TwinCallers(k, l) && Suspended(v, l)
    ensures TwinFrame(f, v)
    decreases l
  {
    hide TwinFrame;
    if l.frame == v { f := k.frame; } else { f := TwinSuspended(k.rest, l.rest, v); }
  }

  /** The frames of a run are those the scan is asked about. */
  lemma FrameHandlers(P: Prims, e: Form, g: Globals, h: Globals, d: Config, v: Frame)
    requires PrimsBlind(P) && Check(e, NoLoop, true) == None && TwinGlobals(g, h)
    requires Reaches(P, Start(ClearedModule(TopModule(e)), h), d) && OnStack(v, d)
    ensures forall j | 0 <= j < |v.handlers| :: HandlerCode(v.m.code, v.handlers[j].target)
  {
    var n: nat :| Steps(P, Start(ClearedModule(TopModule(e)), h), n) == d;
    ClearingKeepsRuns(P, e, g, h, n);
    var c := Steps(P, Start(TopModule(e), g), n);
    hide TwinFrame, HandlerCode, Steps;
    var f: Frame;
    if d.Run? && v == d.f { f := c.f; } else { f := TwinSuspended(c.k, d.k, v); }
    TwinHandlers(f, v);
  }

  /** A clause from the `i`-th on selects `w`. */
  predicate AnySelects(P: Prims, cs: seq<Clause>, i: nat, w: VmValue) {
    exists j :: i <= j < |cs| && P.vmMatches(w, cs[j].classId)
  }

  lemma AnyGoes(P: Prims, cs: seq<Clause>, i: nat, w: VmValue)
    requires i < |cs|
    ensures AnySelects(P, cs, i, w) <==> P.vmMatches(w, cs[i].classId) || AnySelects(P, cs, i + 1, w)
  {
  }

  /** The clauses of a compiled `try`, one by one. */
  lemma {:induction false} ClausesChosen(P: Prims, C: seq<Instr>, cs: seq<Clause>, i: nat, slot: nat, sc: Scopes, pos: nat, w: VmValue)
    requires i <= |cs| && sc.Inner? && CodeAt(C, pos, CompileClauses(cs, i, slot, sc, pos).code)
    requires CodeAt(C, pos + |CompileClauses(cs, i, slot, sc, pos).code|, [Rethrow(slot)])
    ensures ClausesAt(C, pos, slot) && ClauseCount(C, pos, slot) == |cs| - i
    ensures Choose(P, C, pos, slot, w).Selected? <==> AnySelects(P, cs, i, w)
    decreases |cs| - i
  {
    hide CompileClauses, CompileBody, Restore, CodeAt;
    ClausesStand(C, cs, i, slot, sc, pos);
    if i == |cs| {
      ClausesEnd(C, cs, slot, sc, pos);
    } else {
      hide ClausesAt, Choose, ClauseCount, AnySelects;
      var b := CompileBody(cs[i].body, 0, Alias(sc, cs[i].name, slot), NoTarget, pos + 3);
      ClausesCompiled(cs, i, slot, sc, pos, b);
      var sc1 := Restore(b.sc, cs[i].name, sc);
      var p := pos + 3 + |b.code| + 1;
      var rest := CompileClauses(cs, i + 1, slot, sc1, p);
      ClauseCode(C, pos, PushLocal(slot), ExcMatch(cs[i].classId), JumpIfFalse(|b.code| + 1), b.code, Jump(|rest.code| + 1), rest.code);
      RestoredInner(b.sc, cs[i].name, sc);
      ClausesChosen(P, C, cs, i + 1, slot, sc1, p, w);
      ChoiceGoes(P, C, pos, slot, cs[i].classId, |b.code| + 1, w);
      AnyGoes(P, cs, i, w);
    }
  }

  lemma ChoiceGoes(P: Prims, C: seq<Instr>, pos: nat, slot: nat, classId: nat, off: nat, w: VmValue)
    requires CodeAt(C, pos, [PushLocal(slot)]) && CodeAt(C, pos + 1, [ExcMatch(classId)]) && CodeAt(C, pos + 2, [JumpIfFalse(off)])
    requires ClausesAt(C, pos, slot) && ClausesAt(C, pos + 3 + off, slot)
    ensures ClauseCount(C, pos, slot) == 1 + ClauseCount(C, pos + 3 + off, slot)
    ensures Choose(P, C, pos, slot, w) ==
              if P.vmMatches(w, classId) then Selected(pos + 3) else Choose(P, C, pos + 3 + off, slot, w)
  {
    CodeAtOne(C, pos, PushLocal(slot));
    CodeAtOne(C, pos + 1, ExcMatch(classId));
    CodeAtOne(C, pos + 2, JumpIfFalse(off));
  }

  /** The scan of a `try`'s clauses: it says that one selects `w` exactly when
      one does, or there are too many of them to look at. */
  lemma ClausesAnswered(P: Prims, C: seq<Instr>, cs: seq<Clause>, slot: nat, sc: Scopes, t: nat, w: VmValue)
    requires sc.Inner? && t < |C| && C[t] == StoreCaught(slot) && CodeAt(C, t + 1, CompileClauses(cs, 0, slot, sc, t + 1).code)
    requires CodeAt(C, t + 1 + |CompileClauses(cs, 0, slot, sc, t + 1).code|, [Rethrow(slot)])
    ensures HandlerCatches(P, C, t, w) <==> AnySelects(P, cs, 0, w) || |cs| >= 4096
  {
    hide CompileClauses, CodeAt;
    ClausesChosen(P, C, cs, 0, slot, sc, t + 1, w);
    HandlerScanned(P, C, t, w);
  }
}
