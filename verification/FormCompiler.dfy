/** The compiler as it runs: it appends words to a module, patches jumps once
    their targets are known, and keeps the scopes of the fns being compiled. */
module FormCompiler {
  import opened Options
  import opened Syntax
  import opened Bytecode
  import opened Codegen
  import opened Assembler
  import opened LastReads
  import opened ClearingPass

  datatype RecurTarget = RecurTarget(bodyStart: nat, slots: seq<nat>, tryDepth: nat)

  datatype FnScope = FnScope(nameToSlot: map<string, nat>, nextSlot: nat, arity: nat, captures: seq<Capture>,
                             recurStack: seq<RecurTarget>, tryDepth: nat)

  /** The active scopes as the generated code's definition has them. */
  function Spec(s: seq<FnScope>): Scopes {
    if |s| == 0 then NoScope
    else
      var top := s[|s| - 1];
      Inner(Scope(top.nameToSlot, top.nextSlot, top.captures), Spec(s[..|s| - 1]))
  }

  function Ctx(s: seq<FnScope>): RecurCtx {
    if |s| == 0 || |s[|s| - 1].recurStack| == 0 then NoLoop
    else
      var top := s[|s| - 1];
      var t := top.recurStack[|top.recurStack| - 1];
      InLoop(|t.slots|, t.tryDepth != top.tryDepth)
  }

  /** What `recur` jumps to here; nothing across a `try`. */
  function Recurs(s: seq<FnScope>): Target {
    if Ctx(s).NoLoop? || Ctx(s).acrossTry then NoTarget
    else
      var top := s[|s| - 1];
      var t := top.recurStack[|top.recurStack| - 1];
      Target(t.bodyStart, t.slots)
  }

  /** Compiling a form leaves these parts of the scopes alone. */
  ghost predicate SameFrames(a: seq<FnScope>, b: seq<FnScope>) {
    |a| == |b| && forall i | 0 <= i < |a| ::
      && a[i].arity == b[i].arity && a[i].recurStack == b[i].recurStack && a[i].tryDepth == b[i].tryDepth
      && a[i].nextSlot <= b[i].nextSlot
  }

  /** A recur target is at most as deep in `try`s as the code that sees it. */
  predicate Nested(s: seq<FnScope>) {
    forall i, k | 0 <= i < |s| && 0 <= k < |s[i].recurStack| :: s[i].recurStack[k].tryDepth <= s[i].tryDepth
  }

  lemma SameContext(a: seq<FnScope>, b: seq<FnScope>)
    requires SameFrames(a, b)
    ensures Ctx(a) == Ctx(b) && Recurs(a) == Recurs(b) && (|a| == 0 <==> |b| == 0) && (Nested(a) ==> Nested(b))
  {
  }

  lemma SpecTop(s: seq<FnScope>)
    ensures Spec(s).NoScope? <==> |s| == 0
    ensures |s| > 0 ==> var top := s[|s| - 1];
              Spec(s) == Inner(Scope(top.nameToSlot, top.nextSlot, top.captures), Spec(s[..|s| - 1]))
  {
  }

  /** `s` with `name` captured from `source` of the scope around. */
  function Capturing(s: FnScope, name: string, source: nat): FnScope {
    s.(nextSlot := s.nextSlot + 1, nameToSlot := s.nameToSlot[name := s.nextSlot],
       captures := s.captures + [Capture(name, source, s.nextSlot)])
  }

  lemma {:induction false} Unbound(name: string, s: seq<FnScope>)
    requires forall k | 0 <= k < |s| :: name !in s[k].nameToSlot
    ensures Resolve(name, Spec(s)) == NotLocal
  {
    if |s| > 0 { Unbound(name, s[..|s| - 1]); }
  }

  lemma BoundHere(name: string, s: seq<FnScope>)
    requires |s| > 0 && name in s[|s| - 1].nameToSlot
    ensures Resolve(name, Spec(s)) == Local(s[|s| - 1].nameToSlot[name], Spec(s))
  {
  }

  lemma CaptureIn(name: string, s: seq<FnScope>, outer: seq<FnScope>, source: nat)
    requires |s| > 0 && name !in s[|s| - 1].nameToSlot && Resolve(name, Spec(s[..|s| - 1])) == Local(source, Spec(outer))
    ensures Resolve(name, Spec(s)) == Local(s[|s| - 1].nextSlot, Spec(outer + [Capturing(s[|s| - 1], name, source)]))
  {
    var t := outer + [Capturing(s[|s| - 1], name, source)];
    assert t[..|t| - 1] == outer;
  }

  /** `name` captured in every scope below the `i`-th, where it is `source`. */
  ghost predicate CapturedUpTo(name: string, was: seq<FnScope>, now: seq<FnScope>, i: nat, source: nat) {
    && |now| == |was| && i <= |was| && now[i..] == was[i..] && SameFrames(was, now)
    && Resolve(name, Spec(was[..i])) == Local(source, Spec(now[..i]))
  }

  lemma CaptureNext(name: string, was: seq<FnScope>, now: seq<FnScope>, i: nat, source: nat)
    requires CapturedUpTo(name, was, now, i, source) && i < |was| && name !in was[i].nameToSlot
    ensures CapturedUpTo(name, was, now[i := Capturing(now[i], name, source)], i + 1, now[i].nextSlot)
  {
    assert now[i] == now[i..][0] == was[i..][0] == was[i];
    assert was[..i + 1][..i] == was[..i];
    CaptureIn(name, was[..i + 1], now[..i], source);
    hide Spec, Resolve;
    var next := now[i := Capturing(now[i], name, source)];
    assert next[..i + 1] == now[..i] + [next[i]];
    assert next[i + 1..] == now[i..][1..] == was[i..][1..] == was[i + 1..];
  }

  lemma AllCaptured(name: string, was: seq<FnScope>, now: seq<FnScope>, source: nat)
    requires CapturedUpTo(name, was, now, |was|, source)
    ensures Resolve(name, Spec(was)) == Local(source, Spec(now)) && SameFrames(was, now)
  {
    assert was[..|was|] == was && now[..|was|] == now;
  }

  /** The instructions as they come out: inner bodies have been cleared. */
  function Inside(code: seq<Instr>): (r: seq<Instr>)
    ensures |r| == |code|
  {
    seq(|code|, i requires 0 <= i < |code| => if code[i].MakeFn? then MakeFn(ClearedModule(code[i].body)) else code[i])
  }

  lemma InsideJoin(a: seq<Instr>, b: seq<Instr>)
    ensures Inside(a + b) == Inside(a) + Inside(b)
  {
  }

  lemma InsideOne(i: Instr)
    requires !i.MakeFn?
    ensures Inside([i]) == [i]
  {
  }

  function FirstError(a: Option<CompileError>, b: Option<CompileError>): Option<CompileError> {
    if a.Some? then a else b
  }

  /** What a status says of the compiler's checks. */
  ghost predicate Says(r: Status, check: Option<CompileError>) {
    && (r == Done ==> check == None)
    && (r.Failed? && r.failure.Refused? ==> check == Some(r.failure.error))
    && (r.Failed? && r.failure.TooLarge? ==> r.failure.operand > MAX_OPERAND)
  }

  /** The module and the scopes after code `p` has been appended to `was`. */
  ghost predicate Grown(was: seq<Instr>, now: seq<Instr>, s: seq<FnScope>, s1: seq<FnScope>, p: Piece) {
    now == was + Inside(p.code) && SameFrames(s, s1) && Spec(s1) == p.sc
  }

  /** `J` starts with `I` once the jumps at `ats` go to `end`. */
  ghost predicate Agrees(I: seq<Instr>, J: seq<Instr>, base: nat, ats: seq<nat>, end: nat) {
    |I| <= |J| && forall k: nat | k < |I| :: AgreesAt(I, J, base, ats, end, k)
  }

  predicate AgreesAt(I: seq<Instr>, J: seq<Instr>, base: nat, ats: seq<nat>, end: nat, k: nat)
    requires k < |I| <= |J|
  {
    if base + k in ats then Patchable(I[k]) && base + k + 1 <= end && J[k] == Retarget(I[k], end - (base + k + 1)) else J[k] == I[k]
  }

  /** On the way to code `J` from `base` on: what there is agrees with it, and
      `rest` is still to come. */
  ghost predicate Toward(w0: seq<Instr>, J: seq<Instr>, ats: seq<nat>, now: seq<Instr>, rest: seq<Instr>) {
    && |w0| <= |now| && now[..|w0|] == w0 && |now| + |rest| == |w0| + |J|
    && J[|now| - |w0|..] == Inside(rest) && Agrees(now[|w0|..], J, |w0|, ats, |w0| + |J|)
    && (forall x, y | 0 <= x < y < |ats| :: ats[x] < ats[y])
    && (forall x | 0 <= x < |ats| :: |w0| <= ats[x] < |now|)
  }

  lemma TowardStart(w0: seq<Instr>, full: seq<Instr>)
    ensures Toward(w0, Inside(full), [], w0, full)
  {
    hide Inside;
    assert w0[..|w0|] == w0;
  }

  /** More of the code came out. */
  lemma TowardMore(w0: seq<Instr>, J: seq<Instr>, ats: seq<nat>, now: seq<Instr>, p: seq<Instr>, rest: seq<Instr>)
    requires Toward(w0, J, ats, now, p + rest)
    ensures Toward(w0, J, ats, now + Inside(p), rest)
  {
    InsideJoin(p, rest);
    hide Inside;
    var next := now + Inside(p);
    var n := |now| - |w0|;
    assert J[n..][..|p|] == Inside(p) && J[n..][|p|..] == Inside(rest);
    assert J[n + |p|..] == J[n..][|p|..];
    var I, K, b, end := now[|w0|..], next[|w0|..], |w0|, |w0| + |J|;
    forall k: nat | k < |K| ensures AgreesAt(K, J, b, ats, end, k) {
      if k < n { assert AgreesAt(I, J, b, ats, end, k); assert K[k] == I[k]; }
      else { assert K[k] == Inside(p)[k - n] == J[n..][..|p|][k - n]; }
    }
    assert next[..|w0|] == w0;
  }

  /** A jump to the end came out, its offset still to be patched. */
  lemma TowardJump(w0: seq<Instr>, J: seq<Instr>, ats: seq<nat>, now: seq<Instr>, j: Instr, rest: seq<Instr>)
    requires Patchable(j) && Toward(w0, J, ats, now, [Retarget(j, |rest|)] + rest)
    ensures Toward(w0, J, ats + [|now|], now + [j], rest)
  {
    InsideJoin([Retarget(j, |rest|)], rest);
    InsideOne(Retarget(j, |rest|));
    hide Inside;
    var next, n, more := now + [j], |now| - |w0|, ats + [|now|];
    assert J[n..][0] == Retarget(j, |rest|) && J[n..][1..] == Inside(rest);
    assert J[n + 1..] == J[n..][1..];
    var I, K, b, end := now[|w0|..], next[|w0|..], |w0|, |w0| + |J|;
    forall k: nat | k < |K| ensures AgreesAt(K, J, b, more, end, k) {
      if k < n {
        assert AgreesAt(I, J, b, ats, end, k) && K[k] == I[k];
        assert |w0| + k in more <==> |w0| + k in ats;
      } else {
        assert K[k] == j && |w0| + k == |now| && more[|ats|] == |now|;
      }
    }
    assert next[..|w0|] == w0;
  }

  lemma TowardEnd(w0: seq<Instr>, full: seq<Instr>, now: seq<Instr>)
    requires Toward(w0, Inside(full), [], now, [])
    ensures now == w0 + Inside(full)
  {
    hide Inside;
    AllPatched(now[|w0|..], Inside(full), |w0|, |w0| + |full|);
    assert now == now[..|w0|] + now[|w0|..];
  }

  /** Every jump at `ats` is made to go to `end`. */
  method PatchAll(out: BytecodeModule, ats: seq<nat>, end: nat, ghost base: nat, ghost J: seq<Instr>) returns (r: Status)
    requires out.Valid() && base <= |out.instrs| == base + |J| && Agrees(out.instrs[base..], J, base, ats, end)
    requires forall x, y | 0 <= x < y < |ats| :: ats[x] < ats[y]
    requires forall x | 0 <= x < |ats| :: base <= ats[x] < |out.instrs|
    modifies out`code, out`instrs
    ensures out.Valid() && Says(r, None)
    ensures r == Done ==> out.instrs == old(out.instrs)[..base] + J
  {
    ghost var was := out.instrs;
    for x := 0 to |ats|
      invariant out.Valid() && |out.instrs| == |was| && out.instrs[..base] == was[..base]
      invariant Agrees(out.instrs[base..], J, base, ats[x..], end)
    {
      hide BytecodeModule.Valid;
      PatchOne(out.instrs, J, base, ats, x, end);
      hide Agrees;
      :- out.PatchOperand(ats[x], end - (ats[x] + 1));
    }
    assert ats[|ats|..] == [];
    AllPatched(out.instrs[base..], J, base, end);
    r := Done;
  }

  lemma PatchOne(I: seq<Instr>, J: seq<Instr>, base: nat, ats: seq<nat>, x: nat, end: nat)
    requires base <= |I| && x < |ats| && base <= ats[x] < |I| && Agrees(I[base..], J, base, ats[x..], end)
    requires forall x, y | 0 <= x < y < |ats| :: ats[x] < ats[y]
    ensures Patchable(I[ats[x]]) && ats[x] + 1 <= end
    ensures var I1 := I[ats[x] := Retarget(I[ats[x]], end - (ats[x] + 1))];
            I1[..base] == I[..base] && Agrees(I1[base..], J, base, ats[x + 1..], end)
  {
    var at := ats[x];
    assert I[base..][at - base] == I[at];
    assert at == ats[x..][0];
    assert AgreesAt(I[base..], J, base, ats[x..], end, at - base);
    assert ats[x..] == [at] + ats[x + 1..];
    assert at !in ats[x + 1..];
    var I1 := I[at := Retarget(I[at], end - (at + 1))];
    var K, rest := I1[base..], ats[x + 1..];
    forall k: nat | k < |K| ensures AgreesAt(K, J, base, rest, end, k) {
      assert AgreesAt(I[base..], J, base, ats[x..], end, k);
    }
  }

  lemma AllPatched(I: seq<Instr>, J: seq<Instr>, base: nat, end: nat)
    requires |I| == |J| && Agrees(I, J, base, [], end)
    ensures I == J
  {
    forall k: nat | k < |I| ensures I[k] == J[k] { assert AgreesAt(I, J, base, [], end, k); }
  }

  /** Jumps still to be patched, or an operand that does not fit. */
  datatype Positions = Ats(ats: seq<nat>) | Unfit(failure: Failure) {
    predicate IsFailure() { Unfit? }
    function PropagateFailure(): Status requires Unfit? { Failed(failure) }
    function Extract(): seq<nat> requires Ats? { ats }
  }

  class Compiler {
    var scopes: seq<FnScope>

    constructor ()
      ensures scopes == []
    {
      scopes := [];
    }

    /** The innermost scope that has `name`, or -1. */
    method ScopeOf(name: string) returns (found: int)
      ensures -1 <= found < |scopes| && (found >= 0 ==> name in scopes[found].nameToSlot)
      ensures forall k | found < k < |scopes| :: name !in scopes[k].nameToSlot
    {
      found := |scopes| - 1;
      while found >= 0 && name !in scopes[found].nameToSlot
        invariant -1 <= found < |scopes|
        invariant forall k | found < k < |scopes| :: name !in scopes[k].nameToSlot
      {
        found := found - 1;
      }
    }

    /** The slot of `name` in the innermost scope, or -1: captured through
        every scope between that one and the one that binds it. */
    method ResolveLocal(name: string) returns (slot: int)
      modifies this
      ensures match Resolve(name, Spec(old(scopes)))
              case NotLocal => slot == -1 && scopes == old(scopes)
              case Local(s, sc1) => slot == s && Spec(scopes) == sc1 && SameFrames(old(scopes), scopes)
    {
      hide Spec, Resolve;
      var found := ScopeOf(name);
      if found < 0 {
        Unbound(name, scopes);
        return -1;
      }
      ghost var was := scopes;
      var source := scopes[found].nameToSlot[name];
      BoundHere(name, was[..found + 1]);
      for i := found + 1 to |scopes|
        invariant |scopes| == |was| && CapturedUpTo(name, was, scopes, i, source)
      {
        CaptureNext(name, was, scopes, i, source);
        hide CapturedUpTo;
        var s := scopes[i];
        scopes := scopes[i := Capturing(s, name, source)];
        source := s.nextSlot;
      }
      AllCaptured(name, was, scopes, source);
      slot := source;
    }

    /** Appends the one instruction `i`. */
    method Put(op: Op, operand: nat, out: BytecodeModule, ghost i: Instr) returns (r: Placed)
      requires out.Valid() && Means(op, operand, out.consts, out.blocks, i) && !i.MakeFn?
      modifies out`code, out`instrs
      ensures out.Valid()
      ensures r.At? ==> r.pos == |old(out.instrs)|
      ensures r.At? ==> Grown(old(out.instrs), out.instrs, scopes, scopes, Piece([i], Spec(scopes)))
      ensures r.NoRoom? ==> r.failure.TooLarge? && r.failure.operand > MAX_OPERAND
    {
      hide Spec;
      InsideOne(i);
      r := out.Emit(op, operand, i);
    }

    method CompileLiteral(c: Const, out: BytecodeModule) returns (r: Status)
      requires out.Valid()
      modifies out
      ensures out.Valid() && Says(r, None)
      ensures r == Done ==> Grown(old(out.instrs), out.instrs, scopes, scopes, Piece([PushLiteral(c)], Spec(scopes)))
    {
      hide Grown, Spec;
      if c.CNil? { var _ :- Put(PUSH_NIL, 0, out, PushNil); }
      else if c.CTrue? { var _ :- Put(PUSH_TRUE, 0, out, PushTrue); }
      else if c.CFalse? { var _ :- Put(PUSH_FALSE, 0, out, PushFalse); }
      else {
        var k := out.AddAtom(c.atom);
        var _ :- Put(PUSH_CONST, k, out, PushConst(c));
      }
      return Done;
    }

    method CompileGlobal(x: string, out: BytecodeModule) returns (r: Status)
      requires out.Valid()
      modifies out
      ensures out.Valid() && Says(r, None)
      ensures r == Done ==> Grown(old(out.instrs), out.instrs, scopes, scopes, Piece([PushVar(x)], Spec(scopes)))
    {
      hide Grown, Spec;
      var k := out.AddSymbol(x);
      var _ :- Put(PUSH_VAR, k, out, PushVar(x));
      return Done;
    }

    method CompileSym(x: string, out: BytecodeModule) returns (r: Status)
      requires out.Valid()
      modifies this, out
      ensures out.Valid() && Says(r, None)
      ensures r == Done ==>
                Grown(old(out.instrs), out.instrs, old(scopes), scopes,
                      Compile(Sym(x), Spec(old(scopes)), Recurs(old(scopes)), |old(out.instrs)|))
    {
      hide Spec, Resolve, Inside;
      var slot := ResolveLocal(x);
      if slot >= 0 {
        var _ :- Put(PUSH_LOCAL, slot, out, PushLocal(slot));
      } else {
        :- CompileGlobal(x, out);
      }
      return Done;
    }

    /** One form, appended to `out`. */
    method CompileForm(e: Form, out: BytecodeModule) returns (r: Status)
      requires out.Valid() && Nested(scopes)
      modifies this, out
      ensures out.Valid() && Says(r, Check(e, Ctx(old(scopes)), |old(scopes)| == 0))
      ensures r == Done ==>
                Grown(old(out.instrs), out.instrs, old(scopes), scopes,
                      Compile(e, Spec(old(scopes)), Recurs(old(scopes)), |old(out.instrs)|))
      decreases e, if |scopes| == 0 then 6 else 3
    {
      hide Grown, Compile, Check, Spec, Ctx, Recurs;
      LeafSpec(e, scopes, |out.instrs|);
      match e
      case Lit(c) => r := CompileLiteral(c, out);
      case Quote(c) => r := CompileLiteral(c, out);
      case Sym(x) => r := CompileSym(x, out);
      case Global(x) => r := CompileGlobal(x, out);
      case Def(_, _) => r := CompileDef(e, out);
      case Throw(_) => r := CompileThrow(e, out);
      case If(_, _, _) => r := CompileIf(e, out);
      case Do(es) => r := CompileDo(e, out);
      case And(_) => r := CompileAndOr(e, out);
      case Or(_) => r := CompileAndOr(e, out);
      case Let(_, _) => if |scopes| == 0 { r := CompileAsThunk(e, out); } else { r := CompileLetForm(e, out); }
      case Loop(_, _) => if |scopes| == 0 { r := CompileAsThunk(e, out); } else { r := CompileLoopForm(e, out); }
      case Try(_, _, _) => if |scopes| == 0 { r := CompileAsThunk(e, out); } else { r := CompileTryForm(e, out); }
      case Recur(_) => r := CompileRecur(e, out);
      case Fn(_, _) => r := CompileFnForm(e, out);
      case Call(_, _) => r := CompileCall(e, out);
    }

    method CompileDef(e: Form, out: BytecodeModule) returns (r: Status)
      requires e.Def? && out.Valid() && Nested(scopes)
      modifies this, out
      ensures out.Valid() && Says(r, Check(e, Ctx(old(scopes)), |old(scopes)| == 0))
      ensures r == Done ==>
                Grown(old(out.instrs), out.instrs, old(scopes), scopes,
                      Compile(e, Spec(old(scopes)), Recurs(old(scopes)), |old(out.instrs)|))
      decreases e, 1
    {
      hide Grown, Compile, Check, Spec, Ctx, Recurs;
      ghost var w0, s0 := out.instrs, scopes;
      DefSpec(e, s0, |w0|);
      :- CompileForm(e.init, out);
      ghost var w1, p := out.instrs, Compile(e.init, Spec(s0), Recurs(s0), |w0|);
      var k := out.AddSymbol(e.name);
      var _ :- Put(STORE_GLOBAL, k, out, StoreGlobal(e.name));
      GrownThen(w0, w1, out.instrs, s0, scopes, scopes, p, Piece([StoreGlobal(e.name)], Spec(scopes)));
      GrownScopes(w0, w1, s0, scopes, p);
      return Done;
    }

    method CompileThrow(e: Form, out: BytecodeModule) returns (r: Status)
      requires e.Throw? && out.Valid() && Nested(scopes)
      modifies this, out
      ensures out.Valid() && Says(r, Check(e, Ctx(old(scopes)), |old(scopes)| == 0))
      ensures r == Done ==>
                Grown(old(out.instrs), out.instrs, old(scopes), scopes,
                      Compile(e, Spec(old(scopes)), Recurs(old(scopes)), |old(out.instrs)|))
      decreases e, 1
    {
      hide Grown, Compile, Check, Spec, Ctx, Recurs;
      ghost var w0, s0 := out.instrs, scopes;
      ThrowSpec(e, s0, |w0|);
      :- CompileForm(e.e, out);
      ghost var w1, p := out.instrs, Compile(e.e, Spec(s0), Recurs(s0), |w0|);
      var _ :- Put(THROW, 0, out, Raise);
      GrownThen(w0, w1, out.instrs, s0, scopes, scopes, p, Piece([Raise], Spec(scopes)));
      GrownScopes(w0, w1, s0, scopes, p);
      return Done;
    }

    /** `if`: the test's jump and the one over the else branch are patched once
        the branches are there. */
    method CompileIf(e: Form, out: BytecodeModule) returns (r: Status)
      requires e.If? && out.Valid() && Nested(scopes)
      modifies this, out
      ensures out.Valid() && Says(r, Check(e, Ctx(old(scopes)), |old(scopes)| == 0))
      ensures r == Done ==>
                Grown(old(out.instrs), out.instrs, old(scopes), scopes,
                      Compile(e, Spec(old(scopes)), Recurs(old(scopes)), |old(out.instrs)|))
      decreases e, 1
    {
      hide Grown, Compile, CompileElse, Check, Spec, Ctx, Recurs, Inside;
      IfSpec(e, scopes, |out.instrs|);
      if LiteralTest(e.test) == Some(true) { r := CompileForm(e.thn, out); return; }
      if LiteralTest(e.test) == Some(false) { r := CompileElseForm(e.els, out); return; }
      r := CompileBranches(e, out);
    }

    /** A test, its jump, the then branch and the jump that ends it, at `jmp`. */
    method CompileTested(e: Form, test: Form, thn: Form, out: BytecodeModule) returns (r: Status, jmp: nat)
      requires e.If? && test == e.test && thn == e.thn && out.Valid() && Nested(scopes)
      modifies this, out
      ensures out.Valid()
      ensures Says(r, FirstError(Check(test, Ctx(old(scopes)), |old(scopes)| == 0), Check(thn, Ctx(old(scopes)), |old(scopes)| == 0)))
      ensures r == Done ==>
                var c := Compile(test, Spec(old(scopes)), Recurs(old(scopes)), |old(out.instrs)|);
                var t := Compile(thn, c.sc, Recurs(old(scopes)), |old(out.instrs)| + |c.code| + 1);
                && jmp == |old(out.instrs)| + |c.code| + 1 + |t.code|
                && out.instrs == old(out.instrs) + Inside(c.code) + [JumpIfFalse(|t.code| + 1)] + Inside(t.code) + [Jump(0)]
                && SameFrames(old(scopes), scopes) && Spec(scopes) == t.sc
      decreases e, 0, 0
    {
      hide Grown, Compile, Check, Spec, Ctx, Recurs, Inside, SameFrames, BytecodeModule.Valid;
      jmp := 0;
      ghost var w0, s0 := out.instrs, scopes;
      :- CompileForm(test, out);
      ghost var w1, c := out.instrs, Compile(test, Spec(s0), Recurs(s0), |w0|);
      GrownContext(w0, w1, s0, scopes, c);
      var jif :- Put(JUMP_IF_FALSE, 0, out, JumpIfFalse(0));
      PutIs(w1, out.instrs, scopes, JumpIfFalse(0));
      ghost var w2, s1 := out.instrs, scopes;
      :- CompileForm(thn, out);
      ghost var t := Compile(thn, Spec(s1), Recurs(s1), |w2|);
      GrownContext(w2, out.instrs, s1, scopes, t);
      ghost var w3 := out.instrs;
      jmp :- Put(JUMP, 0, out, Jump(0));
      PutIs(w3, out.instrs, scopes, Jump(0));
      PatchTest(w1, Inside(t.code), |t.code|);
      :- out.PatchOperand(jif, out.Pos() - (jif + 1));
      FramesTrans(s0, s1, scopes);
      r := Done;
    }

    method CompileBranches(e: Form, out: BytecodeModule) returns (r: Status)
      requires e.If? && LiteralTest(e.test) == None && out.Valid() && Nested(scopes)
      modifies this, out
      ensures out.Valid() && Says(r, Check(e, Ctx(old(scopes)), |old(scopes)| == 0))
      ensures r == Done ==>
                Grown(old(out.instrs), out.instrs, old(scopes), scopes,
                      Compile(e, Spec(old(scopes)), Recurs(old(scopes)), |old(out.instrs)|))
      decreases e, 0
    {
      hide Grown, Compile, CompileElse, Check, Spec, Ctx, Recurs, Inside, SameFrames, BytecodeModule.Valid;
      ghost var w0, s0 := out.instrs, scopes;
      IfSpec(e, s0, |w0|);
      ghost var c := Compile(e.test, Spec(s0), Recurs(s0), |w0|);
      ghost var t := Compile(e.thn, c.sc, Recurs(s0), |w0| + |c.code| + 1);
      var status, jmp := CompileTested(e, e.test, e.thn, out);
      :- status;
      ghost var w4, s2 := out.instrs, scopes;
      SameContext(s0, s2);
      :- CompileElseForm(e.els, out);
      ghost var f := CompileElse(e.els, Spec(s2), Recurs(s2), |w4|);
      GrownContext(w4, out.instrs, s2, scopes, f);
      PatchOver(w0 + Inside(c.code) + [JumpIfFalse(|t.code| + 1)] + Inside(t.code), Inside(f.code), |f.code|);
      :- out.PatchOperand(jmp, out.Pos() - (jmp + 1));
      IfMade(w0, c.code, t.code, f.code, out.instrs);
      FramesTrans(s0, s2, scopes);
      GrownFrom(w0, out.instrs, s0, scopes, Compile(e, Spec(s0), Recurs(s0), |w0|));
      return Done;
    }

    method CompileDo(e: Form, out: BytecodeModule) returns (r: Status)
      requires e.Do? && out.Valid() && Nested(scopes)
      modifies this, out
      ensures out.Valid() && Says(r, Check(e, Ctx(old(scopes)), |old(scopes)| == 0))
      ensures r == Done ==>
                Grown(old(out.instrs), out.instrs, old(scopes), scopes,
                      Compile(e, Spec(old(scopes)), Recurs(old(scopes)), |old(out.instrs)|))
      decreases e, 1
    {
      hide Grown, Spec, Ctx, Recurs, CompileBody, CheckAll;
      r := CompileForms(e.es, out);
    }

    /** A body: the forms in order, all but the last popped. */
    method CompileForms(es: seq<Form>, out: BytecodeModule) returns (r: Status)
      requires out.Valid() && Nested(scopes)
      modifies this, out
      ensures out.Valid() && Says(r, CheckAll(es, 0, Ctx(old(scopes)), |old(scopes)| == 0))
      ensures r == Done ==>
                Grown(old(out.instrs), out.instrs, old(scopes), scopes,
                      CompileBody(es, 0, Spec(old(scopes)), Recurs(old(scopes)), |old(out.instrs)|))
      decreases es, 0
    {
      hide Grown, Compile, Check, CheckAll, Spec, Ctx, Recurs, Inside, SameFrames, Toward, BytecodeModule.Valid, CompileBody, CompileArgs, CompileEffects, CompileChain;
      NoForms(Ctx(scopes), |scopes| == 0, Spec(scopes), Recurs(scopes), |out.instrs|);
      if |es| == 0 {
        var _ :- Put(PUSH_NIL, 0, out, PushNil);
        return Done;
      }
      ghost var w0, s0 := out.instrs, scopes;
      ghost var full := CompileBody(es, 0, Spec(s0), Recurs(s0), |w0|);
      TowardStart(w0, full.code);
      FramesSelf(s0);
      for i := 0 to |es|
        invariant out.Valid() && SameFrames(s0, scopes)
        invariant CheckAll(es, i, Ctx(s0), |s0| == 0) == CheckAll(es, 0, Ctx(s0), |s0| == 0)
        invariant var rest := BodyRest(es, i, Spec(scopes), Recurs(s0), |out.instrs|);
                  Toward(w0, Inside(full.code), [], out.instrs, rest.code) && rest.sc == full.sc
      {
        SameContext(s0, scopes);
        ghost var w1, s1 := out.instrs, scopes;
        BodyNext(es, i, Ctx(s0), |s0| == 0, Spec(s1), Recurs(s0), |w1|);
        ghost var c := Compile(es[i], Spec(s1), Recurs(s1), |w1|);
        :- CompileForm(es[i], out);
        GrownContext(w1, out.instrs, s1, scopes, c);
        FramesTrans(s0, s1, scopes);
        ghost var rest := BodyRest(es, i + 1, c.sc, Recurs(s0), |w1| + |c.code| + 1);
        if i + 1 < |es| {
          TowardMore(w0, Inside(full.code), [], w1, c.code, [Pop] + rest.code);
          ghost var w2 := out.instrs;
          var _ :- Put(POP, 0, out, Pop);
          TowardPut(w0, Inside(full.code), [], w2, out.instrs, scopes, Pop, rest.code);
        } else {
          assert c.code + [] == c.code;
          TowardMore(w0, Inside(full.code), [], w1, c.code, []);
        }
      }
      NoneLeft(es, Ctx(s0), |s0| == 0);
      TowardEnd(w0, full.code, out.instrs);
      GrownFrom(w0, out.instrs, s0, scopes, full);
      return Done;
    }

    /** Forms evaluated for effect, each popped. */
    method CompileFinally(es: seq<Form>, out: BytecodeModule) returns (r: Status)
      requires out.Valid() && Nested(scopes) && Recurs(scopes).NoTarget?
      modifies this, out
      ensures out.Valid() && Says(r, CheckAll(es, 0, Ctx(old(scopes)), |old(scopes)| == 0))
      ensures r == Done ==>
                Grown(old(out.instrs), out.instrs, old(scopes), scopes, CompileEffects(es, 0, Spec(old(scopes)), |old(out.instrs)|))
      decreases es, 0
    {
      hide Grown, Compile, Check, CheckAll, Spec, Ctx, Recurs, Inside, SameFrames, Toward, BytecodeModule.Valid, CompileBody, CompileArgs, CompileEffects, CompileChain;
      ghost var w0, s0 := out.instrs, scopes;
      ghost var full := CompileEffects(es, 0, Spec(s0), |w0|);
      TowardStart(w0, full.code);
      FramesSelf(s0);
      for i := 0 to |es|
        invariant out.Valid() && SameFrames(s0, scopes)
        invariant CheckAll(es, i, Ctx(s0), |s0| == 0) == CheckAll(es, 0, Ctx(s0), |s0| == 0)
        invariant var rest := CompileEffects(es, i, Spec(scopes), |out.instrs|);
                  Toward(w0, Inside(full.code), [], out.instrs, rest.code) && rest.sc == full.sc
      {
        SameContext(s0, scopes);
        ghost var w1, s1 := out.instrs, scopes;
        EffectNext(es, i, Ctx(s0), |s0| == 0, Spec(s1), |w1|);
        ghost var c := Compile(es[i], Spec(s1), Recurs(s1), |w1|);
        :- CompileForm(es[i], out);
        GrownContext(w1, out.instrs, s1, scopes, c);
        FramesTrans(s0, s1, scopes);
        ghost var rest := CompileEffects(es, i + 1, c.sc, |w1| + |c.code| + 1);
        TowardMore(w0, Inside(full.code), [], w1, c.code, [Pop] + rest.code);
        ghost var w2 := out.instrs;
        var _ :- Put(POP, 0, out, Pop);
        TowardPut(w0, Inside(full.code), [], w2, out.instrs, scopes, Pop, rest.code);
      }
      NoneLeft(es, Ctx(s0), |s0| == 0);
      NoEffects(es, Spec(scopes), |out.instrs|);
      TowardEnd(w0, full.code, out.instrs);
      GrownFrom(w0, out.instrs, s0, scopes, full);
      return Done;
    }

    /** Arguments, left to right. */
    method CompileAll(es: seq<Form>, out: BytecodeModule) returns (r: Status)
      requires out.Valid() && Nested(scopes)
      modifies this, out
      ensures out.Valid() && Says(r, CheckAll(es, 0, Ctx(old(scopes)), |old(scopes)| == 0))
      ensures r == Done ==>
                Grown(old(out.instrs), out.instrs, old(scopes), scopes,
                      CompileArgs(es, 0, Spec(old(scopes)), Recurs(old(scopes)), |old(out.instrs)|))
      decreases es
    {
      hide Grown, Compile, Check, CheckAll, Spec, Ctx, Recurs, Inside, SameFrames, Toward, BytecodeModule.Valid, CompileBody, CompileArgs, CompileEffects, CompileChain;
      ghost var w0, s0 := out.instrs, scopes;
      ghost var full := CompileArgs(es, 0, Spec(s0), Recurs(s0), |w0|);
      TowardStart(w0, full.code);
      FramesSelf(s0);
      for i := 0 to |es|
        invariant out.Valid() && SameFrames(s0, scopes)
        invariant CheckAll(es, i, Ctx(s0), |s0| == 0) == CheckAll(es, 0, Ctx(s0), |s0| == 0)
        invariant var rest := CompileArgs(es, i, Spec(scopes), Recurs(s0), |out.instrs|);
                  Toward(w0, Inside(full.code), [], out.instrs, rest.code) && rest.sc == full.sc
      {
        SameContext(s0, scopes);
        ghost var w1, s1 := out.instrs, scopes;
        ArgNext(es, i, Ctx(s0), |s0| == 0, Spec(s1), Recurs(s0), |w1|);
        ghost var c := Compile(es[i], Spec(s1), Recurs(s1), |w1|);
        :- CompileForm(es[i], out);
        GrownContext(w1, out.instrs, s1, scopes, c);
        FramesTrans(s0, s1, scopes);
        TowardMore(w0, Inside(full.code), [], w1, c.code, CompileArgs(es, i + 1, c.sc, Recurs(s0), |w1| + |c.code|).code);
      }
      NoneLeft(es, Ctx(s0), |s0| == 0);
      NoArgs(es, Spec(scopes), Recurs(s0), |out.instrs|);
      TowardEnd(w0, full.code, out.instrs);
      GrownFrom(w0, out.instrs, s0, scopes, full);
      return Done;
    }

    method CompileCall(e: Form, out: BytecodeModule) returns (r: Status)
      requires e.Call? && out.Valid() && Nested(scopes)
      modifies this, out
      ensures out.Valid() && Says(r, Check(e, Ctx(old(scopes)), |old(scopes)| == 0))
      ensures r == Done ==>
                Grown(old(out.instrs), out.instrs, old(scopes), scopes,
                      Compile(e, Spec(old(scopes)), Recurs(old(scopes)), |old(out.instrs)|))
      decreases e, 1
    {
      hide Grown, Compile, Check, CheckAll, Spec, Ctx, Recurs, Inside, SameFrames, Toward, BytecodeModule.Valid, CompileBody, CompileArgs, CompileEffects, CompileChain;
      ghost var w0, s0 := out.instrs, scopes;
      CallSpec(e, s0, |w0|);
      :- CompileForm(e.head, out);
      ghost var w1, s1, h := out.instrs, scopes, Compile(e.head, Spec(s0), Recurs(s0), |w0|);
      GrownContext(w0, w1, s0, s1, h);
      :- CompileAll(e.args, out);
      ghost var w2, s2, a := out.instrs, scopes, CompileArgs(e.args, 0, Spec(s1), Recurs(s1), |w1|);
      GrownThen(w0, w1, w2, s0, s1, s2, h, a);
      GrownScopes(w1, w2, s1, s2, a);
      var _ :- Put(CALL, |e.args|, out, Invoke(|e.args|));
      GrownThen(w0, w2, out.instrs, s0, s2, s2, Piece(h.code + a.code, a.sc), Piece([Invoke(|e.args|)], Spec(s2)));
      return Done;
    }

    /** `and` / `or`: each test jumps to the end, known only once it is there. */
    method CompileAndOr(e: Form, out: BytecodeModule) returns (r: Status)
      requires (e.And? || e.Or?) && out.Valid() && Nested(scopes)
      modifies this, out
      ensures out.Valid() && Says(r, Check(e, Ctx(old(scopes)), |old(scopes)| == 0))
      ensures r == Done ==>
                Grown(old(out.instrs), out.instrs, old(scopes), scopes,
                      Compile(e, Spec(old(scopes)), Recurs(old(scopes)), |old(out.instrs)|))
      decreases e, 1
    {
      hide Grown, Compile, Check, CheckAll, Spec, Ctx, Recurs, Inside, SameFrames, Toward, BytecodeModule.Valid, CompileBody, CompileArgs, CompileEffects, CompileChain;
      var conj := e.And?;
      ghost var w0, s0 := out.instrs, scopes;
      AndOrSpec(e, s0, |w0|);
      if |e.es| == 0 {
        if conj { var _ :- Put(PUSH_TRUE, 0, out, PushTrue); } else { var _ :- Put(PUSH_NIL, 0, out, PushNil); }
        return Done;
      }
      var es, shortAts := e.es, [];
      ghost var full := CompileChain(es, 0, conj, Spec(s0), Recurs(s0), |w0|);
      TowardStart(w0, full.code);
      FramesSelf(s0);
      for i := 0 to |es|
        invariant out.Valid() && SameFrames(s0, scopes)
        invariant CheckAll(es, i, Ctx(s0), |s0| == 0) == CheckAll(es, 0, Ctx(s0), |s0| == 0)
        invariant var rest := ChainRest(es, i, conj, Spec(scopes), Recurs(s0), |out.instrs|);
                  Toward(w0, Inside(full.code), shortAts, out.instrs, rest.code) && rest.sc == full.sc
      {
        SameContext(s0, scopes);
        ghost var w1, s1 := out.instrs, scopes;
        ChainNext(es, i, conj, Ctx(s0), |s0| == 0, Spec(s1), Recurs(s0), |w1|);
        ghost var c := Compile(es[i], Spec(s1), Recurs(s1), |w1|);
        :- CompileForm(es[i], out);
        GrownContext(w1, out.instrs, s1, scopes, c);
        FramesTrans(s0, s1, scopes);
        ghost var rest := ChainRest(es, i + 1, conj, c.sc, Recurs(s0), |w1| + |c.code| + 3);
        if i + 1 < |es| {
          ghost var test := if conj then JumpIfFalse(|rest.code| + 1) else JumpIfTrue(|rest.code| + 1);
          TowardMore(w0, Inside(full.code), shortAts, w1, c.code, [Dup] + ([test] + ([Pop] + rest.code)));
          shortAts :- CompileLink(conj, shortAts, out, w0, Inside(full.code), rest.code);
        } else {
          assert c.code + [] == c.code;
          TowardMore(w0, Inside(full.code), shortAts, w1, c.code, []);
        }
      }
      NoneLeft(es, Ctx(s0), |s0| == 0);
      TowardPatch(w0, Inside(full.code), shortAts, out.instrs);
      :- PatchAll(out, shortAts, out.Pos(), |w0|, Inside(full.code));
      GrownFrom(w0, out.instrs, s0, scopes, full);
      return Done;
    }

    /** DUP, the test's jump, POP. */
    method CompileLink(conj: bool, ats: seq<nat>, out: BytecodeModule, ghost w0: seq<Instr>, ghost J: seq<Instr>, ghost rest: seq<Instr>)
      returns (r: Positions)
      requires out.Valid()
      requires var test := if conj then JumpIfFalse(|rest| + 1) else JumpIfTrue(|rest| + 1);
               Toward(w0, J, ats, out.instrs, [Dup] + ([test] + ([Pop] + rest)))
      modifies out`code, out`instrs
      ensures out.Valid()
      ensures r.Ats? ==> Toward(w0, J, r.ats, out.instrs, rest) && |out.instrs| == |old(out.instrs)| + 3
      ensures r.Unfit? ==> r.failure.TooLarge? && r.failure.operand > MAX_OPERAND
    {
      hide Grown, Spec, Inside, Toward, BytecodeModule.Valid;
      ghost var test := if conj then JumpIfFalse(|rest| + 1) else JumpIfTrue(|rest| + 1);
      ghost var w1 := out.instrs;
      var dup := Put(DUP, 0, out, Dup);
      if dup.NoRoom? { return Unfit(dup.failure); }
      TowardPut(w0, J, ats, w1, out.instrs, scopes, Dup, [test] + ([Pop] + rest));
      ghost var w2, j := out.instrs, if conj then JumpIfFalse(0) else JumpIfTrue(0);
      var test1 := Put(if conj then JUMP_IF_FALSE else JUMP_IF_TRUE, 0, out, j);
      if test1.NoRoom? { return Unfit(test1.failure); }
      var at := test1.pos;
      PutIs(w2, out.instrs, scopes, j);
      TowardJump(w0, J, ats, w2, j, [Pop] + rest);
      ghost var w3 := out.instrs;
      var pop := Put(POP, 0, out, Pop);
      if pop.NoRoom? { return Unfit(pop.failure); }
      TowardPut(w0, J, ats + [at], w3, out.instrs, scopes, Pop, rest);
      return Ats(ats + [at]);
    }

    /** STORE_LOCAL of the recur slots, the last first. */
    method StoreSlots(slots: seq<nat>, out: BytecodeModule) returns (r: Status)
      requires out.Valid()
      modifies out`code, out`instrs
      ensures out.Valid() && Says(r, None)
      ensures r == Done ==> out.instrs == old(out.instrs) + StoresDown(slots, |slots|)
    {
      hide Grown, Spec, Inside, BytecodeModule.Valid;
      ghost var w := out.instrs;
      for i := |slots| downto 0
        invariant out.Valid() && out.instrs + StoresDown(slots, i) == w + StoresDown(slots, |slots|)
      {
        ghost var w1 := out.instrs;
        var _ :- Put(STORE_LOCAL, slots[i], out, StoreLocal(slots[i]));
        PutIs(w1, out.instrs, scopes, StoreLocal(slots[i]));
        assert w1 + StoresDown(slots, i + 1) == w1 + [StoreLocal(slots[i])] + StoresDown(slots, i);
      }
      return Done;
    }

    /** `recur`: its arguments, the stores from the last slot to the first, and
        the jump back, whose offset is patched in. */
    method CompileRecur(e: Form, out: BytecodeModule) returns (r: Status)
      requires e.Recur? && out.Valid() && Nested(scopes)
      modifies this, out
      ensures out.Valid() && Says(r, Check(e, Ctx(old(scopes)), |old(scopes)| == 0))
      ensures r == Done ==>
                Grown(old(out.instrs), out.instrs, old(scopes), scopes,
                      Compile(e, Spec(old(scopes)), Recurs(old(scopes)), |old(out.instrs)|))
      decreases e, 1
    {
      hide Grown, Compile, Check, CheckAll, Spec, Ctx, Recurs, Inside, SameFrames, Toward, BytecodeModule.Valid, CompileBody, CompileArgs, CompileEffects, CompileChain;
      ghost var w0, s0 := out.instrs, scopes;
      RecurSpec(e, s0, |w0|);
      if |scopes| == 0 || |scopes[|scopes| - 1].recurStack| == 0 { return Failed(Refused(RecurOutsideLoop)); }
      var scope := scopes[|scopes| - 1];
      var tgt := scope.recurStack[|scope.recurStack| - 1];
      if tgt.tryDepth != scope.tryDepth { return Failed(Refused(RecurAcrossTry)); }
      if |e.args| != |tgt.slots| { return Failed(Refused(RecurArity)); }
      :- CompileAll(e.args, out);
      ghost var w1, a := out.instrs, CompileArgs(e.args, 0, Spec(s0), Recurs(s0), |w0|);
      GrownContext(w0, w1, s0, scopes, a);
      :- StoreSlots(tgt.slots, out);
      ghost var w2 := out.instrs;
      StoresSize(tgt.slots, |tgt.slots|);
      var jb :- Put(JUMP_BACK, 0, out, JumpBack(0));
      PutIs(w2, out.instrs, scopes, JumpBack(0));
      assert out.instrs[jb] == JumpBack(0);
      :- out.PatchOperand(jb, if tgt.bodyStart <= jb then jb + 1 - tgt.bodyStart else 0);
      ghost var j := JumpBack(if tgt.bodyStart <= jb then jb + 1 - tgt.bodyStart else 0);
      assert out.instrs == w0 + Inside(a.code) + StoresDown(tgt.slots, |tgt.slots|) + [j];
      RecurMade(w0, a.code, tgt.slots, j, out.instrs);
      GrownFrom(w0, out.instrs, s0, scopes, Compile(e, Spec(s0), Recurs(s0), |w0|));
      return Done;
    }

    /** Names given a slot by `bind`, and the slots they shadowed. */
    method Bind(name: string) returns (slot: nat, shadowed: int)
      requires |scopes| > 0
      modifies this
      ensures Spec(scopes) == Codegen.Bind(Spec(old(scopes)), name) && SameFrames(old(scopes), scopes)
      ensures slot == Spec(old(scopes)).top.nextSlot
      ensures Shadowed((name, shadowed), name, Spec(old(scopes)))
    {
      var idx := |scopes| - 1;
      var s := scopes[idx];
      shadowed := if name in s.nameToSlot then s.nameToSlot[name] else -1;
      slot := s.nextSlot;
      ghost var was := scopes;
      scopes := scopes[idx := s.(nextSlot := slot + 1, nameToSlot := s.nameToSlot[name := slot])];
      assert scopes[..idx] == was[..idx];
    }

    /** `name` means again what it did before a binding. */
    method Unbind(name: string, shadowed: int, ghost before: Scopes)
      requires |scopes| > 0 && before.Inner? && shadowed == (if name in before.top.names then before.top.names[name] else -1)
      modifies this
      ensures Spec(scopes) == Restore(Spec(old(scopes)), name, before) && SameFrames(old(scopes), scopes)
    {
      var idx := |scopes| - 1;
      var names := scopes[idx].nameToSlot;
      ghost var was := scopes;
      scopes := scopes[idx := scopes[idx].(nameToSlot := if shadowed >= 0 then names[name := shadowed] else names - {name})];
      assert scopes[..idx] == was[..idx];
    }

    /** Bindings undone, the last first. */
    method UnbindAll(saved: seq<(string, int)>, ghost bs: seq<Binding>, ghost befores: seq<Scopes>)
      requires |scopes| > 0 && AllShadowed(saved, bs, befores)
      modifies this
      ensures SameFrames(old(scopes), scopes) && Spec(scopes) == Undo(bs, befores, |befores|, Spec(old(scopes)))
    {
      hide Spec, Restore;
      ghost var s0 := scopes;
      FramesSelf(s0);
      SpecInner(s0);
      for k := |saved| downto 0
        invariant |scopes| > 0 && SameFrames(s0, scopes)
        invariant Spec(scopes).Inner? && Undo(bs, befores, k, Spec(scopes)) == Undo(bs, befores, |befores|, Spec(s0))
      {
        ghost var s1 := scopes;
        assert Shadowed(saved[k], bs[k].name, befores[k]);
        Unbind(saved[k].0, saved[k].1, befores[k]);
        FramesTrans(s0, s1, scopes);
        SpecInner(scopes);
      }
    }

    /** The code of a binding's value and its store in a slot of its own. */
    method CompileBinding(b: Binding, out: BytecodeModule) returns (r: Status, slot: nat, shadowed: int)
      requires |scopes| > 0 && out.Valid() && Nested(scopes)
      modifies this, out
      ensures out.Valid() && Says(r, Check(b.init, Ctx(old(scopes)), false))
      ensures r == Done ==>
                var c := Compile(b.init, Spec(old(scopes)), Recurs(old(scopes)), |old(out.instrs)|);
                && c.sc.Inner? && slot == c.sc.top.nextSlot && Shadowed((b.name, shadowed), b.name, c.sc)
                && Grown(old(out.instrs), out.instrs, old(scopes), scopes, Piece(c.code + [StoreLocal(slot)], Codegen.Bind(c.sc, b.name)))
      decreases b.init, 9
    {
      hide Grown, Compile, Check, Spec, Ctx, Recurs, Inside, SameFrames, BytecodeModule.Valid, Codegen.Bind, Shadowed, Nested;
      slot, shadowed := 0, 0;
      ghost var w1, s1 := out.instrs, scopes;
      ghost var c := Compile(b.init, Spec(s1), Recurs(s1), |w1|);
      :- CompileForm(b.init, out);
      GrownContext(w1, out.instrs, s1, scopes, c);
      ghost var w2, s2 := out.instrs, scopes;
      SpecInner(s2);
      slot, shadowed := Bind(b.name);
      FramesTrans(s1, s2, scopes);
      var _ :- Put(STORE_LOCAL, slot, out, StoreLocal(slot));
      GrownContext(w2, out.instrs, scopes, scopes, Piece([StoreLocal(slot)], Spec(scopes)));
      InsideJoin(c.code, [StoreLocal(slot)]);
      GrownFrom(w1, out.instrs, s1, scopes, Piece(c.code + [StoreLocal(slot)], Codegen.Bind(c.sc, b.name)));
      return Done, slot, shadowed;
    }

    /** The bindings of a `let`, each value stored in a slot of its own. */
    method CompileLetForm(e: Form, out: BytecodeModule) returns (r: Status)
      requires e.Let? && |scopes| > 0 && out.Valid() && Nested(scopes)
      modifies this, out
      ensures out.Valid() && Says(r, Check(e, Ctx(old(scopes)), |old(scopes)| == 0))
      ensures r == Done ==>
                Grown(old(out.instrs), out.instrs, old(scopes), scopes,
                      Compile(e, Spec(old(scopes)), Recurs(old(scopes)), |old(out.instrs)|))
      decreases e, 1
    {
      hide Grown, Compile, Check, CheckAll, CheckInits, Spec, Ctx, Recurs, Inside, SameFrames, Toward, BytecodeModule.Valid, CompileBody, CompileLet, Undo, Codegen.Bind, Nested, Shadowed, AllShadowed;
      ghost var w0, s0 := out.instrs, scopes;
      LetSpec(e, s0, |w0|);
      ghost var full := CompileLet(e, 0, Spec(s0), Recurs(s0), |w0|);
      TowardStart(w0, full.code);
      FramesSelf(s0);
      UndoNone(e.bs, full.sc);
      var saved := [];
      ghost var befores: seq<Scopes> := [];
      for i := 0 to |e.bs|
        invariant out.Valid() && SameFrames(s0, scopes) && |scopes| > 0 && Spec(scopes).Inner? && |saved| == |befores| == i
        invariant AllShadowed(saved, e.bs, befores)
        invariant CheckInits(e.bs, i, Ctx(s0)) == CheckInits(e.bs, 0, Ctx(s0))
        invariant var rest := CompileLet(e, i, Spec(scopes), Recurs(s0), |out.instrs|);
                  Toward(w0, Inside(full.code), [], out.instrs, rest.code) && full.sc == Undo(e.bs, befores, i, rest.sc)
      {
        SameContext(s0, scopes);
        ghost var w1, s1 := out.instrs, scopes;
        LetNext(e, i, Ctx(s0), Spec(s1), Recurs(s0), |w1|);
        ghost var c := Compile(e.bs[i].init, Spec(s1), Recurs(s1), |w1|);
        var slot, shadowed :- CompileBinding(e.bs[i], out);
        ghost var rest := CompileLet(e, i + 1, Codegen.Bind(c.sc, e.bs[i].name), Recurs(s0), |w1| + |c.code| + 1);
        GrownContext(w1, out.instrs, s1, scopes, Piece(c.code + [StoreLocal(slot)], Codegen.Bind(c.sc, e.bs[i].name)));
        SpecInner(scopes);
        FramesTrans(s0, s1, scopes);
        TowardStore(w0, Inside(full.code), w1, c.code, slot, rest.code);
        UndoOne(e.bs, befores, i, rest.sc, c.sc);
        ShadowedMore(saved, e.bs, befores, (e.bs[i].name, shadowed), c.sc);
        saved, befores := saved + [(e.bs[i].name, shadowed)], befores + [c.sc];
      }
      SameContext(s0, scopes);
      ghost var w3, s3 := out.instrs, scopes;
      LetBody(e, Ctx(s0), Spec(s3), Recurs(s0), |w3|);
      ghost var b := CompileBody(e.body, 0, Spec(s3), Recurs(s3), |w3|);
      :- CompileForms(e.body, out);
      GrownContext(w3, out.instrs, s3, scopes, b);
      TowardLast(w0, full.code, w3, out.instrs, b.code);
      ghost var s4 := scopes;
      UnbindAll(saved, e.bs, befores);
      FramesTrans(s0, s3, s4);
      FramesTrans(s0, s4, scopes);
      GrownFrom(w0, out.instrs, s0, scopes, full);
      return Done;
    }

    /** The body of a `loop`, a recur target while it is compiled. */
    method CompileTarget(e: Form, recurSlots: seq<nat>, out: BytecodeModule) returns (r: Status)
      requires e.Loop? && |scopes| > 0 && out.Valid() && Nested(scopes)
      modifies this, out
      ensures out.Valid() && Says(r, CheckAll(e.body, 0, InLoop(|recurSlots|, false), false))
      ensures r == Done ==>
                var w := |old(out.instrs)|;
                Grown(old(out.instrs), out.instrs, old(scopes), scopes,
                      CompileBody(e.body, 0, Spec(old(scopes)), Target(w, recurSlots), w))
      decreases e, 0
    {
      hide Grown, Compile, Check, CheckAll, Spec, Ctx, Recurs, Inside, SameFrames, BytecodeModule.Valid, CompileBody, Nested;
      ghost var w, s := out.instrs, scopes;
      var bodyStart := out.Pos();
      scopes := Targeted(scopes, bodyStart, recurSlots);
      ghost var s1 := scopes;
      TargetedContext(s, bodyStart, recurSlots);
      ghost var b := CompileBody(e.body, 0, Spec(s), Target(bodyStart, recurSlots), |w|);
      :- CompileForms(e.body, out);
      GrownContext(w, out.instrs, s1, scopes, b);
      UntargetedFrames(s, bodyStart, recurSlots, scopes);
      scopes := Untargeted(scopes);
      GrownFrom(w, out.instrs, s, scopes, b);
      return Done;
    }

    /** `loop`: a `let` whose body is also a recur target. */
    method CompileLoopForm(e: Form, out: BytecodeModule) returns (r: Status)
      requires e.Loop? && |scopes| > 0 && out.Valid() && Nested(scopes)
      modifies this, out
      ensures out.Valid() && Says(r, Check(e, Ctx(old(scopes)), |old(scopes)| == 0))
      ensures r == Done ==>
                Grown(old(out.instrs), out.instrs, old(scopes), scopes,
                      Compile(e, Spec(old(scopes)), Recurs(old(scopes)), |old(out.instrs)|))
      decreases e, 1
    {
      hide Grown, Compile, Check, CheckAll, CheckInits, Spec, Ctx, Recurs, Inside, SameFrames, Toward, BytecodeModule.Valid, CompileBody, CompileLoop, Undo, Codegen.Bind, Nested, Shadowed, AllShadowed;
      ghost var w0, s0 := out.instrs, scopes;
      LoopSpec(e, s0, |w0|);
      ghost var full := CompileLoop(e, 0, [], Spec(s0), Recurs(s0), |w0|);
      TowardStart(w0, full.code);
      FramesSelf(s0);
      UndoNone(e.bs, full.sc);
      var saved, recurSlots := [], [];
      ghost var befores: seq<Scopes> := [];
      for i := 0 to |e.bs|
        invariant out.Valid() && SameFrames(s0, scopes) && |scopes| > 0 && Spec(scopes).Inner? && |saved| == |befores| == |recurSlots| == i
        invariant AllShadowed(saved, e.bs, befores)
        invariant CheckInits(e.bs, i, Ctx(s0)) == CheckInits(e.bs, 0, Ctx(s0))
        invariant var rest := CompileLoop(e, i, recurSlots, Spec(scopes), Recurs(s0), |out.instrs|);
                  Toward(w0, Inside(full.code), [], out.instrs, rest.code) && full.sc == Undo(e.bs, befores, i, rest.sc)
      {
        SameContext(s0, scopes);
        ghost var w1, s1 := out.instrs, scopes;
        LoopNext(e, i, recurSlots, Ctx(s0), Spec(s1), Recurs(s0), |w1|);
        ghost var c := Compile(e.bs[i].init, Spec(s1), Recurs(s1), |w1|);
        var slot, shadowed :- CompileBinding(e.bs[i], out);
        ghost var rest := CompileLoop(e, i + 1, recurSlots + [slot], Codegen.Bind(c.sc, e.bs[i].name), Recurs(s0), |w1| + |c.code| + 1);
        GrownContext(w1, out.instrs, s1, scopes, Piece(c.code + [StoreLocal(slot)], Codegen.Bind(c.sc, e.bs[i].name)));
        SpecInner(scopes);
        FramesTrans(s0, s1, scopes);
        TowardStore(w0, Inside(full.code), w1, c.code, slot, rest.code);
        UndoOne(e.bs, befores, i, rest.sc, c.sc);
        recurSlots := recurSlots + [slot];
        ShadowedMore(saved, e.bs, befores, (e.bs[i].name, shadowed), c.sc);
        saved, befores := saved + [(e.bs[i].name, shadowed)], befores + [c.sc];
      }
      SameContext(s0, scopes);
      ghost var w3, s3 := out.instrs, scopes;
      LoopBody(e, recurSlots, Ctx(s0), Spec(s3), Recurs(s0), |w3|);
      ghost var b := CompileBody(e.body, 0, Spec(s3), Target(|w3|, recurSlots), |w3|);
      :- CompileTarget(e, recurSlots, out);
      GrownContext(w3, out.instrs, s3, scopes, b);
      ghost var s6 := scopes;
      TowardLast(w0, full.code, w3, out.instrs, b.code);
      UnbindAll(saved, e.bs, befores);
      FramesTrans(s0, s3, s6);
      FramesTrans(s0, s6, scopes);
      GrownFrom(w0, out.instrs, s0, scopes, full);
      return Done;
    }

    /** A scope for a fn: its parameters in slots 0, 1, ..., and its body as a
        recur target. */
    method OpenFn(params: seq<string>)
      requires Nested(scopes)
      modifies this
      ensures |scopes| == |old(scopes)| + 1 && scopes[..|old(scopes)|] == old(scopes)
      ensures scopes[|old(scopes)|].arity == scopes[|old(scopes)|].nextSlot == |params|
      ensures Spec(scopes) == Inner(ParamScope(params), Spec(old(scopes))) && Nested(scopes)
      ensures Ctx(scopes) == InLoop(|params|, false) && Recurs(scopes) == Target(0, Upto(|params|))
    {
      var names: map<string, nat> := map[];
      var slots: seq<nat> := [];
      for i := 0 to |params|
        invariant names == ParamNames(params, i) && slots == Upto(i)
      {
        names := names[params[i] := i];
        slots := slots + [i];
      }
      scopes := scopes + [FnScope(names, |params|, |params|, [], [RecurTarget(0, slots, 0)], 0)];
      assert scopes[..|scopes| - 1] == old(scopes);
    }

    /** The end of a fn's body: RETURN, its scope closed, its locals cleared. */
    method CloseFn(m: BytecodeModule, ghost code: seq<Instr>) returns (r: Status, b: Block)
      requires m.Valid() && m.instrs == Inside(code) && |scopes| > 0 && scopes[|scopes| - 1].nextSlot >= scopes[|scopes| - 1].arity
      modifies this, m`code, m`instrs
      ensures Says(r, None)
      ensures r == Done ==>
                var top := old(scopes)[|old(scopes)| - 1];
                && scopes == old(scopes)[..|old(scopes)| - 1] && b.captures == top.captures
                && Holds(b, ClearedModule(Module(code + [Return], top.arity, top.nextSlot - top.arity, top.captures)))
    {
      hide Inside, Spec, Cleared, ClearedModule, BytecodeModule.Valid, Holds, Grown;
      b := Block([], [], [], 0, 0, []);
      var _ :- Put(RETURN, 0, m, Return);
      PutIs(Inside(code), m.instrs, scopes, Return);
      var top := scopes[|scopes| - 1];
      scopes := scopes[..|scopes| - 1];
      ClearLastReads(m, top.arity, top.captures);
      b := Freeze(m, top.arity, top.nextSlot - top.arity, top.captures);
      ClearedFn(code, top.arity, top.nextSlot - top.arity, top.captures);
      r := Done;
    }

    /** `(fn params body)`: the body in a module of its own, then the captured
        slots read and MAKE_FN. */
    method CompileFnForm(e: Form, out: BytecodeModule) returns (r: Status)
      requires e.Fn? && out.Valid() && Nested(scopes)
      modifies this, out
      ensures out.Valid() && Says(r, Check(e, Ctx(old(scopes)), |old(scopes)| == 0))
      ensures r == Done ==>
                Grown(old(out.instrs), out.instrs, old(scopes), scopes,
                      Compile(e, Spec(old(scopes)), Recurs(old(scopes)), |old(out.instrs)|))
      decreases e, 1
    {
      hide Grown, Compile, Check, CheckAll, Spec, Ctx, Recurs, Inside, SameFrames, BytecodeModule.Valid, CompileBody, Nested, ClearedModule, ReadCaptures, Holds;
      ghost var w0, s0 := out.instrs, scopes;
      FnSpec(e, s0, |w0|);
      var m := new BytecodeModule();
      OpenFn(e.params);
      ghost var s1, p := scopes, CompileBody(e.body, 0, Spec(scopes), Recurs(scopes), 0);
      :- CompileForms(e.body, m);
      ghost var s2 := scopes;
      GrownContext([], m.instrs, s1, s2, p);
      Enclosed(s0, s1, s2);
      var status, b := CloseFn(m, p.code);
      :- status;
      ghost var fm := FnModule(p, |e.params|);
      FnClosed(p, s2, |e.params|);
      var k := out.AddBlock(b);
      :- CaptureSlots(b.captures, out);
      ghost var w1 := out.instrs;
      Meant(k, out.consts, out.blocks, b, ClearedModule(fm));
      var _ :- out.Emit(MAKE_FN, k, MakeFn(ClearedModule(fm)));
      FnMade(w0, fm, out.instrs);
      GrownFrom(w0, out.instrs, s0, scopes, Compile(e, Spec(s0), Recurs(s0), |w0|));
      return Done;
    }

    /** PUSH_LOCAL of each captured slot, in capture order. */
    method CaptureSlots(caps: seq<Capture>, out: BytecodeModule) returns (r: Status)
      requires out.Valid()
      modifies out`code, out`instrs
      ensures out.Valid() && Says(r, None)
      ensures r == Done ==> out.instrs == old(out.instrs) + ReadCaptures(caps)
    {
      hide Grown, Spec, Inside, BytecodeModule.Valid;
      ghost var w := out.instrs;
      for i := 0 to |caps|
        invariant out.Valid() && out.instrs == w + ReadCaptures(caps)[..i]
      {
        ghost var w1 := out.instrs;
        var _ :- Put(PUSH_LOCAL, caps[i].parentSlot, out, PushLocal(caps[i].parentSlot));
        PutIs(w1, out.instrs, scopes, PushLocal(caps[i].parentSlot));
        assert ReadCaptures(caps)[..i + 1] == ReadCaptures(caps)[..i] + [PushLocal(caps[i].parentSlot)];
      }
      assert ReadCaptures(caps)[..|caps|] == ReadCaptures(caps);
      return Done;
    }

    /** A top-level `let`, `loop` or `try` as the body of a fn called on the
        spot. */
    method CompileAsThunk(e: Form, out: BytecodeModule) returns (r: Status)
      requires (e.Let? || e.Loop? || e.Try?) && |scopes| == 0 && out.Valid() && Nested(scopes)
      modifies this, out
      ensures out.Valid() && Says(r, Check(e, Ctx(old(scopes)), |old(scopes)| == 0))
      ensures r == Done ==>
                Grown(old(out.instrs), out.instrs, old(scopes), scopes,
                      Compile(e, Spec(old(scopes)), Recurs(old(scopes)), |old(out.instrs)|))
      decreases e, 5
    {
      hide Grown, Compile, Check, CheckAll, Spec, Ctx, Recurs, Inside, SameFrames, BytecodeModule.Valid, CompileBody, Nested, ClearedModule, ReadCaptures, Holds;
      ghost var w0, s0 := out.instrs, scopes;
      ThunkSpec(e, s0, |w0|);
      var m := new BytecodeModule();
      OpenFn([]);
      ghost var s1, p := scopes, Compile(e, Spec(scopes), Recurs(scopes), 0);
      :- CompileForm(e, m);
      ghost var s2 := scopes;
      GrownContext([], m.instrs, s1, s2, p);
      Enclosed(s0, s1, s2);
      var status, b := CloseFn(m, p.code);
      :- status;
      ghost var fm := FnModule(p, 0);
      FnClosed(p, s2, 0);
      var k := out.AddBlock(b);
      Meant(k, out.consts, out.blocks, b, ClearedModule(fm));
      var _ :- out.Emit(MAKE_FN, k, MakeFn(ClearedModule(fm)));
      ghost var w1 := out.instrs;
      var _ :- Put(CALL, 0, out, Invoke(0));
      PutIs(w1, out.instrs, scopes, Invoke(0));
      ThunkMade(w0, fm, out.instrs);
      GrownFrom(w0, out.instrs, s0, scopes, Compile(e, Spec(s0), Recurs(s0), |w0|));
      return Done;
    }

    /** `try`: what it compiles is one `try` deeper for `recur`. */
    method CompileTryForm(e: Form, out: BytecodeModule) returns (r: Status)
      requires e.Try? && |scopes| > 0 && out.Valid() && Nested(scopes)
      modifies this, out
      ensures out.Valid() && Says(r, Check(e, Ctx(old(scopes)), |old(scopes)| == 0))
      ensures r == Done ==>
                Grown(old(out.instrs), out.instrs, old(scopes), scopes,
                      Compile(e, Spec(old(scopes)), Recurs(old(scopes)), |old(out.instrs)|))
      decreases e, 2
    {
      hide Grown, Compile, Check, CheckAll, CheckClauses, Spec, Ctx, Recurs, Inside, SameFrames, Toward, BytecodeModule.Valid, CompileBody, CompileClauses, CompileCatches, CompileEffects, Nested, Reserve, Alias, Restore;
      ghost var s0, w0 := scopes, out.instrs;
      TrySpec(e, s0, |w0|);
      scopes := Deeper(scopes);
      DeeperContext(s0);
      if e.fin.NoFinally? {
        :- CompileCatching(e, out);
      } else {
        :- CompileFinalized(e, out);
      }
      ghost var s1 := scopes;
      GrownTried(w0, out.instrs, s0, s1, Compile(e, Spec(s0), Recurs(s0), |w0|));
      scopes := Shallower(scopes);
      return Done;
    }

    /** A body under its catch clauses, whose jumps to the end are patched once
        the end is there. */
    method CompileCatching(e: Form, out: BytecodeModule) returns (r: Status)
      requires e.Try? && |scopes| > 0 && out.Valid() && Nested(scopes) && Recurs(scopes).NoTarget? && Spec(scopes).Inner?
      modifies this, out
      ensures out.Valid()
      ensures Says(r, FirstError(CheckAll(e.body, 0, Ctx(old(scopes)), false), CheckClauses(e.catches, 0, Ctx(old(scopes)))))
      ensures r == Done ==>
                Grown(old(out.instrs), out.instrs, old(scopes), scopes, CompileCatches(e, Spec(old(scopes)), |old(out.instrs)|))
      decreases e, 0, 0
    {
      hide Grown, Compile, Check, CheckAll, CheckClauses, Spec, Ctx, Recurs, Inside, SameFrames, Toward, BytecodeModule.Valid, CompileBody, CompileClauses, CompileCatches, CompileEffects, Nested, Reserve, Alias, Restore;
      ghost var w0, s0 := out.instrs, scopes;
      NoClausesSpec(e, Ctx(s0), Spec(s0), |w0|);
      if |e.catches| == 0 { r := CompileForms(e.body, out); return; }
      ghost var full := CompileCatches(e, Spec(s0), |w0|);
      ghost var b := CompileBody(e.body, 0, Spec(s0), NoTarget, |w0| + 1);
      CatchingSpec(e, Spec(s0), |w0|);
      ghost var slot0, J := b.sc.top.nextSlot, Inside(full.code);
      ghost var c := CompileClauses(e.catches, 0, slot0, Reserve(b.sc), |w0| + 1 + |b.code| + 3);
      CatchToward(w0, [TryBegin(|b.code| + 2)] + b.code + [TryEnd], |b.code|, c.code, slot0, full.code);
      var status, jmp := CompileGuarded(e.body, out);
      :- status;
      ghost var s1 := scopes;
      SameContext(s0, s1);
      SpecInner(s1);
      var doneJumps;
      status, doneJumps := CompileHandler(e.catches, jmp, out, w0, J);
      :- status;
      TowardPatch(w0, J, doneJumps, out.instrs);
      :- PatchAll(out, doneJumps, out.Pos(), |w0|, J);
      FramesTrans(s0, s1, scopes);
      GrownFrom(w0, out.instrs, s0, scopes, full);
      return Done;
    }

    /** The handler of a `try`: the exception stored, the clauses, and the
        exception again when none handled it. */
    method CompileHandler(cs: seq<Clause>, jmp: nat, out: BytecodeModule, ghost w0: seq<Instr>, ghost J: seq<Instr>)
      returns (r: Status, doneJumps: seq<nat>)
      requires out.Valid() && Nested(scopes) && Recurs(scopes).NoTarget? && |scopes| > 0 && Spec(scopes).Inner?
      requires var slot := Spec(scopes).top.nextSlot;
               var c := CompileClauses(cs, 0, slot, Reserve(Spec(scopes)), |out.instrs| + 1);
               Toward(w0, J, [jmp], out.instrs, [StoreCaught(slot)] + (c.code + [Rethrow(slot)]))
      modifies this, out
      ensures out.Valid() && Says(r, CheckClauses(cs, 0, Ctx(old(scopes))))
      ensures r == Done ==>
                && Toward(w0, J, doneJumps, out.instrs, []) && SameFrames(old(scopes), scopes)
                && Spec(scopes) == CompileClauses(cs, 0, Spec(old(scopes)).top.nextSlot, Reserve(Spec(old(scopes))), |old(out.instrs)| + 1).sc
      decreases cs, 1
    {
      hide Grown, Compile, Check, CheckAll, CheckClauses, Spec, Ctx, Recurs, Inside, SameFrames, Toward, BytecodeModule.Valid, CompileBody, CompileClauses, CompileCatches, CompileEffects, Nested, Alias, Restore;
      doneJumps := [];
      ghost var w1, s1 := out.instrs, scopes;
      ghost var c := CompileClauses(cs, 0, Spec(s1).top.nextSlot, Reserve(Spec(s1)), |w1| + 1);
      var exSlot := NewSlot();
      ghost var s2 := scopes;
      var _ :- Put(STORE_CAUGHT, exSlot, out, StoreCaught(exSlot));
      TowardPut(w0, J, [jmp], w1, out.instrs, scopes, StoreCaught(exSlot), c.code + [Rethrow(exSlot)]);
      SameContext(s1, s2);
      var status;
      status, doneJumps := CompileClausesFrom(cs, exSlot, jmp, out, w0, J);
      :- status;
      ghost var w3 := out.instrs;
      FramesTrans(s1, s2, scopes);
      var _ :- Put(RETHROW, exSlot, out, Rethrow(exSlot));
      NothingMore([Rethrow(exSlot)]);
      TowardPut(w0, J, doneJumps, w3, out.instrs, scopes, Rethrow(exSlot), []);
      r := Done;
    }

    /** TRY_BEGIN, still to be patched, the body, TRY_END. */
    method CompileTried(body: seq<Form>, out: BytecodeModule) returns (r: Status)
      requires out.Valid() && Nested(scopes) && Recurs(scopes).NoTarget? && |scopes| > 0
      modifies this, out
      ensures out.Valid() && Says(r, CheckAll(body, 0, Ctx(old(scopes)), false))
      ensures r == Done ==>
                var b := CompileBody(body, 0, Spec(old(scopes)), NoTarget, |old(out.instrs)| + 1);
                && out.instrs == old(out.instrs) + [TryBegin(0)] + Inside(b.code) + [TryEnd]
                && SameFrames(old(scopes), scopes) && Spec(scopes) == b.sc && |scopes| > 0
      decreases body, 1
    {
      hide Grown, Compile, Check, CheckAll, CheckClauses, Spec, Ctx, Recurs, Inside, SameFrames, Toward, BytecodeModule.Valid, CompileBody, CompileClauses, CompileCatches, CompileEffects, Nested, Reserve, Alias, Restore;
      ghost var w0, s0 := out.instrs, scopes;
      var _ :- Put(TRY_BEGIN, 0, out, TryBegin(0));
      PutIs(w0, out.instrs, scopes, TryBegin(0));
      ghost var w1 := out.instrs;
      :- CompileForms(body, out);
      ghost var w2, b := out.instrs, CompileBody(body, 0, Spec(s0), NoTarget, |w1|);
      GrownContext(w1, w2, s0, scopes, b);
      var _ :- Put(TRY_END, 0, out, TryEnd);
      PutIs(w2, out.instrs, scopes, TryEnd);
      r := Done;
    }

    /** A guarded body and the jump past its handler. */
    method CompileGuarded(body: seq<Form>, out: BytecodeModule) returns (r: Status, jmp: nat)
      requires out.Valid() && Nested(scopes) && Recurs(scopes).NoTarget? && |scopes| > 0
      modifies this, out
      ensures out.Valid() && Says(r, CheckAll(body, 0, Ctx(old(scopes)), false))
      ensures r == Done ==>
                var b := CompileBody(body, 0, Spec(old(scopes)), NoTarget, |old(out.instrs)| + 1);
                && out.instrs == old(out.instrs) + Inside([TryBegin(|b.code| + 2)] + b.code + [TryEnd]) + [Jump(0)]
                && jmp == |old(out.instrs)| + |b.code| + 2
                && SameFrames(old(scopes), scopes) && Spec(scopes) == b.sc && |scopes| > 0
      decreases body, 2
    {
      hide Grown, Compile, Check, CheckAll, CheckClauses, Spec, Ctx, Recurs, Inside, SameFrames, Toward, BytecodeModule.Valid, CompileBody, CompileClauses, CompileCatches, CompileEffects, Nested, Reserve, Alias, Restore;
      jmp := 0;
      ghost var w0, b := out.instrs, CompileBody(body, 0, Spec(scopes), NoTarget, |out.instrs| + 1);
      var at := out.Pos();
      :- CompileTried(body, out);
      ghost var w3 := out.instrs;
      jmp :- Put(JUMP, 0, out, Jump(0));
      PutIs(w3, out.instrs, scopes, Jump(0));
      GuardMade(w0, b.code, out.instrs);
      :- out.PatchOperand(at, out.Pos() - (at + 1));
      r := Done;
    }

    /** A slot with no name. */
    method NewSlot() returns (slot: nat)
      requires |scopes| > 0
      modifies this
      ensures Spec(old(scopes)).Inner? && slot == Spec(old(scopes)).top.nextSlot
      ensures Spec(scopes) == Reserve(Spec(old(scopes))) && SameFrames(old(scopes), scopes) && |scopes| > 0
    {
      var idx := |scopes| - 1;
      ghost var was := scopes;
      slot := scopes[idx].nextSlot;
      scopes := scopes[idx := scopes[idx].(nextSlot := slot + 1)];
      assert scopes[..idx] == was[..idx];
    }

    /** The clauses in source order, each ending in a jump to the end. */
    method CompileClausesFrom(cs: seq<Clause>, slot: nat, jmp: nat, out: BytecodeModule, ghost w0: seq<Instr>, ghost J: seq<Instr>)
      returns (r: Status, doneJumps: seq<nat>)
      requires out.Valid() && Nested(scopes) && Recurs(scopes).NoTarget? && |scopes| > 0 && Spec(scopes).Inner?
      requires Toward(w0, J, [jmp], out.instrs, CompileClauses(cs, 0, slot, Spec(scopes), |out.instrs|).code + [Rethrow(slot)])
      modifies this, out
      ensures out.Valid() && Says(r, CheckClauses(cs, 0, Ctx(old(scopes))))
      ensures r == Done ==>
                && Toward(w0, J, doneJumps, out.instrs, [Rethrow(slot)]) && SameFrames(old(scopes), scopes)
                && Spec(scopes) == CompileClauses(cs, 0, slot, Spec(old(scopes)), |old(out.instrs)|).sc
      decreases cs, 0
    {
      hide Grown, Compile, Check, CheckAll, CheckClauses, Spec, Ctx, Recurs, Inside, SameFrames, Toward, BytecodeModule.Valid, CompileBody, CompileClauses, CompileCatches, CompileEffects, Nested, Reserve, Alias, Restore;
      doneJumps := [jmp];
      ghost var s0 := scopes;
      ghost var full := CompileClauses(cs, 0, slot, Spec(s0), |out.instrs|);
      FramesSelf(s0);
      for i := 0 to |cs|
        invariant out.Valid() && SameFrames(s0, scopes) && |scopes| > 0 && Spec(scopes).Inner?
        invariant CheckClauses(cs, i, Ctx(s0)) == CheckClauses(cs, 0, Ctx(s0))
        invariant var rest := CompileClauses(cs, i, slot, Spec(scopes), |out.instrs|);
                  Toward(w0, J, doneJumps, out.instrs, rest.code + [Rethrow(slot)]) && rest.sc == full.sc
      {
        SameContext(s0, scopes);
        ghost var w1, s1 := out.instrs, scopes;
        ClauseNext(cs, i, slot, Ctx(s0), Spec(s1), |w1|, [Rethrow(slot)]);
        ghost var b := CompileBody(cs[i].body, 0, Alias(Spec(s1), cs[i].name, slot), NoTarget, |w1| + 3);
        ghost var g := [PushLocal(slot), ExcMatch(cs[i].classId), JumpIfFalse(|b.code| + 1)] + b.code;
        ghost var rest := CompileClauses(cs, i + 1, slot, Restore(b.sc, cs[i].name, Spec(s1)), |w1| + 3 + |b.code| + 1);
        TowardMore(w0, J, doneJumps, w1, g, [Jump(|rest.code| + 1)] + (rest.code + [Rethrow(slot)]));
        TowardJump(w0, J, doneJumps, w1 + Inside(g), Jump(0), rest.code + [Rethrow(slot)]);
        var status, at := CompileClause(cs[i], slot, out);
        :- status;
        FramesTrans(s0, s1, scopes);
        SpecInner(scopes);
        doneJumps := doneJumps + [at];
      }
      SameContext(s0, scopes);
      LastClause(cs, slot, Ctx(s0), Spec(scopes), |out.instrs|);
      assert [] + [Rethrow(slot)] == [Rethrow(slot)];
      r := Done;
    }

    /** One clause: the class test, the body with the exception named, and the
        jump to the end. */
    method CompileClause(c: Clause, slot: nat, out: BytecodeModule) returns (r: Status, jmp: nat)
      requires out.Valid() && Nested(scopes) && Recurs(scopes).NoTarget? && |scopes| > 0 && Spec(scopes).Inner?
      modifies this, out
      ensures out.Valid() && Says(r, CheckAll(c.body, 0, Ctx(old(scopes)), false))
      ensures r == Done ==>
                var b := CompileBody(c.body, 0, Alias(Spec(old(scopes)), c.name, slot), NoTarget, |old(out.instrs)| + 3);
                && b.sc.Inner? && jmp == |old(out.instrs)| + 3 + |b.code|
                && out.instrs == old(out.instrs) + Inside([PushLocal(slot), ExcMatch(c.classId), JumpIfFalse(|b.code| + 1)] + b.code) + [Jump(0)]
                && SameFrames(old(scopes), scopes) && Spec(scopes) == Restore(b.sc, c.name, Spec(old(scopes))) && |scopes| > 0
      decreases c.body, 1
    {
      hide Grown, Compile, Check, CheckAll, CheckClauses, Spec, Ctx, Recurs, Inside, SameFrames, Toward, BytecodeModule.Valid, CompileBody, CompileClauses, CompileCatches, CompileEffects, Nested, Reserve, Alias, Restore;
      jmp := 0;
      ghost var w0, s0 := out.instrs, scopes;
      var nextAt :- CompileTest(c.classId, slot, out);
      ghost var w3 := out.instrs;
      var shadowed := Name(c.name, slot);
      ghost var s1 := scopes;
      SameContext(s0, s1);
      :- CompileForms(c.body, out);
      ghost var w4, s2, b := out.instrs, scopes, CompileBody(c.body, 0, Spec(s1), NoTarget, |w3|);
      GrownContext(w3, w4, s1, s2, b);
      SpecInner(s2);
      Unbind(c.name, shadowed, Spec(s0));
      FramesTrans(s0, s1, s2);
      FramesTrans(s0, s2, scopes);
      SameContext(s0, scopes);
      jmp :- Put(JUMP, 0, out, Jump(0));
      PutIs(w4, out.instrs, scopes, Jump(0));
      ClauseMade(w0, slot, c.classId, b.code, out.instrs);
      :- out.PatchOperand(nextAt, out.Pos() - (nextAt + 1));
      r := Done;
    }

    /** The exception read, its class tested, and the jump past the clause. */
    method CompileTest(classId: nat, slot: nat, out: BytecodeModule) returns (r: Placed)
      requires out.Valid()
      modifies out`code, out`instrs
      ensures out.Valid() && (r.NoRoom? ==> r.failure.TooLarge? && r.failure.operand > MAX_OPERAND)
      ensures r.At? ==> r.pos == |old(out.instrs)| + 2
      ensures r.At? ==> out.instrs == old(out.instrs) + [PushLocal(slot), ExcMatch(classId), JumpIfFalse(0)]
    {
      hide BytecodeModule.Valid;
      r := out.Emit(PUSH_LOCAL, slot, PushLocal(slot));
      if r.NoRoom? { return; }
      r := out.Emit(EXC_MATCH, classId, ExcMatch(classId));
      if r.NoRoom? { return; }
      r := out.Emit(JUMP_IF_FALSE, 0, JumpIfFalse(0));
    }

    /** `name` names `slot`; what it shadowed. */
    method Name(name: string, slot: nat) returns (shadowed: int)
      requires |scopes| > 0 && Spec(scopes).Inner?
      modifies this
      ensures Spec(scopes) == Alias(Spec(old(scopes)), name, slot) && SameFrames(old(scopes), scopes) && |scopes| > 0
      ensures var names := Spec(old(scopes)).top.names; shadowed == if name in names then names[name] else -1
    {
      var idx := |scopes| - 1;
      var names := scopes[idx].nameToSlot;
      ghost var was := scopes;
      shadowed := if name in names then names[name] else -1;
      scopes := scopes[idx := scopes[idx].(nameToSlot := names[name := slot])];
      assert scopes[..idx] == was[..idx];
    }

    /** `finally`: its forms once after the normal exit, once in a handler that
        raises again. */
    method CompileFinalized(e: Form, out: BytecodeModule) returns (r: Status)
      requires e.Try? && e.fin.Finally? && |scopes| > 0 && out.Valid() && Nested(scopes) && Recurs(scopes).NoTarget? && Spec(scopes).Inner?
      modifies this, out
      ensures out.Valid()
      ensures Says(r, FirstError(FirstError(CheckAll(e.body, 0, Ctx(old(scopes)), false), CheckClauses(e.catches, 0, Ctx(old(scopes)))),
                                 CheckAll(e.fin.forms, 0, Ctx(old(scopes)), false)))
      ensures r == Done ==>
                Grown(old(out.instrs), out.instrs, old(scopes), scopes, Compile(e, Spec(old(scopes)), NoTarget, |old(out.instrs)|))
      decreases e, 1
    {
      hide Grown, Compile, Check, CheckAll, CheckClauses, Spec, Ctx, Recurs, Inside, SameFrames, Toward, BytecodeModule.Valid, CompileBody, CompileClauses, CompileCatches, CompileEffects, Nested, Reserve, Alias, Restore;
      ghost var w0, s0 := out.instrs, scopes;
      FinalSpec(e, Spec(s0), |w0|);
      ghost var t := CompileCatches(e, Spec(s0), |w0| + 1);
      ghost var n := CompileEffects(e.fin.forms, 0, t.sc, |w0| + 1 + |t.code| + 1);
      var status, endAt := CompileNormalExit(e, out);
      :- status;
      ghost var w1, s1 := out.instrs, scopes;
      SpecInner(s1);
      SameContext(s0, s1);
      :- CompileRaisingExit(e.fin.forms, out);
      ghost var x := CompileEffects(e.fin.forms, 0, Reserve(Spec(s1)), |w1| + 1);
      FinallyMade(w0, t.code, n.code, x.code, Spec(s1).top.nextSlot, out.instrs);
      :- out.PatchOperand(endAt, out.Pos() - (endAt + 1));
      FramesTrans(s0, s1, scopes);
      GrownFrom(w0, out.instrs, s0, scopes, Compile(e, Spec(s0), NoTarget, |w0|));
      return Done;
    }

    /** The handler of `finally`: the exception stored, the forms, and the
        exception again. */
    method CompileRaisingExit(forms: seq<Form>, out: BytecodeModule) returns (r: Status)
      requires |scopes| > 0 && out.Valid() && Nested(scopes) && Recurs(scopes).NoTarget? && Spec(scopes).Inner?
      modifies this, out
      ensures out.Valid() && Says(r, CheckAll(forms, 0, Ctx(old(scopes)), false))
      ensures r == Done ==>
                var slot := Spec(old(scopes)).top.nextSlot;
                var x := CompileEffects(forms, 0, Reserve(Spec(old(scopes))), |old(out.instrs)| + 1);
                && out.instrs == old(out.instrs) + [StoreCaught(slot)] + Inside(x.code) + [Rethrow(slot)]
                && SameFrames(old(scopes), scopes) && Spec(scopes) == x.sc
      decreases forms, 1
    {
      hide Grown, Compile, Check, CheckAll, CheckClauses, Spec, Ctx, Recurs, Inside, SameFrames, Toward, BytecodeModule.Valid, CompileBody, CompileClauses, CompileCatches, CompileEffects, Nested, Reserve, Alias, Restore;
      ghost var w1, s1 := out.instrs, scopes;
      var fxSlot := NewSlot();
      ghost var s2 := scopes;
      SameContext(s1, s2);
      var _ :- Put(STORE_CAUGHT, fxSlot, out, StoreCaught(fxSlot));
      PutIs(w1, out.instrs, scopes, StoreCaught(fxSlot));
      ghost var w2 := out.instrs;
      :- CompileFinally(forms, out);
      ghost var w3, x := out.instrs, CompileEffects(forms, 0, Spec(s2), |w2|);
      GrownContext(w2, w3, s2, scopes, x);
      FramesTrans(s1, s2, scopes);
      var _ :- Put(RETHROW, fxSlot, out, Rethrow(fxSlot));
      PutIs(w3, out.instrs, scopes, Rethrow(fxSlot));
      r := Done;
    }

    /** TRY_BEGIN, still to be patched, the guarded code, TRY_END. */
    method CompileProtected(e: Form, out: BytecodeModule) returns (r: Status)
      requires e.Try? && |scopes| > 0 && out.Valid() && Nested(scopes) && Recurs(scopes).NoTarget? && Spec(scopes).Inner?
      modifies this, out
      ensures out.Valid()
      ensures Says(r, FirstError(CheckAll(e.body, 0, Ctx(old(scopes)), false), CheckClauses(e.catches, 0, Ctx(old(scopes)))))
      ensures r == Done ==>
                var t := CompileCatches(e, Spec(old(scopes)), |old(out.instrs)| + 1);
                && out.instrs == old(out.instrs) + [TryBegin(0)] + Inside(t.code) + [TryEnd]
                && SameFrames(old(scopes), scopes) && Spec(scopes) == t.sc && |scopes| > 0
      decreases e, 0, 1
    {
      hide Grown, Compile, Check, CheckAll, CheckClauses, Spec, Ctx, Recurs, Inside, SameFrames, Toward, BytecodeModule.Valid, CompileBody, CompileClauses, CompileCatches, CompileEffects, Nested, Reserve, Alias, Restore;
      ghost var w0, s0 := out.instrs, scopes;
      var _ :- Put(TRY_BEGIN, 0, out, TryBegin(0));
      PutIs(w0, out.instrs, scopes, TryBegin(0));
      ghost var w1, t := out.instrs, CompileCatches(e, Spec(s0), |w0| + 1);
      :- CompileCatching(e, out);
      ghost var w2, s1 := out.instrs, scopes;
      GrownContext(w1, w2, s0, s1, t);
      var _ :- Put(TRY_END, 0, out, TryEnd);
      PutIs(w2, out.instrs, scopes, TryEnd);
      r := Done;
    }

    /** The guarded code, the finally forms after it, and the jump past the
        handler. */
    method CompileNormalExit(e: Form, out: BytecodeModule) returns (r: Status, jmp: nat)
      requires e.Try? && e.fin.Finally? && |scopes| > 0 && out.Valid() && Nested(scopes) && Recurs(scopes).NoTarget? && Spec(scopes).Inner?
      modifies this, out
      ensures out.Valid()
      ensures Says(r, FirstError(FirstError(CheckAll(e.body, 0, Ctx(old(scopes)), false), CheckClauses(e.catches, 0, Ctx(old(scopes)))),
                                 CheckAll(e.fin.forms, 0, Ctx(old(scopes)), false)))
      ensures r == Done ==>
                var t := CompileCatches(e, Spec(old(scopes)), |old(out.instrs)| + 1);
                var n := CompileEffects(e.fin.forms, 0, t.sc, |old(out.instrs)| + 1 + |t.code| + 1);
                && jmp == |old(out.instrs)| + 1 + |t.code| + 1 + |n.code|
                && out.instrs == old(out.instrs) + [TryBegin(|t.code| + 1 + |n.code| + 1)] + Inside(t.code) + [TryEnd] + Inside(n.code) + [Jump(0)]
                && SameFrames(old(scopes), scopes) && Spec(scopes) == n.sc && |scopes| > 0
      decreases e, 0, 2
    {
      hide Grown, Compile, Check, CheckAll, CheckClauses, Spec, Ctx, Recurs, Inside, SameFrames, Toward, BytecodeModule.Valid, CompileBody, CompileClauses, CompileCatches, CompileEffects, Nested, Reserve, Alias, Restore;
      jmp := 0;
      ghost var w0, s0 := out.instrs, scopes;
      ghost var t := CompileCatches(e, Spec(s0), |w0| + 1);
      var at := out.Pos();
      :- CompileProtected(e, out);
      ghost var w3, s1 := out.instrs, scopes;
      SameContext(s0, s1);
      :- CompileFinally(e.fin.forms, out);
      ghost var w4, n := out.instrs, CompileEffects(e.fin.forms, 0, Spec(s1), |w3|);
      GrownContext(w3, w4, s1, scopes, n);
      FramesTrans(s0, s1, scopes);
      jmp :- Put(JUMP, 0, out, Jump(0));
      PutIs(w4, out.instrs, scopes, Jump(0));
      PatchGuard(w0, Inside(t.code), Inside(n.code), out.instrs);
      :- out.PatchOperand(at, out.Pos() - (at + 1));
      r := Done;
    }

    method CompileElseForm(els: Option<Form>, out: BytecodeModule) returns (r: Status)
      requires out.Valid() && Nested(scopes)
      modifies this, out
      ensures out.Valid() && Says(r, if els.Some? then Check(els.value, Ctx(old(scopes)), |old(scopes)| == 0) else None)
      ensures r == Done ==>
                Grown(old(out.instrs), out.instrs, old(scopes), scopes,
                      CompileElse(els, Spec(old(scopes)), Recurs(old(scopes)), |old(out.instrs)|))
      decreases els, 3
    {
      hide Grown, Compile, Check, Spec, Ctx, Recurs;
      if els.Some? {
        r := CompileForm(els.value, out);
      } else {
        var _ :- Put(PUSH_NIL, 0, out, PushNil);
        return Done;
      }
    }
  }

  lemma LeafSpec(e: Form, s: seq<FnScope>, pos: nat)
    ensures e.Lit? || e.Quote? || e.Sym? || e.Global? ==> Check(e, Ctx(s), |s| == 0) == None
    ensures e.Lit? || e.Quote? ==> Compile(e, Spec(s), Recurs(s), pos) == Piece([PushLiteral(e.c)], Spec(s))
    ensures e.Global? ==> Compile(e, Spec(s), Recurs(s), pos) == Piece([PushVar(e.name)], Spec(s))
  {
  }

  lemma DefSpec(e: Form, s: seq<FnScope>, pos: nat)
    requires e.Def?
    ensures Check(e, Ctx(s), |s| == 0) == Check(e.init, Ctx(s), |s| == 0)
    ensures var p := Compile(e.init, Spec(s), Recurs(s), pos);
            Compile(e, Spec(s), Recurs(s), pos) == Piece(p.code + [StoreGlobal(e.name)], p.sc)
  {
    hide Spec, Ctx, Recurs;
  }

  lemma ThrowSpec(e: Form, s: seq<FnScope>, pos: nat)
    requires e.Throw?
    ensures Check(e, Ctx(s), |s| == 0) == Check(e.e, Ctx(s), |s| == 0)
    ensures var p := Compile(e.e, Spec(s), Recurs(s), pos); Compile(e, Spec(s), Recurs(s), pos) == Piece(p.code + [Raise], p.sc)
  {
    hide Spec, Ctx, Recurs;
  }

  /** One appended piece after another. */
  lemma GrownThen(w0: seq<Instr>, w1: seq<Instr>, w2: seq<Instr>, s0: seq<FnScope>, s1: seq<FnScope>, s2: seq<FnScope>, p: Piece, q: Piece)
    requires Grown(w0, w1, s0, s1, p) && Grown(w1, w2, s1, s2, q)
    ensures Grown(w0, w2, s0, s2, Piece(p.code + q.code, q.sc))
  {
    hide Spec, Inside;
    InsideJoin(p.code, q.code);
  }

  lemma GrownScopes(w0: seq<Instr>, w1: seq<Instr>, s0: seq<FnScope>, s1: seq<FnScope>, p: Piece)
    requires Grown(w0, w1, s0, s1, p)
    ensures Spec(s1) == p.sc && |w1| == |w0| + |p.code|
  {
  }

  lemma GrownContext(w0: seq<Instr>, w1: seq<Instr>, s0: seq<FnScope>, s1: seq<FnScope>, p: Piece)
    requires Grown(w0, w1, s0, s1, p)
    ensures Ctx(s1) == Ctx(s0) && Recurs(s1) == Recurs(s0) && (|s0| == 0 <==> |s1| == 0) && SameFrames(s0, s1)
    ensures Nested(s0) ==> Nested(s1)
    ensures Spec(s1) == p.sc && w1 == w0 + Inside(p.code) && |w1| == |w0| + |p.code|
  {
    SameContext(s0, s1);
  }

  lemma IfSpec(e: Form, s: seq<FnScope>, pos: nat)
    requires e.If?
    ensures var sc, rt, top := Spec(s), Recurs(s), |s| == 0;
            match LiteralTest(e.test)
            case Some(true) => Check(e, Ctx(s), top) == Check(e.thn, Ctx(s), top) && Compile(e, sc, rt, pos) == Compile(e.thn, sc, rt, pos)
            case Some(false) =>
              && Check(e, Ctx(s), top) == (if e.els.Some? then Check(e.els.value, Ctx(s), top) else None)
              && Compile(e, sc, rt, pos) == CompileElse(e.els, sc, rt, pos)
            case None =>
              && Check(e, Ctx(s), top) ==
                   (if Check(e.test, Ctx(s), top).Some? then Check(e.test, Ctx(s), top)
                    else if Check(e.thn, Ctx(s), top).Some? then Check(e.thn, Ctx(s), top)
                    else if e.els.Some? then Check(e.els.value, Ctx(s), top) else None)
              && var c := Compile(e.test, sc, rt, pos);
                 var t := Compile(e.thn, c.sc, rt, pos + |c.code| + 1);
                 var f := CompileElse(e.els, t.sc, rt, pos + |c.code| + 1 + |t.code| + 1);
                 Compile(e, sc, rt, pos) == Piece(c.code + [JumpIfFalse(|t.code| + 1)] + t.code + [Jump(|f.code|)] + f.code, f.sc)
  {
    hide Spec, Ctx, Recurs, CompileElse;
  }

  lemma PutIs(w0: seq<Instr>, w1: seq<Instr>, s: seq<FnScope>, i: Instr)
    requires Grown(w0, w1, s, s, Piece([i], Spec(s))) && !i.MakeFn?
    ensures w1 == w0 + [i]
  {
    InsideOne(i);
  }

  lemma GrownFrom(w0: seq<Instr>, w1: seq<Instr>, s0: seq<FnScope>, s1: seq<FnScope>, p: Piece)
    requires w1 == w0 + Inside(p.code) && SameFrames(s0, s1) && Spec(s1) == p.sc
    ensures Grown(w0, w1, s0, s1, p)
  {
  }

  lemma FramesTrans(a: seq<FnScope>, b: seq<FnScope>, c: seq<FnScope>)
    requires SameFrames(a, b) && SameFrames(b, c)
    ensures SameFrames(a, c)
  {
  }

  lemma PatchTest(w: seq<Instr>, t: seq<Instr>, n: nat)
    requires |t| == n
    ensures var v := w + [JumpIfFalse(0)] + t + [Jump(0)];
            |v| == |w| + n + 2 && v[|w|] == JumpIfFalse(0) && v[|w| := JumpIfFalse(n + 1)] == w + [JumpIfFalse(n + 1)] + t + [Jump(0)]
  {
  }

  lemma PatchOver(w: seq<Instr>, f: seq<Instr>, n: nat)
    requires |f| == n
    ensures var v := w + [Jump(0)] + f; |v| == |w| + n + 1 && v[|w|] == Jump(0) && v[|w| := Jump(n)] == w + [Jump(n)] + f
  {
  }

  lemma IfMade(w0: seq<Instr>, c: seq<Instr>, t: seq<Instr>, f: seq<Instr>, w: seq<Instr>)
    requires w == w0 + Inside(c) + [JumpIfFalse(|t| + 1)] + Inside(t) + [Jump(|f|)] + Inside(f)
    ensures w == w0 + Inside(c + [JumpIfFalse(|t| + 1)] + t + [Jump(|f|)] + f)
  {
    hide Inside;
    var j, k := [JumpIfFalse(|t| + 1)], [Jump(|f|)];
    InsideOne(j[0]);
    InsideOne(k[0]);
    InsideJoin(c, j);
    InsideJoin(c + j, t);
    InsideJoin(c + j + t, k);
    InsideJoin(c + j + t + k, f);
  }

  lemma FramesSelf(s: seq<FnScope>)
    ensures SameFrames(s, s)
  {
  }

  lemma NoForms(rc: RecurCtx, top: bool, sc: Scopes, rt: Target, pos: nat)
    ensures CheckAll([], 0, rc, top) == None && CompileBody([], 0, sc, rt, pos) == Piece([PushNil], sc)
  {
  }

  lemma NoneLeft(es: seq<Form>, rc: RecurCtx, top: bool)
    ensures CheckAll(es, |es|, rc, top) == None
  {
  }

  lemma NoEffects(es: seq<Form>, sc: Scopes, pos: nat)
    ensures CompileEffects(es, |es|, sc, pos) == Piece([], sc)
  {
  }

  lemma NoArgs(es: seq<Form>, sc: Scopes, rt: Target, pos: nat)
    ensures CompileArgs(es, |es|, sc, rt, pos) == Piece([], sc)
  {
  }

  /** What is left of a body after `i` forms. */
  function BodyRest(es: seq<Form>, i: nat, sc: Scopes, rt: Target, pos: nat): Piece
    requires i <= |es|
  {
    if i == |es| then Piece([], sc) else CompileBody(es, i, sc, rt, pos)
  }

  lemma BodyNext(es: seq<Form>, i: nat, rc: RecurCtx, top: bool, sc: Scopes, rt: Target, pos: nat)
    requires i < |es|
    ensures CheckAll(es, i, rc, top) == FirstError(Check(es[i], rc, top), CheckAll(es, i + 1, rc, top))
    ensures var c := Compile(es[i], sc, rt, pos);
            var rest := BodyRest(es, i + 1, c.sc, rt, pos + |c.code| + 1);
            BodyRest(es, i, sc, rt, pos) == if i + 1 == |es| then c else Piece(c.code + ([Pop] + rest.code), rest.sc)
    ensures i + 1 == |es| ==> CheckAll(es, i + 1, rc, top) == None
  {
    hide Compile, Check;
    var c := Compile(es[i], sc, rt, pos);
    if i + 1 < |es| {
      var rest := CompileBody(es, i + 1, c.sc, rt, pos + |c.code| + 1);
      assert c.code + [Pop] + rest.code == c.code + ([Pop] + rest.code);
    }
  }

  lemma EffectNext(es: seq<Form>, i: nat, rc: RecurCtx, top: bool, sc: Scopes, pos: nat)
    requires i < |es|
    ensures CheckAll(es, i, rc, top) == FirstError(Check(es[i], rc, top), CheckAll(es, i + 1, rc, top))
    ensures var c := Compile(es[i], sc, NoTarget, pos);
            var rest := CompileEffects(es, i + 1, c.sc, pos + |c.code| + 1);
            CompileEffects(es, i, sc, pos) == Piece(c.code + ([Pop] + rest.code), rest.sc)
  {
    hide Compile, Check;
    var c := Compile(es[i], sc, NoTarget, pos);
    var rest := CompileEffects(es, i + 1, c.sc, pos + |c.code| + 1);
    assert c.code + [Pop] + rest.code == c.code + ([Pop] + rest.code);
  }

  lemma ArgNext(es: seq<Form>, i: nat, rc: RecurCtx, top: bool, sc: Scopes, rt: Target, pos: nat)
    requires i < |es|
    ensures CheckAll(es, i, rc, top) == FirstError(Check(es[i], rc, top), CheckAll(es, i + 1, rc, top))
    ensures var c := Compile(es[i], sc, rt, pos);
            var rest := CompileArgs(es, i + 1, c.sc, rt, pos + |c.code|);
            CompileArgs(es, i, sc, rt, pos) == Piece(c.code + rest.code, rest.sc)
  {
    hide Compile, Check;
  }

  lemma TowardPut(w0: seq<Instr>, J: seq<Instr>, ats: seq<nat>, w1: seq<Instr>, w2: seq<Instr>, s: seq<FnScope>, i: Instr, rest: seq<Instr>)
    requires Toward(w0, J, ats, w1, [i] + rest) && Grown(w1, w2, s, s, Piece([i], Spec(s)))
    ensures Toward(w0, J, ats, w2, rest) && |w2| == |w1| + 1
  {
    hide Toward, Inside, Spec, SameFrames;
    TowardMore(w0, J, ats, w1, [i], rest);
  }

  /** A value's code and the store of the value came out. */
  lemma TowardStore(w0: seq<Instr>, J: seq<Instr>, w1: seq<Instr>, p: seq<Instr>, slot: nat, rest: seq<Instr>)
    requires Toward(w0, J, [], w1, p + ([StoreLocal(slot)] + rest))
    ensures Toward(w0, J, [], w1 + Inside(p + [StoreLocal(slot)]), rest)
  {
    hide Toward, Inside;
    assert p + ([StoreLocal(slot)] + rest) == (p + [StoreLocal(slot)]) + rest;
    TowardMore(w0, J, [], w1, p + [StoreLocal(slot)], rest);
  }

  /** The last of the code came out. */
  lemma TowardLast(w0: seq<Instr>, full: seq<Instr>, w1: seq<Instr>, w2: seq<Instr>, p: seq<Instr>)
    requires Toward(w0, Inside(full), [], w1, p) && w2 == w1 + Inside(p)
    ensures w2 == w0 + Inside(full)
  {
    hide Toward, Inside;
    assert p + [] == p;
    TowardMore(w0, Inside(full), [], w1, p, []);
    TowardEnd(w0, full, w2);
  }

  lemma TowardPatch(w0: seq<Instr>, J: seq<Instr>, ats: seq<nat>, now: seq<Instr>)
    requires Toward(w0, J, ats, now, [])
    ensures |now| == |w0| + |J| && Agrees(now[|w0|..], J, |w0|, ats, |now|) && now[..|w0|] == w0
    ensures forall x, y | 0 <= x < y < |ats| :: ats[x] < ats[y]
    ensures forall x | 0 <= x < |ats| :: |w0| <= ats[x] < |now|
  {
  }

  lemma CallSpec(e: Form, s: seq<FnScope>, pos: nat)
    requires e.Call?
    ensures Check(e, Ctx(s), |s| == 0) == FirstError(Check(e.head, Ctx(s), |s| == 0), CheckAll(e.args, 0, Ctx(s), |s| == 0))
    ensures var h := Compile(e.head, Spec(s), Recurs(s), pos);
            var a := CompileArgs(e.args, 0, h.sc, Recurs(s), pos + |h.code|);
            Compile(e, Spec(s), Recurs(s), pos) == Piece(h.code + a.code + [Invoke(|e.args|)], a.sc)
  {
    hide Spec, Ctx, Recurs, CompileArgs, CheckAll;
  }

  function ChainRest(es: seq<Form>, i: nat, conj: bool, sc: Scopes, rt: Target, pos: nat): Piece
    requires i <= |es|
  {
    if i == |es| then Piece([], sc) else CompileChain(es, i, conj, sc, rt, pos)
  }

  lemma AndOrSpec(e: Form, s: seq<FnScope>, pos: nat)
    requires e.And? || e.Or?
    ensures Check(e, Ctx(s), |s| == 0) == CheckAll(e.es, 0, Ctx(s), |s| == 0)
    ensures Compile(e, Spec(s), Recurs(s), pos) ==
              if |e.es| == 0 then Piece([if e.And? then PushTrue else PushNil], Spec(s))
              else CompileChain(e.es, 0, e.And?, Spec(s), Recurs(s), pos)
    ensures |e.es| == 0 ==> CheckAll(e.es, 0, Ctx(s), |s| == 0) == None
  {
    hide Spec, Ctx, Recurs, CompileChain;
  }

  lemma ChecksNext(es: seq<Form>, i: nat, rc: RecurCtx, top: bool)
    requires i < |es|
    ensures CheckAll(es, i, rc, top) == FirstError(Check(es[i], rc, top), CheckAll(es, i + 1, rc, top))
    ensures i + 1 == |es| ==> CheckAll(es, i + 1, rc, top) == None
  {
    hide Check;
  }

  lemma ChainNext(es: seq<Form>, i: nat, conj: bool, rc: RecurCtx, top: bool, sc: Scopes, rt: Target, pos: nat)
    requires i < |es|
    ensures CheckAll(es, i, rc, top) == FirstError(Check(es[i], rc, top), CheckAll(es, i + 1, rc, top))
    ensures i + 1 == |es| ==> CheckAll(es, i + 1, rc, top) == None
    ensures var c := Compile(es[i], sc, rt, pos);
            var rest := ChainRest(es, i + 1, conj, c.sc, rt, pos + |c.code| + 3);
            var over := |rest.code| + 1;
            ChainRest(es, i, conj, sc, rt, pos) ==
              if i + 1 == |es| then c
              else Piece(c.code + ([Dup] + ([if conj then JumpIfFalse(over) else JumpIfTrue(over)] + ([Pop] + rest.code))), rest.sc)
  {
    hide Compile, Check, CheckAll;
    ChecksNext(es, i, rc, top);
    var c := Compile(es[i], sc, rt, pos);
    if i + 1 < |es| {
      var rest := CompileChain(es, i + 1, conj, c.sc, rt, pos + |c.code| + 3);
      var over := |rest.code| + 1;
      var j := if conj then JumpIfFalse(over) else JumpIfTrue(over);
      Linked(c.code, Dup, j, Pop, rest.code);
    }
  }

  lemma Linked(a: seq<Instr>, i: Instr, j: Instr, k: Instr, b: seq<Instr>)
    ensures a + [i, j, k] + b == a + ([i] + ([j] + ([k] + b)))
  {
    assert [i, j, k] + b == [i] + ([j] + ([k] + b));
  }

  lemma RecurSpec(e: Form, s: seq<FnScope>, pos: nat)
    requires e.Recur?
    ensures |s| == 0 || |s[|s| - 1].recurStack| == 0 ==> Check(e, Ctx(s), |s| == 0) == Some(RecurOutsideLoop)
    ensures |s| > 0 && |s[|s| - 1].recurStack| > 0 ==>
              var top := s[|s| - 1];
              var t := top.recurStack[|top.recurStack| - 1];
              if t.tryDepth != top.tryDepth then Check(e, Ctx(s), |s| == 0) == Some(RecurAcrossTry)
              else if |e.args| != |t.slots| then Check(e, Ctx(s), |s| == 0) == Some(RecurArity)
              else
                var a := CompileArgs(e.args, 0, Spec(s), Recurs(s), pos);
                var at := pos + |a.code| + |e.args|;
                && Check(e, Ctx(s), |s| == 0) == CheckAll(e.args, 0, Ctx(s), |s| == 0)
                && Compile(e, Spec(s), Recurs(s), pos) ==
                     Piece(a.code + StoresDown(t.slots, |t.slots|) + [JumpBack(if t.bodyStart <= at then at + 1 - t.bodyStart else 0)], a.sc)
  {
    hide Spec, CompileArgs, CheckAll;
  }

  lemma {:induction false} StoresSize(slots: seq<nat>, n: nat)
    requires n <= |slots|
    ensures |StoresDown(slots, n)| == n && Inside(StoresDown(slots, n)) == StoresDown(slots, n)
  {
    if n > 0 { StoresSize(slots, n - 1); }
  }

  lemma RecurMade(w0: seq<Instr>, a: seq<Instr>, slots: seq<nat>, j: Instr, w: seq<Instr>)
    requires j.JumpBack? && w == w0 + Inside(a) + StoresDown(slots, |slots|) + [j]
    ensures w == w0 + Inside(a + StoresDown(slots, |slots|) + [j])
  {
    hide Inside;
    StoresSize(slots, |slots|);
    InsideOne(j);
    InsideJoin(a, StoresDown(slots, |slots|));
    InsideJoin(a + StoresDown(slots, |slots|), [j]);
  }

  /** `saved` is what binding `name` saved in scopes `before`. */
  predicate Shadowed(saved: (string, int), name: string, before: Scopes) {
    before.Inner? && saved.0 == name && saved.1 == if name in before.top.names then before.top.names[name] else -1
  }

  predicate AllShadowed(saved: seq<(string, int)>, bs: seq<Binding>, befores: seq<Scopes>) {
    |saved| == |befores| <= |bs| && forall k | 0 <= k < |saved| :: Shadowed(saved[k], bs[k].name, befores[k])
  }

  lemma ShadowedMore(saved: seq<(string, int)>, bs: seq<Binding>, befores: seq<Scopes>, p: (string, int), before: Scopes)
    requires AllShadowed(saved, bs, befores) && |saved| < |bs| && Shadowed(p, bs[|saved|].name, before)
    ensures AllShadowed(saved + [p], bs, befores + [before])
  {
    hide Shadowed;
  }

  /** The names of the first `k` bindings restored, the last first. */
  function Undo(bs: seq<Binding>, befores: seq<Scopes>, k: nat, sc: Scopes): Scopes
    requires k <= |befores| && k <= |bs|
    decreases k
  {
    if k == 0 then sc
    else Undo(bs, befores, k - 1, if sc.Inner? && befores[k - 1].Inner? then Restore(sc, bs[k - 1].name, befores[k - 1]) else sc)
  }

  lemma UndoNone(bs: seq<Binding>, sc: Scopes)
    ensures Undo(bs, [], 0, sc) == sc && AllShadowed([], bs, [])
  {
  }

  lemma UndoOne(bs: seq<Binding>, befores: seq<Scopes>, i: nat, sc: Scopes, before: Scopes)
    requires |befores| == i < |bs| && sc.Inner? && before.Inner?
    ensures Undo(bs, befores + [before], i + 1, sc) == Undo(bs, befores, i, Restore(sc, bs[i].name, before))
  {
    hide Restore;
    UndoPrefix(bs, befores, [before], i, Restore(sc, bs[i].name, before));
  }

  lemma {:induction false} UndoPrefix(bs: seq<Binding>, a: seq<Scopes>, b: seq<Scopes>, k: nat, sc: Scopes)
    requires k <= |a| && k <= |bs|
    ensures Undo(bs, a + b, k, sc) == Undo(bs, a, k, sc)
    decreases k
  {
    hide Restore;
    if k > 0 {
      UndoPrefix(bs, a, b, k - 1, if sc.Inner? && a[k - 1].Inner? then Restore(sc, bs[k - 1].name, a[k - 1]) else sc);
    }
  }

  lemma SpecInner(s: seq<FnScope>)
    ensures Spec(s).Inner? <==> |s| > 0
    ensures |s| > 0 ==> Spec(s).top.nextSlot == s[|s| - 1].nextSlot
  {
  }

  lemma LetSpec(e: Form, s: seq<FnScope>, pos: nat)
    requires e.Let? && |s| > 0
    ensures Spec(s).Inner?
    ensures Check(e, Ctx(s), false) == FirstError(CheckInits(e.bs, 0, Ctx(s)), CheckAll(e.body, 0, Ctx(s), false))
    ensures Compile(e, Spec(s), Recurs(s), pos) == CompileLet(e, 0, Spec(s), Recurs(s), pos)
  {
    hide Ctx, Recurs, CompileLet, CheckInits, CheckAll;
  }

  lemma LetNext(e: Form, i: nat, rc: RecurCtx, sc: Scopes, rt: Target, pos: nat)
    requires e.Let? && sc.Inner? && i < |e.bs|
    ensures CheckInits(e.bs, i, rc) == FirstError(Check(e.bs[i].init, rc, false), CheckInits(e.bs, i + 1, rc))
    ensures var c := Compile(e.bs[i].init, sc, rt, pos);
            && c.sc.Inner?
            && var rest := CompileLet(e, i + 1, Codegen.Bind(c.sc, e.bs[i].name), rt, pos + |c.code| + 1);
               && rest.sc.Inner?
               && CompileLet(e, i, sc, rt, pos) ==
                    Piece(c.code + ([StoreLocal(c.sc.top.nextSlot)] + rest.code), Restore(rest.sc, e.bs[i].name, c.sc))
  {
    hide Compile, Check, Restore;
    var c := Compile(e.bs[i].init, sc, rt, pos);
    var rest := CompileLet(e, i + 1, Codegen.Bind(c.sc, e.bs[i].name), rt, pos + |c.code| + 1);
    assert c.code + [StoreLocal(c.sc.top.nextSlot)] + rest.code == c.code + ([StoreLocal(c.sc.top.nextSlot)] + rest.code);
  }

  lemma LetBody(e: Form, rc: RecurCtx, sc: Scopes, rt: Target, pos: nat)
    requires e.Let? && sc.Inner?
    ensures CheckInits(e.bs, |e.bs|, rc) == None
    ensures CompileLet(e, |e.bs|, sc, rt, pos) == CompileBody(e.body, 0, sc, rt, pos)
  {
    hide CompileBody;
  }

  lemma LoopSpec(e: Form, s: seq<FnScope>, pos: nat)
    requires e.Loop? && |s| > 0
    ensures Spec(s).Inner?
    ensures Check(e, Ctx(s), false) ==
              FirstError(CheckInits(e.bs, 0, Ctx(s)), CheckAll(e.body, 0, InLoop(|e.bs|, false), false))
    ensures Compile(e, Spec(s), Recurs(s), pos) == CompileLoop(e, 0, [], Spec(s), Recurs(s), pos)
  {
    hide Ctx, Recurs, CompileLoop, CheckInits, CheckAll;
  }

  lemma LoopNext(e: Form, i: nat, slots: seq<nat>, rc: RecurCtx, sc: Scopes, rt: Target, pos: nat)
    requires e.Loop? && sc.Inner? && i < |e.bs|
    ensures CheckInits(e.bs, i, rc) == FirstError(Check(e.bs[i].init, rc, false), CheckInits(e.bs, i + 1, rc))
    ensures var c := Compile(e.bs[i].init, sc, rt, pos);
            && c.sc.Inner?
            && var slot := c.sc.top.nextSlot;
               var rest := CompileLoop(e, i + 1, slots + [slot], Codegen.Bind(c.sc, e.bs[i].name), rt, pos + |c.code| + 1);
               && rest.sc.Inner?
               && CompileLoop(e, i, slots, sc, rt, pos) ==
                    Piece(c.code + ([StoreLocal(slot)] + rest.code), Restore(rest.sc, e.bs[i].name, c.sc))
  {
    hide Compile, Check, Restore;
    var c := Compile(e.bs[i].init, sc, rt, pos);
    var slot := c.sc.top.nextSlot;
    var rest := CompileLoop(e, i + 1, slots + [slot], Codegen.Bind(c.sc, e.bs[i].name), rt, pos + |c.code| + 1);
    assert c.code + [StoreLocal(slot)] + rest.code == c.code + ([StoreLocal(slot)] + rest.code);
  }

  lemma LoopBody(e: Form, slots: seq<nat>, rc: RecurCtx, sc: Scopes, rt: Target, pos: nat)
    requires e.Loop? && sc.Inner? && |slots| == |e.bs|
    ensures CheckInits(e.bs, |e.bs|, rc) == None
    ensures CompileLoop(e, |e.bs|, slots, sc, rt, pos) == CompileBody(e.body, 0, sc, Target(pos, slots), pos)
  {
    hide CompileBody;
  }

  /** The innermost scope with a recur target more, and with one less. */
  function Targeted(s: seq<FnScope>, bodyStart: nat, slots: seq<nat>): seq<FnScope>
    requires |s| > 0
  {
    var top := s[|s| - 1];
    s[|s| - 1 := top.(recurStack := top.recurStack + [RecurTarget(bodyStart, slots, top.tryDepth)])]
  }

  function Untargeted(s: seq<FnScope>): seq<FnScope>
    requires |s| > 0 && |s[|s| - 1].recurStack| > 0
  {
    var top := s[|s| - 1];
    s[|s| - 1 := top.(recurStack := top.recurStack[..|top.recurStack| - 1])]
  }

  lemma TargetedContext(s: seq<FnScope>, bodyStart: nat, slots: seq<nat>)
    requires |s| > 0 && Nested(s)
    ensures var t := Targeted(s, bodyStart, slots);
            Nested(t) && Ctx(t) == InLoop(|slots|, false) && Recurs(t) == Target(bodyStart, slots) && Spec(t) == Spec(s) && |t| == |s|
  {
    var t := Targeted(s, bodyStart, slots);
    assert t[..|t| - 1] == s[..|s| - 1];
  }

  lemma UntargetedFrames(s: seq<FnScope>, bodyStart: nat, slots: seq<nat>, t: seq<FnScope>)
    requires |s| > 0 && SameFrames(Targeted(s, bodyStart, slots), t)
    ensures |t| == |s| && |t[|t| - 1].recurStack| > 0 && SameFrames(s, Untargeted(t)) && Spec(Untargeted(t)) == Spec(t)
  {
    var u := Untargeted(t);
    assert u[..|u| - 1] == t[..|t| - 1];
    var a := s[|s| - 1].recurStack;
    assert (a + [RecurTarget(bodyStart, slots, s[|s| - 1].tryDepth)])[..|a|] == a;
  }

  lemma EligibleInside(code: seq<Instr>, arity: nat, caps: seq<Capture>, i: nat)
    ensures Eligible(Inside(code), arity, caps, i) == Eligible(code, arity, caps, i)
  {
    var C := Inside(code);
    assert forall k: nat, s: nat :: Stores(C, k, s) <==> Stores(code, k, s);
    assert forall k | 0 <= k < |code| && !code[k].MakeFn? :: C[k] == code[k];
    if i < |code| && code[i].PushLocal? {
      var s := code[i].slot;
      SameBans(code, caps, s);
      assert forall a: int, b: int :: StoredIn(C, a, b, s) <==> StoredIn(code, a, b, s);
      assert forall j: nat | j < |code| :: LoopOver(C, j, i) == LoopOver(code, j, i);
    }
  }

  lemma SameBans(code: seq<Instr>, caps: seq<Capture>, s: nat)
    ensures Banned(Inside(code), caps, s) == Banned(code, caps, s)
  {
    var C := Inside(code);
    if StoreCaught(s) in code { var k :| 0 <= k < |code| && code[k] == StoreCaught(s); assert C[k] == StoreCaught(s); }
    if Rethrow(s) in code { var k :| 0 <= k < |code| && code[k] == Rethrow(s); assert C[k] == Rethrow(s); }
    if StoreCaught(s) in C { var k :| 0 <= k < |C| && C[k] == StoreCaught(s); assert code[k] == StoreCaught(s); }
    if Rethrow(s) in C { var k :| 0 <= k < |C| && C[k] == Rethrow(s); assert code[k] == Rethrow(s); }
  }

  /** Clearing a body whose inner bodies are cleared clears all of it. */
  lemma ClearedFn(code: seq<Instr>, arity: nat, localCount: nat, caps: seq<Capture>)
    ensures Module(Cleared(Inside(code) + [Return], arity, caps), arity, localCount, caps) ==
              ClearedModule(Module(code + [Return], arity, localCount, caps))
  {
    var m := Module(code + [Return], arity, localCount, caps);
    InsideJoin(code, [Return]);
    InsideOne(Return);
    assert Inside(m.code) == Inside(code) + [Return];
    forall i: nat | i < |m.code| ensures Cleared(Inside(m.code), arity, caps)[i] == ClearedModule(m).code[i] {
      EligibleInside(m.code, arity, caps, i);
      EligibleReads(m.code, arity, caps, i);
      hide Eligible;
    }
  }

  lemma FnSpec(e: Form, s: seq<FnScope>, pos: nat)
    requires e.Fn?
    ensures Check(e, Ctx(s), |s| == 0) == CheckAll(e.body, 0, InLoop(|e.params|, false), false)
    ensures var p := CompileBody(e.body, 0, Inner(ParamScope(e.params), Spec(s)), Target(0, Upto(|e.params|)), 0);
            p.sc.Inner? &&
            Compile(e, Spec(s), Recurs(s), pos) ==
              Piece(ReadCaptures(p.sc.top.captures) + [MakeFn(FnModule(p, |e.params|))], p.sc.outer)
  {
    hide Spec, Ctx, Recurs, CompileBody, CheckAll, ReadCaptures;
  }

  lemma ThunkSpec(e: Form, s: seq<FnScope>, pos: nat)
    requires (e.Let? || e.Loop? || e.Try?) && |s| == 0
    ensures Check(e, Ctx(s), true) == Check(e, InLoop(0, false), false)
    ensures Upto(0) == []
    ensures var p := Compile(e, Inner(ParamScope([]), Spec(s)), Target(0, []), 0);
            p.sc.Inner? && p.sc.outer == Spec(s) &&
            Compile(e, Spec(s), Recurs(s), pos) == Piece([MakeFn(FnModule(p, 0)), Invoke(0)], Spec(s))
  {
    hide Ctx, CompileLet, CompileLoop, CompileCatches, CompileEffects;
    var p := Compile(e, Inner(ParamScope([]), Spec(s)), Target(0, []), 0);
    assert Depth(p.sc) == 1 && Depth(p.sc.outer) == 0;
  }

  /** The scopes around a fn, before, inside and after its body. */
  lemma Enclosed(s0: seq<FnScope>, s1: seq<FnScope>, s2: seq<FnScope>)
    requires |s1| == |s0| + 1 && s1[..|s0|] == s0 && SameFrames(s1, s2) && s1[|s0|].nextSlot >= s1[|s0|].arity
    ensures |s2| == |s1| && s2[|s0|].arity == s1[|s0|].arity && s2[|s0|].nextSlot >= s2[|s0|].arity
    ensures SameFrames(s0, s2[..|s0|])
  {
  }

  lemma FnClosed(p: Piece, s: seq<FnScope>, n: nat)
    requires |s| > 0 && Spec(s) == p.sc && s[|s| - 1].arity == n && s[|s| - 1].nextSlot >= n
    ensures p.sc.Inner? && p.sc.top.captures == s[|s| - 1].captures && p.sc.outer == Spec(s[..|s| - 1])
    ensures FnModule(p, n) == Module(p.code + [Return], n, s[|s| - 1].nextSlot - s[|s| - 1].arity, s[|s| - 1].captures)
  {
    SpecTop(s);
    hide Spec;
  }

  lemma Meant(k: nat, consts: seq<PoolConst>, blocks: seq<Block>, b: Block, m: Module)
    requires k < |blocks| && blocks[k] == b && Holds(b, m)
    ensures Means(MAKE_FN, k, consts, blocks, MakeFn(m))
  {
    hide Holds;
  }

  lemma FnMade(w0: seq<Instr>, m: Module, w: seq<Instr>)
    requires w == w0 + ReadCaptures(m.captures) + [MakeFn(ClearedModule(m))]
    ensures w == w0 + Inside(ReadCaptures(m.captures) + [MakeFn(m)])
  {
    hide ClearedModule;
    InsideJoin(ReadCaptures(m.captures), [MakeFn(m)]);
    assert Inside([MakeFn(m)]) == [MakeFn(ClearedModule(m))];
    assert Inside(ReadCaptures(m.captures)) == ReadCaptures(m.captures);
  }

  lemma ThunkMade(w0: seq<Instr>, m: Module, w: seq<Instr>)
    requires w == w0 + [MakeFn(ClearedModule(m))] + [Invoke(0)]
    ensures w == w0 + Inside([MakeFn(m), Invoke(0)])
  {
    hide ClearedModule;
    assert Inside([MakeFn(m), Invoke(0)]) == [MakeFn(ClearedModule(m)), Invoke(0)];
  }

  /** The innermost scope one `try` deeper, and back. */
  function Deeper(s: seq<FnScope>): seq<FnScope>
    requires |s| > 0
  {
    s[|s| - 1 := s[|s| - 1].(tryDepth := s[|s| - 1].tryDepth + 1)]
  }

  function Shallower(s: seq<FnScope>): seq<FnScope>
    requires |s| > 0
  {
    s[|s| - 1 := s[|s| - 1].(tryDepth := if s[|s| - 1].tryDepth > 0 then s[|s| - 1].tryDepth - 1 else 0)]
  }

  lemma DeeperContext(s: seq<FnScope>)
    requires |s| > 0 && Nested(s)
    ensures var t := Deeper(s);
            |t| == |s| && Nested(t) && Ctx(t) == IntoTry(Ctx(s)) && Recurs(t).NoTarget? && Spec(t) == Spec(s) && Spec(t).Inner?
  {
    assert Deeper(s)[..|s| - 1] == s[..|s| - 1];
  }

  lemma GrownTried(w0: seq<Instr>, w1: seq<Instr>, s: seq<FnScope>, t: seq<FnScope>, p: Piece)
    requires |s| > 0 && Grown(w0, w1, Deeper(s), t, p)
    ensures |t| == |s| && Grown(w0, w1, s, Shallower(t), p)
  {
    hide Inside;
    assert Shallower(t)[..|t| - 1] == t[..|t| - 1];
  }

  lemma TrySpec(e: Form, s: seq<FnScope>, pos: nat)
    requires e.Try? && |s| > 0
    ensures Spec(s).Inner?
    ensures var rc := IntoTry(Ctx(s));
            var first := FirstError(CheckAll(e.body, 0, rc, false), CheckClauses(e.catches, 0, rc));
            Check(e, Ctx(s), false) == if e.fin.NoFinally? then first else FirstError(first, CheckAll(e.fin.forms, 0, rc, false))
    ensures Compile(e, Spec(s), Recurs(s), pos) == Compile(e, Spec(s), NoTarget, pos)
    ensures e.fin.NoFinally? ==> Compile(e, Spec(s), NoTarget, pos) == CompileCatches(e, Spec(s), pos)
  {
    hide Ctx, Recurs, CompileCatches, CompileEffects, CheckAll, CheckClauses;
  }

  lemma NoClausesSpec(e: Form, rc: RecurCtx, sc: Scopes, pos: nat)
    requires e.Try? && sc.Inner?
    ensures |e.catches| == 0 ==> CheckClauses(e.catches, 0, rc) == None && CompileCatches(e, sc, pos) == CompileBody(e.body, 0, sc, NoTarget, pos)
  {
    hide CompileBody;
  }

  lemma CatchingSpec(e: Form, sc: Scopes, pos: nat)
    requires e.Try? && sc.Inner? && |e.catches| > 0
    ensures var b := CompileBody(e.body, 0, sc, NoTarget, pos + 1);
            && b.sc.Inner?
            && var slot := b.sc.top.nextSlot;
               var c := CompileClauses(e.catches, 0, slot, Reserve(b.sc), pos + 1 + |b.code| + 3);
               CompileCatches(e, sc, pos) ==
                 Piece([TryBegin(|b.code| + 2)] + b.code + [TryEnd] +
                       ([Jump(|c.code| + 2)] + ([StoreCaught(slot)] + (c.code + [Rethrow(slot)]))), c.sc)
  {
    hide CompileBody, CompileClauses;
    var b := CompileBody(e.body, 0, sc, NoTarget, pos + 1);
    var slot := b.sc.top.nextSlot;
    var c := CompileClauses(e.catches, 0, slot, Reserve(b.sc), pos + 1 + |b.code| + 3);
    assert [TryBegin(|b.code| + 2)] + b.code + [TryEnd, Jump(|c.code| + 2)] + [StoreCaught(slot)] + c.code + [Rethrow(slot)] ==
      [TryBegin(|b.code| + 2)] + b.code + [TryEnd] + ([Jump(|c.code| + 2)] + ([StoreCaught(slot)] + (c.code + [Rethrow(slot)])));
  }

  /** A guarded body out, its jump pending, the handler to come. */
  lemma CatchToward(w0: seq<Instr>, g: seq<Instr>, n: nat, c: seq<Instr>, slot: nat, full: seq<Instr>)
    requires |g| == n + 2 && full == g + ([Jump(|c| + 2)] + ([StoreCaught(slot)] + (c + [Rethrow(slot)])))
    ensures Toward(w0, Inside(full), [|w0| + n + 2], w0 + Inside(g) + [Jump(0)], [StoreCaught(slot)] + (c + [Rethrow(slot)]))
  {
    hide Inside, Toward;
    var rest := [StoreCaught(slot)] + (c + [Rethrow(slot)]);
    TowardStart(w0, full);
    TowardMore(w0, Inside(full), [], w0, g, [Jump(|c| + 2)] + rest);
    TowardJump(w0, Inside(full), [], w0 + Inside(g), Jump(0), rest);
    assert [] + [|w0 + Inside(g)|] == [|w0| + n + 2];
  }

  lemma NothingMore(a: seq<Instr>)
    ensures a == a + []
  {
  }

  lemma GuardMade(w0: seq<Instr>, b: seq<Instr>, w: seq<Instr>)
    requires w == w0 + [TryBegin(0)] + Inside(b) + [TryEnd] + [Jump(0)]
    ensures |w| == |w0| + |b| + 3 && w[|w0|] == TryBegin(0)
    ensures w[|w0| := TryBegin(|b| + 2)] == w0 + Inside([TryBegin(|b| + 2)] + b + [TryEnd]) + [Jump(0)]
  {
    hide Inside;
    InsideOne(TryBegin(|b| + 2));
    InsideOne(TryEnd);
    InsideJoin([TryBegin(|b| + 2)], b);
    InsideJoin([TryBegin(|b| + 2)] + b, [TryEnd]);
  }

  lemma ClauseNext(cs: seq<Clause>, i: nat, slot: nat, rc: RecurCtx, sc: Scopes, pos: nat, more: seq<Instr>)
    requires sc.Inner? && i < |cs|
    ensures CheckClauses(cs, i, rc) == FirstError(CheckAll(cs[i].body, 0, rc, false), CheckClauses(cs, i + 1, rc))
    ensures var b := CompileBody(cs[i].body, 0, Alias(sc, cs[i].name, slot), NoTarget, pos + 3);
            && b.sc.Inner?
            && var rest := CompileClauses(cs, i + 1, slot, Restore(b.sc, cs[i].name, sc), pos + 3 + |b.code| + 1);
               && CompileClauses(cs, i, slot, sc, pos).sc == rest.sc
               && CompileClauses(cs, i, slot, sc, pos).code + more ==
                    [PushLocal(slot), ExcMatch(cs[i].classId), JumpIfFalse(|b.code| + 1)] + b.code +
                    ([Jump(|rest.code| + 1)] + (rest.code + more))
  {
    hide CompileBody, CheckAll;
    var b := CompileBody(cs[i].body, 0, Alias(sc, cs[i].name, slot), NoTarget, pos + 3);
    var rest := CompileClauses(cs, i + 1, slot, Restore(b.sc, cs[i].name, sc), pos + 3 + |b.code| + 1);
    var g := [PushLocal(slot), ExcMatch(cs[i].classId), JumpIfFalse(|b.code| + 1)] + b.code;
    ClauseUnfolds(cs, i, slot, sc, pos);
    hide CompileClauses, Alias, Restore;
    Regrouped(g, [Jump(|rest.code| + 1)], rest.code, more);
  }

  lemma ClauseUnfolds(cs: seq<Clause>, i: nat, slot: nat, sc: Scopes, pos: nat)
    requires sc.Inner? && i < |cs|
    ensures var b := CompileBody(cs[i].body, 0, Alias(sc, cs[i].name, slot), NoTarget, pos + 3);
            && b.sc.Inner?
            && var rest := CompileClauses(cs, i + 1, slot, Restore(b.sc, cs[i].name, sc), pos + 3 + |b.code| + 1);
               CompileClauses(cs, i, slot, sc, pos) ==
                 Piece([PushLocal(slot), ExcMatch(cs[i].classId), JumpIfFalse(|b.code| + 1)] + b.code + [Jump(|rest.code| + 1)] + rest.code, rest.sc)
  {
    hide CompileBody, Restore;
  }

  lemma Regrouped(a: seq<Instr>, b: seq<Instr>, c: seq<Instr>, d: seq<Instr>)
    ensures a + b + c + d == a + (b + (c + d))
  {
  }

  lemma LastClause(cs: seq<Clause>, slot: nat, rc: RecurCtx, sc: Scopes, pos: nat)
    requires sc.Inner?
    ensures CheckClauses(cs, |cs|, rc) == None && CompileClauses(cs, |cs|, slot, sc, pos) == Piece([], sc)
  {
  }

  lemma ClauseMade(w0: seq<Instr>, slot: nat, classId: nat, b: seq<Instr>, w: seq<Instr>)
    requires w == w0 + [PushLocal(slot), ExcMatch(classId), JumpIfFalse(0)] + Inside(b) + [Jump(0)]
    ensures |w| == |w0| + |b| + 4 && w[|w0| + 2] == JumpIfFalse(0)
    ensures w[|w0| + 2 := JumpIfFalse(|b| + 1)] ==
              w0 + Inside([PushLocal(slot), ExcMatch(classId), JumpIfFalse(|b| + 1)] + b) + [Jump(0)]
  {
    var g := [PushLocal(slot), ExcMatch(classId), JumpIfFalse(|b| + 1)];
    assert Inside(g) == g;
    InsideJoin(g, b);
    hide Inside;
  }

  lemma FinalSpec(e: Form, sc: Scopes, pos: nat)
    requires e.Try? && e.fin.Finally? && sc.Inner?
    ensures var t := CompileCatches(e, sc, pos + 1);
            var n := CompileEffects(e.fin.forms, 0, t.sc, pos + 1 + |t.code| + 1);
            && n.sc.Inner?
            && var slot := n.sc.top.nextSlot;
               var x := CompileEffects(e.fin.forms, 0, Reserve(n.sc), pos + 1 + |t.code| + 1 + |n.code| + 2);
               Compile(e, sc, NoTarget, pos) ==
                 Piece([TryBegin(|t.code| + 1 + |n.code| + 1)] + t.code + [TryEnd] + n.code + [Jump(|x.code| + 2)] +
                       [StoreCaught(slot)] + x.code + [Rethrow(slot)], x.sc)
  {
    hide CompileCatches, CompileEffects;
  }

  lemma PatchGuard(w0: seq<Instr>, t: seq<Instr>, n: seq<Instr>, w: seq<Instr>)
    requires w == w0 + [TryBegin(0)] + t + [TryEnd] + n + [Jump(0)]
    ensures |w| == |w0| + |t| + |n| + 3 && w[|w0|] == TryBegin(0)
    ensures w[|w0| := TryBegin(|t| + 1 + |n| + 1)] == w0 + [TryBegin(|t| + 1 + |n| + 1)] + t + [TryEnd] + n + [Jump(0)]
  {
  }

  lemma FinallyMade(w0: seq<Instr>, t: seq<Instr>, n: seq<Instr>, x: seq<Instr>, slot: nat, w: seq<Instr>)
    requires w == w0 + [TryBegin(|t| + 1 + |n| + 1)] + Inside(t) + [TryEnd] + Inside(n) + [Jump(0)] + [StoreCaught(slot)] + Inside(x) + [Rethrow(slot)]
    ensures var at := |w0| + 1 + |t| + 1 + |n|;
            && |w| == at + |x| + 3 && w[at] == Jump(0)
            && w[at := Jump(|x| + 2)] ==
                 w0 + Inside([TryBegin(|t| + 1 + |n| + 1)] + t + [TryEnd] + n + [Jump(|x| + 2)] + [StoreCaught(slot)] + x + [Rethrow(slot)])
  {
    hide Inside;
    var g := [TryBegin(|t| + 1 + |n| + 1)];
    var at := |w0| + 1 + |t| + 1 + |n|;
    assert w[at] == Jump(0);
    InsideFour(g[0], t, TryEnd, n);
    InsideFour2(g + t + [TryEnd] + n, Jump(|x| + 2), StoreCaught(slot), x, Rethrow(slot));
  }

  lemma InsideFour(i: Instr, t: seq<Instr>, j: Instr, n: seq<Instr>)
    requires !i.MakeFn? && !j.MakeFn?
    ensures Inside([i] + t + [j] + n) == [i] + Inside(t) + [j] + Inside(n)
  {
    hide Inside;
    InsideOne(i);
    InsideOne(j);
    InsideJoin([i], t);
    InsideJoin([i] + t, [j]);
    InsideJoin([i] + t + [j], n);
  }

  lemma InsideFour2(a: seq<Instr>, i: Instr, j: Instr, x: seq<Instr>, k: Instr)
    requires !i.MakeFn? && !j.MakeFn? && !k.MakeFn?
    ensures Inside(a + [i] + [j] + x + [k]) == Inside(a) + [i] + [j] + Inside(x) + [k]
  {
    hide Inside;
    InsideOne(i);
    InsideOne(j);
    InsideOne(k);
    InsideJoin(a, [i]);
    InsideJoin(a + [i], [j]);
    InsideJoin(a + [i] + [j], x);
    InsideJoin(a + [i] + [j] + x, [k]);
  }
}
