/** Where the source's properties stop: inputs outside the conditions the main
    results state, and what the program does with them. */
module Counterexamples {
  import opened Options
  import opened Syntax
  import opened Bytecode
  import opened Values
  import opened Codegen
  import opened Vm
  import opened StackDepth
  import opened StackBound
  import DepthLimit

  /** `(loop [x true] (f (recur x)))`, where `f` is a global. */
  const RecurAsArgument: Form :=
    Loop([Binding("x", Lit(CTrue))], [Call(Global("f"), [Recur([Sym("x")])])])

  /** The code of its body as a fn of no parameters. */
  function RecurCode(): seq<Instr> {
    [PushTrue, StoreLocal(0), PushVar("f"), PushLocal(0), StoreLocal(0), JumpBack(4), Invoke(1), Return]
  }

  /** What `(recur x)` compiles to where it is an argument of `f`. */
  lemma ArgumentCompiles(x: string, f: string, sc: Scopes, slot: nat, at: nat)
    requires sc.Inner? && x in sc.top.names && sc.top.names[x] == slot
    ensures Compile(Call(Global(f), [Recur([Sym(x)])]), sc, Target(at, [slot]), at) ==
            Piece([PushVar(f), PushLocal(slot), StoreLocal(slot), JumpBack(4), Invoke(1)], sc)
  {
    var r, t := Recur([Sym(x)]), Target(at, [slot]);
    assert CompileArgs([Sym(x)], 1, sc, t, at + 2) == Piece([], sc);
    assert Compile(Sym(x), sc, t, at + 1) == Piece([PushLocal(slot)], sc);
    assert CompileArgs([Sym(x)], 0, sc, t, at + 1) == Piece([PushLocal(slot)] + [], sc);
    StoreOne(slot);
    var rc := [PushLocal(slot), StoreLocal(slot), JumpBack(4)];
    assert Compile(r, sc, t, at + 1).code == rc && Compile(r, sc, t, at + 1).sc == sc;
    assert CompileArgs([r], 1, sc, t, at + 1 + |rc|) == Piece([], sc);
    assert CompileArgs([r], 0, sc, t, at + 1) == Piece(rc + [], sc);
    assert Compile(Global(f), sc, t, at) == Piece([PushVar(f)], sc);
  }

  lemma StoreOne(slot: nat)
    ensures StoresDown([slot], 1) == [StoreLocal(slot)]
  {
    assert StoresDown([slot], 0) == [];
  }

  lemma BodyOfOne(e: Form, sc: Scopes, rt: Target, pos: nat)
    ensures CompileBody([e], 0, sc, rt, pos) == Compile(e, sc, rt, pos)
  {
    hide Compile;
  }

  /** A loop of one binding whose body is one form. */
  lemma LoopOfOne(x: string, e: Form, sc: Scopes, rt: Target)
    requires sc.Inner?
    ensures var slot, inner := sc.top.nextSlot, Compile(e, Bind(sc, x), Target(2, [sc.top.nextSlot]), 2);
            Compile(Loop([Binding(x, Lit(CTrue))], [e]), sc, rt, 0) ==
            Piece([PushTrue, StoreLocal(slot)] + inner.code, Restore(inner.sc, x, sc))
  {
    var l := Loop([Binding(x, Lit(CTrue))], [e]);
    var slot := sc.top.nextSlot;
    BodyOfOne(e, Bind(sc, x), Target(2, [slot]), 2);
    assert Compile(Lit(CTrue), sc, rt, 0) == Piece([PushTrue], sc);
    assert [] + [slot] == [slot];
    assert CompileLoop(l, 1, [slot], Bind(sc, x), rt, 2) == CompileBody([e], 0, Bind(sc, x), Target(2, [slot]), 2);
    assert Compile(l, sc, rt, 0) == CompileLoop(l, 0, [], sc, rt, 0);
  }

  /** At the top level the loop is the body of a fn called at once. */
  lemma ThunkOf(e: Form)
    requires e.Loop?
    ensures Compile(e, NoScope, NoTarget, 0).code ==
            [MakeFn(FnModule(Compile(e, Inner(ParamScope([]), NoScope), Target(0, []), 0), 0)), Invoke(0)]
  {
    assert Compile(e, NoScope, NoTarget, 0) == CompileThunk(e, NoScope);
  }

  lemma CodeOf(x: string, f: string, sc: Scopes)
    requires sc.Inner? && sc.top == ParamScope([])
    ensures var r := Compile(Loop([Binding(x, Lit(CTrue))], [Call(Global(f), [Recur([Sym(x)])])]), sc, Target(0, []), 0);
            && r.code == [PushTrue, StoreLocal(0), PushVar(f), PushLocal(0), StoreLocal(0), JumpBack(4), Invoke(1)]
            && r.sc.Inner? && r.sc.top.nextSlot == 1 && r.sc.top.captures == []
  {
    hide Compile;
    assert sc.top.nextSlot == 0 && sc.top.captures == [];
    ArgumentCompiles(x, f, Bind(sc, x), 0, 2);
    LoopOfOne(x, Call(Global(f), [Recur([Sym(x)])]), sc, Target(0, []));
  }

  /** The compiler takes it: its checks do not look at what is pending. */
  lemma RecurArgumentCompiles()
    ensures Check(RecurAsArgument, NoLoop, true) == None
    ensures Compile(RecurAsArgument, NoScope, NoTarget, 0).code ==
            [MakeFn(Module(RecurCode(), 0, 1, [])), Invoke(0)]
  {
    hide Compile, Check;
    var sc := Inner(ParamScope([]), NoScope);
    ThunkOf(RecurAsArgument);
    CodeOf("x", "f", sc);
    var r := Compile(RecurAsArgument, sc, Target(0, []), 0);
    assert r.code + [Return] == RecurCode();
    assert FnModule(r, 0) == Module(RecurCode(), 0, 1, []);
    CheckAccepts();
  }

  lemma CheckAccepts()
    ensures Check(RecurAsArgument, NoLoop, true) == None
  {
    var e := RecurAsArgument;
    var r := Recur([Sym("x")]);
    var rc := InLoop(1, false);
    assert CheckAll([Sym("x")], 0, rc, false) == CheckAll([Sym("x")], 1, rc, false) == None;
    assert Check(r, rc, false) == None;
    assert CheckAll([r], 0, rc, false) == CheckAll([r], 1, rc, false) == None;
    assert Check(e.body[0], rc, false) == None;
    assert CheckAll(e.body, 0, rc, false) == CheckAll(e.body, 1, rc, false) == None;
    assert CheckInits(e.bs, 0, InLoop(0, false)) == CheckInits(e.bs, 1, InLoop(0, false)) == None;
    assert Check(e, InLoop(0, false), false) == None;
  }

  lemma OneRound(P: Prims, f: Frame, k: Callers, g: Globals) returns (f1: Frame)
    requires "f" in g && f.m.code == RecurCode() && f.ip == 2 && |f.locals| == 1
    ensures Steps(P, Run(f, k, g), 4) == Run(f1, k, g)
    ensures f1.m == f.m && f1.ip == 2 && |f1.locals| == 1 && |f1.stack| == |f.stack| + 1
  {
    var c0 := Run(f, k, g);
    var c1, c2 := Step(P, c0), Steps(P, c0, 2);
    assert c1 == Run(Push(f, g["f"]), k, g);
    assert Step(P, c1) == Run(Push(c1.f, f.locals[0]), k, g);
    assert c2 == Steps(P, c1, 1) == Steps(P, Step(P, c1), 0);
    f1 := BackAtHead(P, c2.f, k, g);
    StepsAdd(P, c0, 2, 2);
  }

  lemma BackAtHead(P: Prims, f: Frame, k: Callers, g: Globals) returns (f1: Frame)
    requires f.m.code == RecurCode() && f.ip == 4 && |f.locals| == 1 && |f.stack| > 0
    ensures Steps(P, Run(f, k, g), 2) == Run(f1, k, g)
    ensures f1.m == f.m && f1.ip == 2 && |f1.locals| == 1 && |f1.stack| == |f.stack| - 1
  {
    var f2 := Drop(Next(f), 1).(locals := f.locals[0 := TopOf(f)]);
    f1 := f2.(ip := 2);
    assert Step(P, Run(f, k, g)) == Run(f2, k, g);
    assert Step(P, Run(f2, k, g)) == Run(f1, k, g);
    assert Steps(P, Run(f, k, g), 2) == Steps(P, Run(f2, k, g), 1) == Steps(P, Run(f1, k, g), 0);
  }

  /** At the loop's head once more, the stack one value deeper each time. */
  lemma {:induction false} RecurInArgumentGrowsStack(P: Prims, f: Frame, k: Callers, g: Globals, rounds: nat)
    requires "f" in g && f.m.code == RecurCode() && f.ip == 2 && |f.locals| == 1
    ensures exists n: nat :: var c := Steps(P, Run(f, k, g), n);
              c.Run? && c.f.m == f.m && c.f.ip == 2 && |c.f.stack| == |f.stack| + rounds && c.k == k && c.g == g
    decreases rounds
  {
    if rounds == 0 {
      assert Steps(P, Run(f, k, g), 0) == Run(f, k, g);
    } else {
      var f1 := OneRound(P, f, k, g);
      RecurInArgumentGrowsStack(P, f1, k, g, rounds - 1);
      hide Step;
      var n: nat :| var c := Steps(P, Run(f1, k, g), n);
        c.Run? && c.f.m == f.m && c.f.ip == 2 && |c.f.stack| == |f1.stack| + (rounds - 1) && c.k == k && c.g == g;
      StepsAdd(P, Run(f, k, g), 4, n);
      assert Steps(P, Run(f, k, g), 4 + n) == Steps(P, Run(f1, k, g), n);
    }
  }

  lemma Onward(D: seq<int>, i: nat)
    requires Consistent(RecurCode(), D) && i < 6 && D[i] >= 0
    ensures var e := Edges(RecurCode(), i, D[i])[0]; e.to < 8 && (e.depth >= 0 ==> D[e.to] >= e.depth)
  {
    assert Kept(RecurCode(), D, i);
    assert Covered(D, Edges(RecurCode(), i, D[i])[0]);
  }

  /** Once round the loop is one deeper. */
  lemma Round(D: seq<int>)
    requires Consistent(RecurCode(), D)
    ensures D[5] >= D[2] + 1 && D[2] >= 0
  {
    assert |D| == 8 && D[0] >= 0;
    Onward(D, 0);
    Onward(D, 1);
    Onward(D, 2);
    Onward(D, 3);
    Onward(D, 4);
  }

  /** No depths are consistent with that code, so its analysis has no end. */
  lemma NoBoundForRecurInArgument(D: seq<int>)
    ensures !Consistent(RecurCode(), D)
  {
    if Consistent(RecurCode(), D) {
      Round(D);
      Onward(D, 5);
    }
  }

  /** So the compiler takes a form that the condition shuts out, as it must. */
  lemma RecurArgumentNotLevel()
    ensures Check(RecurAsArgument, NoLoop, true) == None && !Level(AtTop(RecurAsArgument), false, true, true)
  {
    hide Check, Level, Compile;
    RecurArgumentCompiles();
    var m := TopModule(RecurAsArgument);
    assert m.code[0] == MakeFn(Module(RecurCode(), 0, 1, []));
    if DepthLimit.Bounded(m) {
      assert DepthLimit.Bounded(m.code[0].body);
      var D :| Consistent(RecurCode(), D);
      NoBoundForRecurInArgument(D);
    }
    DepthLimit.DepthsExist(RecurAsArgument);
  }

  /** `(loop [x true] (if x (recur false)) x)`. */
  const RecurInTest: Form :=
    Loop([Binding("x", Lit(CTrue))], [If(Sym("x"), Recur([Lit(CFalse)]), None), Sym("x")])

  lemma TestLevel()
    ensures Level(RecurInTest.body[0], true, true, false)
  {
    var r := Recur([Lit(CFalse)]);
    assert LevelAll(r.args, 1, false, false, true, false);
    assert LevelAll(r.args, 0, true, false, true, false);
    assert Level(r, true, true, false);
  }

  lemma LoopLevel()
    ensures Level(RecurInTest, true, true, false)
  {
    TestLevel();
    var e := RecurInTest;
    assert LevelAll(e.body, 2, true, true, Leaves(e.body[0], false) && Leaves(e.body[1], false), false);
    assert LevelAll(e.body, 1, true, true, Leaves(e.body[0], false), false);
    assert LevelAll(e.body, 0, true, true, true, false);
    assert LevelInits(e.bs, 1, true, true);
    assert LevelInits(e.bs, 0, true, true) && LeavesInits(e.bs, 1) && LeavesInits(e.bs, 0);
  }

  /** A recur need not be in tail position. */
  lemma RecurBeforeTheEnd()
    ensures Level(AtTop(RecurInTest), false, true, true)
  {
    LoopLevel();
    var e := RecurInTest;
    assert LevelAll([e], 1, true, true, Leaves(e, false), false);
    assert LevelAll([e], 0, true, true, true, false);
    assert Level(Fn([], [e]), false, true, true);
    assert LevelAll([], 0, false, false, true, true);
  }

  function PastEnd(): Module { Module([TryBegin(9), Rethrow(0)], 1, 0, []) }

  /** A handler past the end of a body: no instruction needs any room, so the
      bound is 0, yet every run pushes the exception. */
  lemma HandlerPastEnd(P: Prims, w: VmValue, k: Callers, g: Globals)
    ensures Consistent(PastEnd().code, [0, 0]) && Deepest(PastEnd().code, [0, 0], 0) && !HandlersInRange(PastEnd().code)
    ensures var c := Steps(P, Run(NewFrame(PastEnd(), [w], []), k, g), 3);
            c.Run? && c.f.m == PastEnd() && |c.f.stack| == 1
  {
    NoRoomNeeded();
    var f0 := NewFrame(PastEnd(), [w], []);
    var f1 := Next(f0).(handlers := f0.handlers + [Handler(10, 0)]);
    var x := Managed(w, 0);
    hide Consistent, Deepest, HandlersInRange;
    FirstStep(P, f0, k, g);
    SecondStep(P, f1, w, k, g);
    Three(P, Run(f0, k, g));
    hide Exec;
    assert Step(P, Unwind(x, Caller(f1, k), g)) == TakeHandler(P, x, f1, k, g);
  }

  lemma NoRoomNeeded()
    ensures Consistent(PastEnd().code, [0, 0]) && Deepest(PastEnd().code, [0, 0], 0) && !HandlersInRange(PastEnd().code)
  {
    var m := PastEnd();
    assert Edges(m.code, 0, 0) == [Edge(10, 1), Edge(1, 0)] && Edges(m.code, 1, 0) == [];
    assert Kept(m.code, [0, 0], 0) && Kept(m.code, [0, 0], 1);
    assert m.code[0] == TryBegin(9);
  }

  lemma FirstStep(P: Prims, f: Frame, k: Callers, g: Globals)
    requires f.m == PastEnd() && f.ip == 0 && f.stack == []
    ensures Step(P, Run(f, k, g)) == Run(Next(f).(handlers := f.handlers + [Handler(10, 0)]), k, g)
  {
  }

  lemma SecondStep(P: Prims, f: Frame, w: VmValue, k: Callers, g: Globals)
    requires f.m == PastEnd() && f.ip == 1 && f.caught == map[] && f.locals == [w]
    ensures Step(P, Run(f, k, g)) == Unwind(Managed(w, 0), Caller(f, k), g)
  {
  }

  lemma Three(P: Prims, c: Config)
    ensures Steps(P, c, 3) == Step(P, Step(P, Step(P, c)))
  {
    hide Step;
    assert Steps(P, Step(P, c), 2) == Steps(P, Step(P, Step(P, c)), 1);
  }
}
