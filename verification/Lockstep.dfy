/** Clearing locals changes no run: the VM on cleared code does, step for step,
    what it does on the code as compiled. */
module Lockstep {
  import opened Options
  import opened Syntax
  import opened Bytecode
  import opened Values
  import opened Vm
  import opened Codegen
  import opened Layout
  import opened LastReads
  import opened LayoutProof
  import opened Clearing

  /** `v` is `w` with the bodies of its functions cleared. */
  ghost predicate Twin(w: VmValue, v: VmValue)
    decreases w
  {
    match w
    case VFn(m, caps) =>
      && v.VFn? && Made(m) && v.m == ClearedModule(m) && |v.caps| == |caps|
      && forall i | 0 <= i < |caps| :: Twin(caps[i], v.caps[i])
    case VNode(tag, items) =>
      v.VNode? && v.tag == tag && |v.items| == |items| && forall i | 0 <= i < |items| :: Twin(items[i], v.items[i])
    case _ => v == w
  }

  ghost predicate TwinAll(ws: seq<VmValue>, vs: seq<VmValue>) {
    |ws| == |vs| && forall i | 0 <= i < |ws| :: Twin(ws[i], vs[i])
  }

  ghost predicate TwinGlobals(g: Globals, h: Globals) {
    g.Keys == h.Keys && forall x | x in g :: Twin(g[x], h[x])
  }

  ghost predicate TwinExn(x: Exn<VmValue>, y: Exn<VmValue>) {
    match x
    case Managed(w, tag) => y.Managed? && y.tag == tag && Twin(w, y.value)
    case Foreign(_) => y == x
  }

  ghost predicate TwinResult(r: PrimResult<VmValue>, s: PrimResult<VmValue>) {
    match r
    case Returns(w) => s.Returns? && Twin(w, s.value)
    case Raises(x) => s.Raises? && TwinExn(x, s.exn)
  }

  /** Primitives do not look into functions. */
  ghost predicate PrimsBlind(P: Prims) {
    && (forall f, h, ws, vs | Twin(f, h) && TwinAll(ws, vs) && !f.VFn? :: TwinResult(P.vmCall(f, ws), P.vmCall(h, vs)))
    && (forall w, v, c | Twin(w, v) :: P.vmMatches(w, c) == P.vmMatches(v, c))
    && (forall w, v | Twin(w, v) :: P.vmThrowable(w) == P.vmThrowable(v))
    && (forall n :: Twin(P.vmTranslate(n), P.vmTranslate(n)))
  }

  /** At `i` the slots agree, but for those that will not be read. */
  ghost predicate SlotsTwin(m: Module, L: seq<VmValue>, N: seq<VmValue>, i: nat) {
    |L| == |N| && forall s | 0 <= s < |L| :: Twin(L[s], N[s]) || Dead(m, s, i)
  }

  /** The handlers are those the layout has active at `i`. */
  ghost predicate HandlersAt(m: Module, hs: seq<Handler>, i: nat)
    requires Laid(m)
  {
    var H := HandlersOf(m);
    && i in H && |hs| == |H[i]|
    && forall k | 0 <= k < |hs| ::
         H[i][k] < |m.code| && m.code[H[i][k]].TryBegin? && hs[k].target == H[i][k] + 1 + m.code[H[i][k]].off
  }

  ghost predicate TwinCaught(a: map<nat, Exn<VmValue>>, b: map<nat, Exn<VmValue>>) {
    a.Keys == b.Keys && forall s | s in a :: TwinExn(a[s], b[s])
  }

  ghost predicate TwinJust(a: Option<Exn<VmValue>>, b: Option<Exn<VmValue>>) {
    if a.Some? then b.Some? && TwinExn(a.value, b.value) else b == a
  }

  /** `v` is `f` running cleared code. */
  ghost predicate TwinFrame(f: Frame, v: Frame) {
    && Laid(f.m) && v.m == ClearedModule(f.m) && v.ip == f.ip && f.ip < |f.m.code|
    && TwinAll(f.stack, v.stack) && SlotsTwin(f.m, f.locals, v.locals, f.ip)
    && v.handlers == f.handlers && HandlersAt(f.m, f.handlers, f.ip)
    && TwinCaught(f.caught, v.caught) && TwinJust(f.just, v.just)
  }

  ghost predicate TwinCallers(k: Callers, l: Callers) {
    if k.Top? then l.Top? else l.Caller? && TwinFrame(k.frame, l.frame) && TwinCallers(k.rest, l.rest)
  }

  ghost predicate TwinConfig(c: Config, d: Config) {
    match c
    case Run(f, k, g) => d.Run? && TwinFrame(f, d.f) && TwinCallers(k, d.k) && TwinGlobals(g, d.g)
    case Unwind(x, k, g) => d.Unwind? && TwinExn(x, d.x) && TwinCallers(k, d.k) && TwinGlobals(g, d.g)
    case Done(w, g) => d.Done? && Twin(w, d.v) && TwinGlobals(g, d.g)
    case Uncaught(x, g) => d.Uncaught? && TwinExn(x, d.x) && TwinGlobals(g, d.g)
    case Fault => d.Fault?
  }

  lemma TwinTruthy(w: VmValue, v: VmValue)
    requires Twin(w, v)
    ensures VmTruthy(w) == VmTruthy(v)
  {
  }

  lemma OnlyBack(m: Module, j: nat, t: nat)
    requires j < |m.code| && m.code[j].JumpBack?
    ensures !Forward(m.code, j, t)
  {
  }

  /** Where the instruction at `i` goes on, slots agree still. */
  lemma SlotsGo(m: Module, L: seq<VmValue>, N: seq<VmValue>, i: nat, t: nat)
    requires Laid(m) && i < |m.code| - 1 && SlotsTwin(m, L, N, i) && !m.code[i].StoreLocal?
    requires Forward(m.code, i, t) || (m.code[i].JumpBack? && Back(m.code, i) == t)
    ensures SlotsTwin(m, L, N, t) && t < |m.code|
  {
    hide Body, Dead, Twin, Forward;
    var p, fin, named := BodyOf(m);
    BodyShape(m, p, fin, named);
    if m.code[i].JumpBack? { OnlyBack(m, i, t); GoesBack(m, p, fin, named, HandlersOf(m), i); } else { Goes(m, p, fin, named, HandlersOf(m), i, t); }
    forall s | 0 <= s < |L| && Dead(m, s, i) ensures Dead(m, s, t) {
      if m.code[i].JumpBack? { DeadGoesBack(m, p, fin, named, HandlersOf(m), s, i); }
      else { DeadGoes(m, p, fin, named, HandlersOf(m), s, i, t); }
    }
  }

  lemma BodyShape(m: Module, p: Part, fin: Scope, named: set<nat>)
    requires Laid(m) && Body(m, p, fin, named, HandlersOf(m))
    ensures |m.code| > 0 && p.lo == 0 && p.hi == |m.code| - 1 && m.code[p.hi] == Return
    ensures 0 in HandlersOf(m) && HandlersOf(m)[0] == []
  {
    hide Moves, Guarded, Backs, Touches, Spans;
  }

  /** STORE_LOCAL: the slot agrees from here on. */
  lemma SlotsStore(m: Module, L: seq<VmValue>, N: seq<VmValue>, i: nat, s: nat, w: VmValue, v: VmValue)
    requires Laid(m) && i < |m.code| - 1 && SlotsTwin(m, L, N, i) && m.code[i] == StoreLocal(s) && Twin(w, v) && s < |L|
    ensures SlotsTwin(m, L[s := w], N[s := v], i + 1)
  {
    hide Body, Dead, Twin;
    var p, fin, named := BodyOf(m);
    BodyShape(m, p, fin, named);
    forall x | 0 <= x < |L| && Dead(m, x, i) && x != s ensures Dead(m, x, i + 1) {
      DeadGoes(m, p, fin, named, HandlersOf(m), x, i, i + 1);
    }
  }

  /** A read finds the same value, and a clearing read leaves the slot dead. */
  lemma SlotsRead(m: Module, L: seq<VmValue>, N: seq<VmValue>, i: nat)
    requires Laid(m) && i < |m.code| - 1 && SlotsTwin(m, L, N, i) && m.code[i].PushLocal? && m.code[i].slot < |L|
    ensures Twin(L[m.code[i].slot], N[m.code[i].slot]) && SlotsTwin(m, L, N, i + 1)
    ensures Eligible(m.code, m.arity, m.captures, i) ==> SlotsTwin(m, L, N[m.code[i].slot := VNil], i + 1)
  {
    hide Body, Dead, Twin, Eligible, Forward;
    var s := m.code[i].slot;
    var p, fin, named := BodyOf(m);
    BodyShape(m, p, fin, named);
    ReadLive(m, p, fin, named, HandlersOf(m), s, i);
    ReadGoes(m, i);
    SlotsGo(m, L, N, i, i + 1);
    if Eligible(m.code, m.arity, m.captures, i) {
      ReadAtHere(m, i);
      DeadOnce(m, p, fin, named, HandlersOf(m), s, i);
    }
  }

  lemma ReadGoes(m: Module, i: nat)
    requires i < |m.code| && m.code[i].PushLocal?
    ensures Forward(m.code, i, i + 1)
  {
  }

  lemma ReadAtHere(m: Module, i: nat)
    requires Eligible(m.code, m.arity, m.captures, i)
    ensures ReadAt(m, m.code[i].slot, i)
  {
    hide Eligible;
    assert Eligible(m.code, m.arity, m.captures, i) ==> i < |m.code| && m.code[i].PushLocal? by { EligibleRead(m.code, m.arity, m.captures, i); }
  }

  lemma EligibleRead(code: seq<Instr>, arity: nat, caps: seq<Capture>, i: nat)
    requires Eligible(code, arity, caps, i)
    ensures i < |code| && code[i].PushLocal?
  {
  }

  lemma HandlersGo(m: Module, hs: seq<Handler>, i: nat, t: nat)
    requires Laid(m) && i < |m.code| - 1 && HandlersAt(m, hs, i) && !m.code[i].TryBegin? && !m.code[i].TryEnd?
    requires Forward(m.code, i, t) || (m.code[i].JumpBack? && Back(m.code, i) == t)
    ensures HandlersAt(m, hs, t)
  {
    hide Body, Forward, HandlersOf;
    var p, fin, named := BodyOf(m);
    BodyShape(m, p, fin, named);
    if m.code[i].JumpBack? { OnlyBack(m, i, t); GoesBack(m, p, fin, named, HandlersOf(m), i); } else { Goes(m, p, fin, named, HandlersOf(m), i, t); }
  }

  /** An instruction that leaves slots and handlers alone. */
  lemma Moved(f: Frame, v: Frame, f1: Frame, v1: Frame)
    requires TwinFrame(f, v) && f.ip < |f.m.code| - 1
    requires Forward(f.m.code, f.ip, f1.ip) || (f.m.code[f.ip].JumpBack? && Back(f.m.code, f.ip) == f1.ip)
    requires var i := f.m.code[f.ip]; !i.StoreLocal? && !i.TryBegin? && !i.TryEnd?
    requires f1 == f.(ip := f1.ip, stack := f1.stack) && v1 == v.(ip := f1.ip, stack := v1.stack) && TwinAll(f1.stack, v1.stack)
    ensures TwinFrame(f1, v1)
  {
    hide Forward, Twin, Dead, HandlersOf;
    SlotsGo(f.m, f.locals, v.locals, f.ip, f1.ip);
    HandlersGo(f.m, f.handlers, f.ip, f1.ip);
  }

  lemma TwinPush(ws: seq<VmValue>, vs: seq<VmValue>, w: VmValue, v: VmValue)
    requires TwinAll(ws, vs) && Twin(w, v)
    ensures TwinAll(ws + [w], vs + [v])
  {
    hide Twin;
  }

  lemma TwinDrop(ws: seq<VmValue>, vs: seq<VmValue>, n: nat)
    requires TwinAll(ws, vs) && n <= |ws|
    ensures TwinAll(ws[..n], vs[..n]) && TwinAll(ws[n..], vs[n..])
  {
    hide Twin;
  }

  /** The two frames run the same instruction, but for a read that clears and
      the body of a fn. */
  lemma SameInstr(f: Frame, v: Frame)
    requires TwinFrame(f, v)
    ensures |v.m.code| == |f.m.code| && v.m.code[f.ip] == ClearedAt(f.m, f.ip)
    ensures v.m.arity == f.m.arity && v.m.localCount == f.m.localCount && v.m.captures == f.m.captures
  {
  }

  lemma Falls(f: Frame)
    requires f.ip < |f.m.code|
    ensures var i := f.m.code[f.ip];
            Forward(f.m.code, f.ip, f.ip + 1) <==> !(i.Jump? && i.off > 0) && !i.JumpBack? && !i.Return? && !i.Raise? && !i.Rethrow?
  {
  }

  /** Stack instructions. */
  predicate Stacks(i: Instr) {
    || i.PushConst? || i.PushNil? || i.PushTrue? || i.PushFalse? || i.PushVar? || i.StoreGlobal? || i.Pop? || i.Dup?
    || i.ExcMatch? || i.Raise? || i.MakeFn?
  }

  lemma StackStep(P: Prims, f: Frame, v: Frame, k: Callers, l: Callers, g: Globals, h: Globals)
    requires PrimsBlind(P) && TwinFrame(f, v) && TwinCallers(k, l) && TwinGlobals(g, h)
    requires f.ip < |f.m.code| - 1 && Stacks(f.m.code[f.ip]) && !f.m.code[f.ip].MakeFn?
    ensures TwinConfig(Exec(P, f.m.code[f.ip], f, k, g), Exec(P, f.m.code[f.ip], v, l, h))
  {
    hide Twin, Dead, HandlersOf, Laid, SlotsTwin, HandlersAt, ClearedModule, TwinCaught, TwinJust, Forward, TwinFrame;
    var i := f.m.code[f.ip];
    var c, d := Exec(P, i, f, k, g), Exec(P, i, v, l, h);
    FrameParts(f, v);
    Falls(f);
    StackTwin(P, f, v, k, l, g, h);
    if c.Run? { Moved(f, v, c.f, d.f); }
  }

  lemma FrameParts(f: Frame, v: Frame)
    requires TwinFrame(f, v)
    ensures v.ip == f.ip < |f.m.code| && TwinAll(f.stack, v.stack) && v.handlers == f.handlers && |v.locals| == |f.locals| && |v.stack| == |f.stack|
  {
  }

  /** Both ran a stack instruction, and both raised or neither did. */
  ghost predicate Stacked(f: Frame, v: Frame, k: Callers, l: Callers, g: Globals, h: Globals, c: Config, d: Config) {
    match c
    case Run(f1, k1, g1) =>
      && d.Run? && k1 == k && d.k == l && TwinGlobals(g1, d.g) && TwinAll(f1.stack, d.f.stack) && f1.ip == f.ip + 1
      && f1 == f.(ip := f.ip + 1, stack := f1.stack) && d.f == v.(ip := f.ip + 1, stack := d.f.stack)
    case Unwind(x, k1, g1) => d.Unwind? && k1 == Caller(f, k) && d.k == Caller(v, l) && g1 == g && d.g == h && TwinExn(x, d.x)
    case _ => false
  }

  lemma StackTwin(P: Prims, f: Frame, v: Frame, k: Callers, l: Callers, g: Globals, h: Globals)
    requires PrimsBlind(P) && TwinAll(f.stack, v.stack) && TwinGlobals(g, h) && v.ip == f.ip
    requires f.ip < |f.m.code| && Stacks(f.m.code[f.ip]) && !f.m.code[f.ip].MakeFn?
    ensures Stacked(f, v, k, l, g, h, Exec(P, f.m.code[f.ip], f, k, g), Exec(P, f.m.code[f.ip], v, l, h))
    ensures f.m.code[f.ip].Raise? ==> !Exec(P, f.m.code[f.ip], f, k, g).Run?
  {
    var i := f.m.code[f.ip];
    if i.StoreGlobal? || i.Pop? || i.ExcMatch? || i.Raise? { DropTwin(P, f, v, k, l, g, h, i); }
    else { PushTwin(P, f, v, k, l, g, h, i); }
    hide Exec, Stacked;
  }

  lemma PushTwin(P: Prims, f: Frame, v: Frame, k: Callers, l: Callers, g: Globals, h: Globals, i: Instr)
    requires TwinAll(f.stack, v.stack) && TwinGlobals(g, h) && v.ip == f.ip
    requires i.PushConst? || i.PushNil? || i.PushTrue? || i.PushFalse? || i.PushVar? || i.Dup?
    ensures Stacked(f, v, k, l, g, h, Exec(P, i, f, k, g), Exec(P, i, v, l, h))
  {
    ConstTwin();
    BoolTwin();
    hide Twin;
  }

  lemma DropTwin(P: Prims, f: Frame, v: Frame, k: Callers, l: Callers, g: Globals, h: Globals, i: Instr)
    requires PrimsBlind(P) && TwinAll(f.stack, v.stack) && TwinGlobals(g, h) && v.ip == f.ip
    requires i.StoreGlobal? || i.Pop? || i.ExcMatch? || i.Raise?
    ensures Stacked(f, v, k, l, g, h, Exec(P, i, f, k, g), Exec(P, i, v, l, h))
    ensures i.Raise? ==> !Exec(P, i, f, k, g).Run?
  {
    ConstTwin();
    BoolTwin();
    var n := |f.stack|;
    if n > 0 {
      TopTwin(P, f, v);
      hide PrimsBlind, Twin;
      TwinDrop(f.stack, v.stack, n - 1);
      if i.ExcMatch? {
        var b := Bool(P.vmMatches(TopOf(f), i.classId));
        TwinPush(f.stack[..n - 1], v.stack[..n - 1], b, b);
      }
      hide TwinAll;
      DropRuns(P, f, v, k, l, g, h, i);
    } else {
      hide PrimsBlind, Twin, TwinGlobals;
    }
  }

  lemma DropRuns(P: Prims, f: Frame, v: Frame, k: Callers, l: Callers, g: Globals, h: Globals, i: Instr)
    requires TwinGlobals(g, h) && v.ip == f.ip && |f.stack| == |v.stack| > 0 && TwinAll(f.stack, v.stack) && Twin(TopOf(f), TopOf(v))
    requires i.StoreGlobal? || i.Pop? || i.ExcMatch? || i.Raise?
    requires P.vmThrowable(TopOf(f)) == P.vmThrowable(TopOf(v))
    requires forall c: nat :: P.vmMatches(TopOf(f), c) == P.vmMatches(TopOf(v), c)
    requires var n := |f.stack| - 1; TwinAll(f.stack[..n], v.stack[..n])
    requires var n := |f.stack| - 1;
             i.ExcMatch? ==> var b := Bool(P.vmMatches(TopOf(f), i.classId)); TwinAll(f.stack[..n] + [b], v.stack[..n] + [b])
    ensures Stacked(f, v, k, l, g, h, Exec(P, i, f, k, g), Exec(P, i, v, l, h))
    ensures i.Raise? ==> !Exec(P, i, f, k, g).Run?
  {
    ConstTwin();
    hide Twin, TwinAll;
  }

  lemma TopTwin(P: Prims, f: Frame, v: Frame)
    requires PrimsBlind(P) && TwinAll(f.stack, v.stack) && |f.stack| > 0
    ensures |v.stack| > 0 && Twin(TopOf(f), TopOf(v))
    ensures P.vmThrowable(TopOf(f)) == P.vmThrowable(TopOf(v))
    ensures forall c: nat :: P.vmMatches(TopOf(f), c) == P.vmMatches(TopOf(v), c)
  {
    hide Twin;
    assert Twin(TopOf(f), TopOf(v));
  }

  lemma ConstTwin()
    ensures forall c :: Twin(ConstVmValue(c), ConstVmValue(c))
    ensures forall e :: Twin(VError(e), VError(e))
    ensures Twin(VNil, VNil)
  {
  }

  lemma BoolTwin()
    ensures Twin(VTrue, VTrue) && Twin(VFalse, VFalse)
  {
  }

  /** Reads of locals: the cleared code may empty the slot. */
  lemma ReadStep(P: Prims, f: Frame, v: Frame, k: Callers, l: Callers, g: Globals, h: Globals)
    requires TwinFrame(f, v) && TwinCallers(k, l) && TwinGlobals(g, h)
    requires f.ip < |f.m.code| - 1 && f.m.code[f.ip].PushLocal?
    ensures TwinConfig(Exec(P, f.m.code[f.ip], f, k, g), Exec(P, ClearedAt(f.m, f.ip), v, l, h))
  {
    var s := f.m.code[f.ip].slot;
    FrameParts(f, v);
    ReadIs(P, s, f, k, g);
    ReadIs(P, s, v, l, h);
    FaultTwin();
    hide TwinGlobals, TwinCallers, TwinConfig, TwinFrame, Twin, Eligible, Exec;
    if s < |f.locals| {
      ReadTwin(f, v, s);
      var v1 := v.(ip := v.ip + 1, stack := v.stack + [v.locals[s]]);
      RunTwin(f.(ip := f.ip + 1, stack := f.stack + [f.locals[s]]),
              if Eligible(f.m.code, f.m.arity, f.m.captures, f.ip) then v1.(locals := v.locals[s := VNil]) else v1, k, l, g, h);
    }
  }

  lemma ReadTwin(f: Frame, v: Frame, s: nat)
    requires TwinFrame(f, v) && f.ip < |f.m.code| - 1 && f.m.code[f.ip] == PushLocal(s) && s < |f.locals|
    ensures |v.locals| == |f.locals|
    ensures var f1, v1 := f.(ip := f.ip + 1, stack := f.stack + [f.locals[s]]), v.(ip := v.ip + 1, stack := v.stack + [v.locals[s]]);
            && TwinFrame(f1, v1)
            && (Eligible(f.m.code, f.m.arity, f.m.captures, f.ip) ==> TwinFrame(f1, v1.(locals := v.locals[s := VNil])))
  {
    hide Twin, Dead, HandlersOf, Laid, Eligible, ClearedModule, Forward, TwinCaught, TwinJust;
    Falls(f);
    SlotsRead(f.m, f.locals, v.locals, f.ip);
    HandlersGo(f.m, f.handlers, f.ip, f.ip + 1);
    TwinPush(f.stack, v.stack, f.locals[s], v.locals[s]);
    hide SlotsTwin, HandlersAt, TwinAll;
  }

  /** STORE_LOCAL. */
  lemma StoreStep(P: Prims, f: Frame, v: Frame, k: Callers, l: Callers, g: Globals, h: Globals)
    requires TwinFrame(f, v) && TwinCallers(k, l) && TwinGlobals(g, h)
    requires f.ip < |f.m.code| - 1 && f.m.code[f.ip].StoreLocal?
    ensures TwinConfig(Exec(P, f.m.code[f.ip], f, k, g), Exec(P, f.m.code[f.ip], v, l, h))
  {
    var s := f.m.code[f.ip].slot;
    FrameParts(f, v);
    StoreIs(P, s, f, k, g);
    StoreIs(P, s, v, l, h);
    FaultTwin();
    hide TwinGlobals, TwinCallers, TwinConfig, TwinFrame, Exec, RaiseError, Twin;
    if |f.stack| == 0 {
      RaiseTwin(Internal, f, v, k, l, g, h);
    } else if s < |f.locals| {
      StoredTwin(f, v, s);
      RunTwin(f.(ip := f.ip + 1, stack := f.stack[..|f.stack| - 1], locals := f.locals[s := TopOf(f)]),
              v.(ip := v.ip + 1, stack := v.stack[..|v.stack| - 1], locals := v.locals[s := TopOf(v)]), k, l, g, h);
    }
  }

  lemma StoredTwin(f: Frame, v: Frame, s: nat)
    requires TwinFrame(f, v) && f.ip < |f.m.code| - 1 && f.m.code[f.ip] == StoreLocal(s) && |f.stack| > 0 && s < |f.locals|
    ensures |v.stack| == |f.stack| && |v.locals| == |f.locals|
    ensures TwinFrame(f.(ip := f.ip + 1, stack := f.stack[..|f.stack| - 1], locals := f.locals[s := TopOf(f)]),
                      v.(ip := v.ip + 1, stack := v.stack[..|v.stack| - 1], locals := v.locals[s := TopOf(v)]))
  {
    hide Twin, Dead, HandlersOf, Laid, Eligible, ClearedModule, Forward, SlotsTwin;
    var n := |f.stack|;
    SlotCount(f.m, f.locals, v.locals, f.ip);
    Falls(f);
    HandlersGo(f.m, f.handlers, f.ip, f.ip + 1);
    SlotsStore(f.m, f.locals, v.locals, f.ip, s, TopOf(f), TopOf(v));
    TwinDrop(f.stack, v.stack, n - 1);
    hide HandlersAt, TwinAll, TwinCaught, TwinJust;
  }

  lemma SlotCount(m: Module, L: seq<VmValue>, N: seq<VmValue>, i: nat)
    requires SlotsTwin(m, L, N, i)
    ensures |L| == |N|
  {
  }

  lemma SlotsSet(m: Module, L: seq<VmValue>, N: seq<VmValue>, i: nat, s: nat, w: VmValue, v: VmValue)
    requires SlotsTwin(m, L, N, i) && s < |L| && Twin(w, v)
    ensures |L| == |N| && SlotsTwin(m, L[s := w], N[s := v], i)
  {
    hide Twin, Dead;
  }

  /** STORE_CAUGHT. */
  lemma CaughtStep(P: Prims, f: Frame, v: Frame, k: Callers, l: Callers, g: Globals, h: Globals)
    requires TwinFrame(f, v) && TwinCallers(k, l) && TwinGlobals(g, h)
    requires f.ip < |f.m.code| - 1 && f.m.code[f.ip].StoreCaught?
    ensures TwinConfig(Exec(P, f.m.code[f.ip], f, k, g), Exec(P, f.m.code[f.ip], v, l, h))
  {
    var s := f.m.code[f.ip].slot;
    FrameParts(f, v);
    CaughtIs(P, s, f, k, g);
    CaughtIs(P, s, v, l, h);
    FaultTwin();
    hide TwinGlobals, TwinCallers, TwinConfig, TwinFrame, Exec, RaiseError, Twin, HeldFrom, TwinAll;
    if |f.stack| == 0 {
      RaiseTwin(Internal, f, v, k, l, g, h);
    } else if s < |f.locals| {
      KeepTwin(f, v, s);
      RunTwin(HeldFrom(f, s), HeldFrom(v, s), k, l, g, h);
    }
  }

  /** `f` after STORE_CAUGHT. */
  function HeldFrom(f: Frame, s: nat): Frame
    requires |f.stack| > 0 && s < |f.locals|
  {
    f.(ip := f.ip + 1, stack := f.stack[..|f.stack| - 1], locals := f.locals[s := TopOf(f)], just := None,
       caught := if f.just.Some? then f.caught[s := f.just.value] else f.caught - {s})
  }

  lemma KeepTwin(f: Frame, v: Frame, s: nat)
    requires TwinFrame(f, v) && f.ip < |f.m.code| - 1 && f.m.code[f.ip] == StoreCaught(s) && |f.stack| > 0 && s < |f.locals|
    ensures |v.stack| == |f.stack| && |v.locals| == |f.locals| && TwinFrame(HeldFrom(f, s), HeldFrom(v, s))
  {
    hide Twin, Dead, HandlersOf, Laid, Eligible, ClearedModule, Forward, SlotsTwin;
    var n := |f.stack|;
    SlotCount(f.m, f.locals, v.locals, f.ip);
    Falls(f);
    HandlersGo(f.m, f.handlers, f.ip, f.ip + 1);
    SlotsGo(f.m, f.locals, v.locals, f.ip, f.ip + 1);
    SlotsSet(f.m, f.locals, v.locals, f.ip + 1, s, TopOf(f), TopOf(v));
    TwinDrop(f.stack, v.stack, n - 1);
    CaughtKept(f.caught, v.caught, f.just, v.just, s);
    hide HandlersAt, TwinAll, TwinCaught, TwinExn;
  }

  lemma CaughtKept(a: map<nat, Exn<VmValue>>, b: map<nat, Exn<VmValue>>, x: Option<Exn<VmValue>>, y: Option<Exn<VmValue>>, s: nat)
    requires TwinCaught(a, b) && TwinJust(x, y)
    ensures TwinCaught(if x.Some? then a[s := x.value] else a - {s}, if y.Some? then b[s := y.value] else b - {s})
  {
    hide TwinExn;
  }

  lemma JumpStep(P: Prims, f: Frame, v: Frame, k: Callers, l: Callers, g: Globals, h: Globals)
    requires TwinFrame(f, v) && TwinCallers(k, l) && TwinGlobals(g, h)
    requires f.ip < |f.m.code| - 1
    requires var i := f.m.code[f.ip]; i.Jump? || i.JumpIfFalse? || i.JumpIfTrue? || i.JumpBack?
    ensures TwinConfig(Exec(P, f.m.code[f.ip], f, k, g), Exec(P, f.m.code[f.ip], v, l, h))
  {
    hide Twin, Dead, HandlersOf, Laid, ClearedModule, SlotsTwin, HandlersAt, TwinCaught, TwinJust, TwinFrame, Forward, Exec, TwinAll;
    FrameParts(f, v);
    var i := f.m.code[f.ip];
    var c, d := Exec(P, i, f, k, g), Exec(P, i, v, l, h);
    JumpTwin(P, f, v, k, l, g, h);
    if c.Run? { Moved(f, v, c.f, d.f); }
  }

  /** Both frames jumped to the same place, or raised. */
  ghost predicate Jumped(f: Frame, v: Frame, k: Callers, l: Callers, g: Globals, h: Globals, c: Config, d: Config)
    requires f.ip < |f.m.code|
  {
    match c
    case Run(f1, k1, g1) =>
      && d.Run? && k1 == k && d.k == l && g1 == g && d.g == h && TwinAll(f1.stack, d.f.stack)
      && f1 == f.(ip := f1.ip, stack := f1.stack) && d.f == v.(ip := f1.ip, stack := d.f.stack)
      && (Forward(f.m.code, f.ip, f1.ip) || (f.m.code[f.ip].JumpBack? && Back(f.m.code, f.ip) == f1.ip))
    case Unwind(x, k1, g1) => d.Unwind? && k1 == Caller(f, k) && d.k == Caller(v, l) && g1 == g && d.g == h && TwinExn(x, d.x)
    case Fault => d.Fault?
    case _ => false
  }

  lemma JumpTwin(P: Prims, f: Frame, v: Frame, k: Callers, l: Callers, g: Globals, h: Globals)
    requires TwinAll(f.stack, v.stack) && v.ip == f.ip < |f.m.code|
    requires var i := f.m.code[f.ip]; i.Jump? || i.JumpIfFalse? || i.JumpIfTrue? || i.JumpBack?
    ensures Jumped(f, v, k, l, g, h, Exec(P, f.m.code[f.ip], f, k, g), Exec(P, f.m.code[f.ip], v, l, h))
  {
    var i := f.m.code[f.ip];
    if i.JumpIfFalse? || i.JumpIfTrue? {
      if |f.stack| > 0 {
        TwinTruthy(TopOf(f), TopOf(v));
        TwinDrop(f.stack, v.stack, |f.stack| - 1);
        hide Twin, TwinAll, Exec, Jumped, VmTruthy;
        TestTwin(P, f, v, k, l, g, h);
      } else {
        ConstTwin();
        hide Twin, TwinAll, VmTruthy;
      }
    } else {
      hide Twin, TwinAll, VmTruthy;
    }
  }

  lemma TestTwin(P: Prims, f: Frame, v: Frame, k: Callers, l: Callers, g: Globals, h: Globals)
    requires |f.stack| == |v.stack| > 0 && v.ip == f.ip < |f.m.code|
    requires var i := f.m.code[f.ip]; i.JumpIfFalse? || i.JumpIfTrue?
    requires VmTruthy(TopOf(f)) == VmTruthy(TopOf(v)) && TwinAll(f.stack[..|f.stack| - 1], v.stack[..|f.stack| - 1])
    ensures Jumped(f, v, k, l, g, h, Exec(P, f.m.code[f.ip], f, k, g), Exec(P, f.m.code[f.ip], v, l, h))
  {
    hide Twin, TwinAll, VmTruthy;
    var t := TestRuns(P, f, k, g, f.m.code[f.ip]);
    var t1 := TestRuns(P, v, l, h, f.m.code[f.ip]);
    hide Exec;
  }

  lemma TestRuns(P: Prims, f: Frame, k: Callers, g: Globals, i: Instr) returns (t: nat)
    requires |f.stack| > 0 && (i.JumpIfFalse? || i.JumpIfTrue?)
    ensures t == (if VmTruthy(TopOf(f)) == i.JumpIfFalse? then f.ip + 1 else f.ip + 1 + i.off)
    ensures Exec(P, i, f, k, g) == Run(f.(ip := t, stack := f.stack[..|f.stack| - 1]), k, g)
  {
    hide VmTruthy;
    t := if VmTruthy(TopOf(f)) == i.JumpIfFalse? then f.ip + 1 else f.ip + 1 + i.off;
  }

  lemma MakeStep(P: Prims, f: Frame, v: Frame, k: Callers, l: Callers, g: Globals, h: Globals)
    requires TwinFrame(f, v) && TwinCallers(k, l) && TwinGlobals(g, h)
    requires f.ip < |f.m.code| - 1 && f.m.code[f.ip].MakeFn?
    ensures TwinConfig(Exec(P, f.m.code[f.ip], f, k, g), Exec(P, ClearedAt(f.m, f.ip), v, l, h))
  {
    var b := f.m.code[f.ip].body;
    InnerMade(f.m, f.ip);
    NotRead(f.m, f.ip);
    hide Dead, HandlersOf, Laid, SlotsTwin, HandlersAt, TwinCaught, TwinJust, Forward, Made, Eligible, Twin;
    FrameParts(f, v);
    Falls(f);
    var n := |b.captures|;
    hide TwinAll, ClearedModule, TwinFrame, Exec, TwinConfig, TwinCallers, TwinGlobals;
    MakeRuns(P, f, v, k, l, g, h, b);
    var c, d := Exec(P, f.m.code[f.ip], f, k, g), Exec(P, MakeFn(ClearedModule(b)), v, l, h);
    if |f.stack| >= n {
      Moved(f, v, c.f, d.f);
      RunTwin(c.f, d.f, k, l, g, h);
    } else {
      RaiseTwin(Internal, f, v, k, l, g, h);
    }
  }

  lemma MakeRuns(P: Prims, f: Frame, v: Frame, k: Callers, l: Callers, g: Globals, h: Globals, b: Module)
    requires TwinAll(f.stack, v.stack) && v.ip == f.ip && Made(b)
    ensures var c, d := Exec(P, MakeFn(b), f, k, g), Exec(P, MakeFn(ClearedModule(b)), v, l, h);
            if |f.stack| < |b.captures|
            then c == RaiseError(Internal, f, k, g) && d == RaiseError(Internal, v, l, h)
            else c.Run? && d.Run? && TwinAll(c.f.stack, d.f.stack)
                 && c == Run(f.(ip := f.ip + 1, stack := c.f.stack), k, g) && d == Run(v.(ip := f.ip + 1, stack := d.f.stack), l, h)
  {
    hide Made, Exec, RaiseError;
    ClearedShape(b);
    MakeIs(P, b, f, k, g);
    MakeIs(P, ClearedModule(b), v, l, h);
    var n := |b.captures|;
    if |f.stack| >= n {
      var base := |f.stack| - n;
      TwinDrop(f.stack, v.stack, base);
      FnTwin(b, f.stack[base..], v.stack[base..]);
      hide Twin, ClearedModule;
      TwinPush(f.stack[..base], v.stack[..base], VFn(b, f.stack[base..]), VFn(ClearedModule(b), v.stack[base..]));
      hide TwinAll;
    }
  }

  lemma ClearedShape(m: Module)
    ensures ClearedModule(m).captures == m.captures && ClearedModule(m).arity == m.arity
    ensures ClearedModule(m).localCount == m.localCount && |ClearedModule(m).code| == |m.code|
  {
  }

  lemma FnTwin(m: Module, ws: seq<VmValue>, vs: seq<VmValue>)
    requires Made(m) && TwinAll(ws, vs)
    ensures Twin(VFn(m, ws), VFn(ClearedModule(m), vs))
  {
    hide Made, ClearedModule;
  }

  lemma NotRead(m: Module, i: nat)
    requires i < |m.code| && !m.code[i].PushLocal?
    ensures !Eligible(m.code, m.arity, m.captures, i)
  {
  }

  lemma InnerMade(m: Module, i: nat)
    requires Laid(m) && i < |m.code| - 1 && m.code[i].MakeFn?
    ensures Made(m.code[i].body)
  {
    hide Made;
    var p, fin, named := BodyOf(m);
  }

  lemma TryStep(P: Prims, f: Frame, v: Frame, k: Callers, l: Callers, g: Globals, h: Globals)
    requires TwinFrame(f, v) && TwinCallers(k, l) && TwinGlobals(g, h)
    requires f.ip < |f.m.code| - 1 && (f.m.code[f.ip].TryBegin? || f.m.code[f.ip].TryEnd?)
    ensures TwinConfig(Exec(P, f.m.code[f.ip], f, k, g), Exec(P, f.m.code[f.ip], v, l, h))
  {
    hide Twin, Dead, Laid, SlotsTwin, TwinCaught, TwinJust, Forward, HandlersAt, HandlersOf;
    ConstTwin();
    Falls(f);
    SlotsGo(f.m, f.locals, v.locals, f.ip, f.ip + 1);
    HandlersChange(f.m, f.handlers, f.ip, |f.stack|);
    hide TwinAll, ClearedModule;
  }

  lemma HandlersChange(m: Module, hs: seq<Handler>, i: nat, depth: nat)
    requires Laid(m) && i < |m.code| - 1 && HandlersAt(m, hs, i) && Forward(m.code, i, i + 1)
    ensures m.code[i].TryBegin? ==> HandlersAt(m, hs + [Handler(i + 1 + m.code[i].off, depth)], i + 1)
    ensures m.code[i].TryEnd? ==> |hs| > 0 && HandlersAt(m, hs[..|hs| - 1], i + 1)
  {
    hide Body, Forward, HandlersOf;
    var p, fin, named := BodyOf(m);
    BodyShape(m, p, fin, named);
    Goes(m, p, fin, named, HandlersOf(m), i, i + 1);
  }

  lemma BeginTwin(m: Module, ws: seq<VmValue>, vs: seq<VmValue>, caps: seq<VmValue>, caps1: seq<VmValue>)
    requires Made(m) && TwinAll(ws, vs) && TwinAll(caps, caps1) && |ws| == m.arity && |caps| == |m.captures|
    requires forall j | 0 <= j < |m.captures| :: m.captures[j].localSlot < m.arity + m.localCount
    ensures var m1 := ClearedModule(m);
            && |vs| == m1.arity && |caps1| == |m1.captures|
            && (forall j | 0 <= j < |m1.captures| :: m1.captures[j].localSlot < m1.arity + m1.localCount)
            && TwinFrame(NewFrame(m, ws, caps), NewFrame(m1, vs, caps1))
  {
    MadeLaid(m);
    hide Dead, Made, Body, Laid;
    ConstTwin();
    var p, fin, named := BodyOf(m);
    BodyShape(m, p, fin, named);
    hide HandlersOf, Twin;
    var L, N := ws + seq(m.localCount, _ => VNil), vs + seq(m.localCount, _ => VNil);
    assert TwinAll(L, N);
    CapturesTwin(L, N, m.captures, caps, caps1, 0);
  }

  lemma {:induction false} CapturesTwin(L: seq<VmValue>, N: seq<VmValue>, specs: seq<Capture>, caps: seq<VmValue>, caps1: seq<VmValue>, i: nat)
    requires |specs| == |caps| == |caps1| && i <= |specs| && TwinAll(L, N) && TwinAll(caps, caps1)
    requires forall j | i <= j < |specs| :: specs[j].localSlot < |L|
    ensures TwinAll(WriteCaptures(L, specs, caps, i), WriteCaptures(N, specs, caps1, i))
    decreases |specs| - i
  {
    hide Twin;
    if i < |specs| {
      CapturesTwin(L[specs[i].localSlot := caps[i]], N[specs[i].localSlot := caps1[i]], specs, caps, caps1, i + 1);
    }
  }

  /** A caller waiting at the instruction after its call. */
  lemma Waits(f: Frame, v: Frame, ws: seq<VmValue>, vs: seq<VmValue>)
    requires TwinFrame(f, v) && f.ip < |f.m.code| - 1 && f.m.code[f.ip].Invoke? && TwinAll(ws, vs)
    ensures TwinFrame(f.(ip := f.ip + 1, stack := ws), v.(ip := f.ip + 1, stack := vs))
  {
    hide TwinFrame, TwinAll, Forward;
    Falls(f);
    assert v.ip == f.ip by { FrameParts(f, v); }
    Moved(f, v, f.(ip := f.ip + 1, stack := ws), v.(ip := f.ip + 1, stack := vs));
  }

  lemma CallStep(P: Prims, n: nat, f: Frame, v: Frame, k: Callers, l: Callers, g: Globals, h: Globals)
    requires PrimsBlind(P) && TwinFrame(f, v) && TwinCallers(k, l) && TwinGlobals(g, h)
    requires f.ip < |f.m.code| - 1 && f.m.code[f.ip] == Invoke(n)
    ensures TwinConfig(Dispatch(P, n, f, k, g), Dispatch(P, n, v, l, h))
  {
    hide TwinFrame, TwinGlobals, NewFrame, PrimsBlind;
    FrameParts(f, v);
    ConstTwin();
    if |f.stack| >= n + 1 {
      var base := |f.stack| - n - 1;
      TwinDrop(f.stack, v.stack, base);
      TwinDrop(f.stack, v.stack, base + 1);
      assert Twin(f.stack[base], v.stack[base]);
      Waits(f, v, f.stack[..base], v.stack[..base]);
      if f.stack[base].VFn? {
        CallFn(P, n, base, f, v, k, l, g, h);
      } else {
        CallPrim(P, n, base, f, v, k, l, g, h);
      }
    } else { hide Twin, TwinAll; }
  }

  lemma RaiseTwin(kind: ErrorKind, f: Frame, v: Frame, k: Callers, l: Callers, g: Globals, h: Globals)
    requires TwinFrame(f, v) && TwinCallers(k, l) && TwinGlobals(g, h)
    ensures TwinConfig(RaiseError(kind, f, k, g), RaiseError(kind, v, l, h))
  {
    ConstTwin();
    hide TwinFrame, TwinGlobals, Twin;
  }

  lemma RunTwin(f: Frame, v: Frame, k: Callers, l: Callers, g: Globals, h: Globals)
    requires TwinFrame(f, v) && TwinCallers(k, l) && TwinGlobals(g, h)
    ensures TwinConfig(Run(f, k, g), Run(v, l, h))
  {
    hide TwinFrame, TwinGlobals, TwinCallers;
  }

  lemma UnwindTwin(x: Exn<VmValue>, y: Exn<VmValue>, f: Frame, v: Frame, k: Callers, l: Callers, g: Globals, h: Globals)
    requires TwinExn(x, y) && TwinFrame(f, v) && TwinCallers(k, l) && TwinGlobals(g, h)
    ensures TwinConfig(Unwind(x, Caller(f, k), g), Unwind(y, Caller(v, l), h))
  {
    hide TwinFrame, TwinGlobals, TwinExn;
  }

  lemma CaughtIs(P: Prims, s: nat, f: Frame, k: Callers, g: Globals)
    ensures Exec(P, StoreCaught(s), f, k, g) ==
              if |f.stack| == 0 then RaiseError(Internal, f, k, g)
              else if s >= |f.locals| then Fault
              else Run(HeldFrom(f, s), k, g)
  {
    hide RaiseError;
  }

  lemma TakeIs(P: Prims, x: Exn<VmValue>, f: Frame, k: Callers, g: Globals)
    requires |f.handlers| > 0
    ensures var n := |f.handlers| - 1; var hd := f.handlers[n];
            TakeHandler(P, x, f, k, g) ==
              if hd.depth > |f.stack| then Fault else
              Run(f.(ip := hd.target, stack := f.stack[..hd.depth] + [VmCaughtValue(P, x)], handlers := f.handlers[..n],
                     just := if x.Managed? then Some(x) else None), k, g)
  {
    hide VmCaughtValue;
  }

  lemma RethrowIs(P: Prims, s: nat, f: Frame, k: Callers, g: Globals)
    ensures Exec(P, Rethrow(s), f, k, g) ==
              if s in f.caught then Unwind(f.caught[s], Caller(f, k), g)
              else if s < |f.locals| then Unwind(Managed(f.locals[s], 0), Caller(f, k), g)
              else Fault
  {
  }

  lemma MakeIs(P: Prims, m: Module, f: Frame, k: Callers, g: Globals)
    ensures Exec(P, MakeFn(m), f, k, g) ==
              if |f.stack| < |m.captures| then RaiseError(Internal, f, k, g) else
              var base := |f.stack| - |m.captures|;
              Run(f.(ip := f.ip + 1, stack := f.stack[..base] + [VFn(m, f.stack[base..])]), k, g)
  {
    hide RaiseError;
  }

  lemma ReadIs(P: Prims, s: nat, f: Frame, k: Callers, g: Globals)
    ensures Exec(P, PushLocal(s), f, k, g) ==
              if s >= |f.locals| then Fault else Run(f.(ip := f.ip + 1, stack := f.stack + [f.locals[s]]), k, g)
    ensures Exec(P, PushLocalClear(s), f, k, g) ==
              if s >= |f.locals| then Fault
              else Run(f.(ip := f.ip + 1, stack := f.stack + [f.locals[s]], locals := f.locals[s := VNil]), k, g)
  {
  }

  lemma StoreIs(P: Prims, s: nat, f: Frame, k: Callers, g: Globals)
    ensures Exec(P, StoreLocal(s), f, k, g) ==
              if |f.stack| == 0 then RaiseError(Internal, f, k, g)
              else if s >= |f.locals| then Fault
              else Run(f.(ip := f.ip + 1, stack := f.stack[..|f.stack| - 1], locals := f.locals[s := TopOf(f)]), k, g)
  {
    hide RaiseError;
  }

  predicate Enterable(m: Module, n: nat, caps: nat) {
    && m.arity == n <= MAX_BOUND_PARAMETERS && |m.captures| == caps
    && forall j | 0 <= j < |m.captures| :: m.captures[j].localSlot < m.arity + m.localCount
  }

  /** The error of a call that does not enter its callee; None is a fault. */
  function Refusal(m: Module, n: nat, caps: nat): Option<ErrorKind> {
    if m.arity != n then Some(ArityMismatch(m.arity, n))
    else if n > MAX_BOUND_PARAMETERS then Some(TooManyParameters)
    else if |m.captures| != caps then Some(Internal)
    else None
  }

  /** CALL of a fn, unfolded. */
  lemma CallEnters(P: Prims, n: nat, base: nat, f: Frame, k: Callers, g: Globals)
    requires base == |f.stack| - n - 1 && f.stack[base].VFn? && Enterable(f.stack[base].m, n, |f.stack[base].caps|)
    ensures var w := f.stack[base];
            Dispatch(P, n, f, k, g) ==
              Run(NewFrame(w.m, f.stack[base + 1..], w.caps), Caller(f.(ip := f.ip + 1, stack := f.stack[..base]), k), g)
  {
    hide NewFrame, RaiseError;
  }

  lemma CallRefuses(P: Prims, n: nat, base: nat, f: Frame, k: Callers, g: Globals)
    requires base == |f.stack| - n - 1 && f.stack[base].VFn? && !Enterable(f.stack[base].m, n, |f.stack[base].caps|)
    ensures var w := f.stack[base];
            Dispatch(P, n, f, k, g) ==
              match Refusal(w.m, n, |w.caps|) case Some(e) => RaiseError(e, f, k, g) case None => Fault
  {
    var w := f.stack[base];
    hide NewFrame, RaiseError;
    if Refusal(w.m, n, |w.caps|).None? {
      var j :| 0 <= j < |w.m.captures| && w.m.captures[j].localSlot >= w.m.arity + w.m.localCount;
      assert Dispatch(P, n, f, k, g) == Fault;
    }
  }

  lemma CallIsFn(P: Prims, n: nat, base: nat, f: Frame, k: Callers, g: Globals)
    requires base == |f.stack| - n - 1 && f.stack[base].VFn?
    ensures var w := f.stack[base];
            if Enterable(w.m, n, |w.caps|)
            then Dispatch(P, n, f, k, g) ==
                   Run(NewFrame(w.m, f.stack[base + 1..], w.caps), Caller(f.(ip := f.ip + 1, stack := f.stack[..base]), k), g)
            else Dispatch(P, n, f, k, g) ==
                   match Refusal(w.m, n, |w.caps|) case Some(e) => RaiseError(e, f, k, g) case None => Fault
  {
    hide NewFrame, RaiseError, Dispatch;
    if Enterable(f.stack[base].m, n, |f.stack[base].caps|) { CallEnters(P, n, base, f, k, g); }
    else { CallRefuses(P, n, base, f, k, g); }
  }

  /** CALL of anything else. */
  lemma CallIs(P: Prims, n: nat, base: nat, f: Frame, k: Callers, g: Globals)
    requires base == |f.stack| - n - 1 && !f.stack[base].VFn?
    ensures Dispatch(P, n, f, k, g) ==
              match P.vmCall(f.stack[base], f.stack[base + 1..])
              case Returns(u) => Run(f.(ip := f.ip + 1, stack := f.stack[..base] + [u]), k, g)
              case Raises(x) => Unwind(x, Caller(f, k), g)
  {
    hide NewFrame;
  }

  lemma CallPrim(P: Prims, n: nat, base: nat, f: Frame, v: Frame, k: Callers, l: Callers, g: Globals, h: Globals)
    requires PrimsBlind(P) && TwinFrame(f, v) && TwinCallers(k, l) && TwinGlobals(g, h)
    requires f.ip < |f.m.code| - 1 && f.m.code[f.ip] == Invoke(n)
    requires v.ip == f.ip && |f.stack| == |v.stack| && base == |f.stack| - n - 1
    requires TwinAll(f.stack[..base], v.stack[..base]) && TwinAll(f.stack[base + 1..], v.stack[base + 1..])
    requires Twin(f.stack[base], v.stack[base]) && !f.stack[base].VFn?
    ensures TwinConfig(Dispatch(P, n, f, k, g), Dispatch(P, n, v, l, h))
  {
    NotFn(f.stack[base], v.stack[base]);
    hide TwinFrame, TwinGlobals, Twin, TwinCallers, TwinConfig, Dispatch, NewFrame, TwinAll;
    var r := PrimTwin(P, f.stack[base], v.stack[base], f.stack[base + 1..], v.stack[base + 1..]);
    hide PrimsBlind;
    CallIs(P, n, base, f, k, g);
    CallIs(P, n, base, v, l, h);
    var s := P.vmCall(v.stack[base], v.stack[base + 1..]);
    if r.Returns? {
      TwinPush(f.stack[..base], v.stack[..base], r.value, s.value);
      Waits(f, v, f.stack[..base] + [r.value], v.stack[..base] + [s.value]);
      RunTwin(f.(ip := f.ip + 1, stack := f.stack[..base] + [r.value]), v.(ip := f.ip + 1, stack := v.stack[..base] + [s.value]), k, l, g, h);
    } else {
      UnwindTwin(r.exn, s.exn, f, v, k, l, g, h);
    }
  }

  lemma NotFn(w: VmValue, v: VmValue)
    requires Twin(w, v)
    ensures w.VFn? == v.VFn?
  {
  }

  lemma PrimTwin(P: Prims, f: VmValue, h: VmValue, ws: seq<VmValue>, vs: seq<VmValue>) returns (r: PrimResult<VmValue>)
    requires PrimsBlind(P) && Twin(f, h) && TwinAll(ws, vs) && !f.VFn?
    ensures r == P.vmCall(f, ws)
    ensures if r.Returns? then P.vmCall(h, vs).Returns? && Twin(r.value, P.vmCall(h, vs).value)
            else P.vmCall(h, vs).Raises? && TwinExn(r.exn, P.vmCall(h, vs).exn)
  {
    r := P.vmCall(f, ws);
    hide Twin, TwinAll;
    assert TwinResult(r, P.vmCall(h, vs));
  }

  lemma CallFn(P: Prims, n: nat, base: nat, f: Frame, v: Frame, k: Callers, l: Callers, g: Globals, h: Globals)
    requires TwinFrame(f, v) && TwinCallers(k, l) && TwinGlobals(g, h)
    requires v.ip == f.ip && |f.stack| == |v.stack| && base == |f.stack| - n - 1
    requires TwinAll(f.stack[base + 1..], v.stack[base + 1..])
    requires TwinFrame(f.(ip := f.ip + 1, stack := f.stack[..base]), v.(ip := f.ip + 1, stack := v.stack[..base]))
    requires Twin(f.stack[base], v.stack[base]) && f.stack[base].VFn?
    ensures TwinConfig(Dispatch(P, n, f, k, g), Dispatch(P, n, v, l, h))
  {
    hide TwinFrame, TwinGlobals, Twin, NewFrame, ClearedModule, Made, TwinConfig, Dispatch, TwinCallers, TwinAll, Enterable, RaiseError;
    var w, u := f.stack[base], v.stack[base];
    FnParts(w, u);
    SameEntry(w, u, n);
    CallIsFn(P, n, base, f, k, g);
    CallIsFn(P, n, base, v, l, h);
    if Enterable(w.m, n, |w.caps|) {
      BeginTwin(w.m, f.stack[base + 1..], v.stack[base + 1..], w.caps, u.caps);
      CalleeTwin(NewFrame(w.m, f.stack[base + 1..], w.caps), NewFrame(u.m, v.stack[base + 1..], u.caps),
                 f.(ip := f.ip + 1, stack := f.stack[..base]), v.(ip := f.ip + 1, stack := v.stack[..base]), k, l, g, h);
    } else if Refusal(w.m, n, |w.caps|).Some? {
      RaiseTwin(Refusal(w.m, n, |w.caps|).value, f, v, k, l, g, h);
    } else {
      FaultTwin();
    }
  }

  lemma SameEntry(w: VmValue, u: VmValue, n: nat)
    requires w.VFn? && u.VFn? && u.m == ClearedModule(w.m) && TwinAll(w.caps, u.caps)
    ensures Enterable(u.m, n, |u.caps|) == Enterable(w.m, n, |w.caps|) && Refusal(u.m, n, |u.caps|) == Refusal(w.m, n, |w.caps|)
    ensures Enterable(w.m, n, |w.caps|) ==> w.m.arity == n && |w.caps| == |w.m.captures|
    ensures Enterable(w.m, n, |w.caps|) ==>
              forall j | 0 <= j < |w.m.captures| :: w.m.captures[j].localSlot < w.m.arity + w.m.localCount
    ensures |u.caps| == |w.caps|
  {
    ClearedShape(w.m);
    hide ClearedModule, Twin;
  }

  lemma FaultTwin()
    ensures TwinConfig(Fault, Fault)
  {
  }

  lemma CalleeTwin(f: Frame, v: Frame, f1: Frame, v1: Frame, k: Callers, l: Callers, g: Globals, h: Globals)
    requires TwinFrame(f, v) && TwinFrame(f1, v1) && TwinCallers(k, l) && TwinGlobals(g, h)
    ensures TwinConfig(Run(f, Caller(f1, k), g), Run(v, Caller(v1, l), h))
  {
    hide TwinFrame, TwinGlobals;
  }

  lemma FnParts(w: VmValue, u: VmValue)
    requires w.VFn? && Twin(w, u)
    ensures u.VFn? && Made(w.m) && u.m == ClearedModule(w.m) && TwinAll(w.caps, u.caps)
  {
    hide Made, ClearedModule;
  }

  lemma ReturnStep(f: Frame, v: Frame, k: Callers, l: Callers, g: Globals, h: Globals)
    requires TwinFrame(f, v) && TwinCallers(k, l) && TwinGlobals(g, h)
    ensures TwinConfig(ReturnFrom(f, k, g), ReturnFrom(v, l, h))
  {
    hide TwinGlobals, Twin, TwinFrame, TwinAll, TwinConfig, ReturnFrom;
    FrameParts(f, v);
    var w := if |f.stack| == 0 then VNil else TopOf(f);
    var u := if |v.stack| == 0 then VNil else TopOf(v);
    ResultTwin(f, v);
    ReturnsIn(f, k, g, w);
    ReturnsIn(v, l, h, u);
    if k.Top? { DoneTwin(w, u, g, h); } else { AnswerTwin(k, l, w, u, g, h); }
  }

  lemma ResultTwin(f: Frame, v: Frame)
    requires TwinAll(f.stack, v.stack)
    ensures Twin(if |f.stack| == 0 then VNil else TopOf(f), if |v.stack| == 0 then VNil else TopOf(v))
  {
    ConstTwin();
    hide Twin;
  }

  lemma ReturnsIn(f: Frame, k: Callers, g: Globals, w: VmValue)
    requires w == if |f.stack| == 0 then VNil else TopOf(f)
    ensures ReturnFrom(f, k, g) == if k.Top? then Done(w, g) else Run(k.frame.(stack := k.frame.stack + [w]), k.rest, g)
  {
  }

  /** The caller goes on with the value returned. */
  lemma AnswerTwin(k: Callers, l: Callers, w: VmValue, u: VmValue, g: Globals, h: Globals)
    requires k.Caller? && TwinCallers(k, l) && Twin(w, u) && TwinGlobals(g, h)
    ensures l.Caller?
    ensures TwinConfig(Run(k.frame.(stack := k.frame.stack + [w]), k.rest, g), Run(l.frame.(stack := l.frame.stack + [u]), l.rest, h))
  {
    hide TwinFrame, Twin, TwinGlobals, TwinConfig;
    Answered(k.frame, l.frame, w, u);
    RunTwin(k.frame.(stack := k.frame.stack + [w]), l.frame.(stack := l.frame.stack + [u]), k.rest, l.rest, g, h);
  }

  lemma DoneTwin(w: VmValue, u: VmValue, g: Globals, h: Globals)
    requires Twin(w, u) && TwinGlobals(g, h)
    ensures TwinConfig(Done(w, g), Done(u, h))
  {
    hide Twin, TwinGlobals;
  }

  lemma Answered(f: Frame, v: Frame, w: VmValue, u: VmValue)
    requires TwinFrame(f, v) && Twin(w, u)
    ensures TwinFrame(f.(stack := f.stack + [w]), v.(stack := v.stack + [u]))
  {
    TwinPush(f.stack, v.stack, w, u);
    hide Twin, SlotsTwin, HandlersAt, Laid, TwinAll, ClearedModule, TwinCaught, TwinJust;
  }

  lemma RethrowStep(P: Prims, f: Frame, v: Frame, k: Callers, l: Callers, g: Globals, h: Globals)
    requires TwinFrame(f, v) && TwinCallers(k, l) && TwinGlobals(g, h)
    requires f.ip < |f.m.code| && f.m.code[f.ip].Rethrow?
    ensures TwinConfig(Exec(P, f.m.code[f.ip], f, k, g), Exec(P, f.m.code[f.ip], v, l, h))
  {
    var s := f.m.code[f.ip].slot;
    HeldTwin(f, v, s);
    FaultTwin();
    RethrowIs(P, s, f, k, g);
    RethrowIs(P, s, v, l, h);
    hide Twin, TwinGlobals, TwinFrame, TwinCallers, TwinConfig, Exec;
    assert forall w, u :: Twin(w, u) ==> TwinExn(Managed(w, 0), Managed(u, 0));
    if s in f.caught {
      UnwindTwin(f.caught[s], v.caught[s], f, v, k, l, g, h);
    } else if s < |f.locals| {
      UnwindTwin(Managed(f.locals[s], 0), Managed(v.locals[s], 0), f, v, k, l, g, h);
    }
  }

  lemma HeldTwin(f: Frame, v: Frame, s: nat)
    requires TwinFrame(f, v) && f.m.code[f.ip] == Rethrow(s)
    ensures |v.locals| == |f.locals| && (s in f.caught <==> s in v.caught)
    ensures s in f.caught ==> TwinExn(f.caught[s], v.caught[s])
    ensures s < |f.locals| ==> Twin(f.locals[s], v.locals[s])
  {
    RethrowLive(f.m, s, f.ip, f.ip);
    hide Twin, TwinExn, HandlersAt, Laid, Dead, ClearedModule, TwinAll, TwinJust;
  }

  /** The innermost handler takes the exception in both. */
  lemma TakeStep(P: Prims, x: Exn<VmValue>, y: Exn<VmValue>, f: Frame, v: Frame, k: Callers, l: Callers, g: Globals, h: Globals)
    requires PrimsBlind(P) && TwinExn(x, y) && TwinFrame(f, v) && TwinCallers(k, l) && TwinGlobals(g, h) && |f.handlers| > 0
    ensures |v.handlers| > 0 && TwinConfig(TakeHandler(P, x, f, k, g), TakeHandler(P, y, v, l, h))
  {
    hide PrimsBlind, TwinGlobals, TwinCallers, TwinFrame, TwinConfig, Twin, TwinAll, VmCaughtValue, Step, Exec, TakeHandler;
    CaughtTwin(P, x, y);
    FrameParts(f, v);
    FaultTwin();
    TakeIs(P, x, f, k, g);
    TakeIs(P, y, v, l, h);
    var n := |f.handlers| - 1;
    var hd := f.handlers[n];
    var w, u := VmCaughtValue(P, x), VmCaughtValue(P, y);
    if hd.depth <= |f.stack| {
      TwinDrop(f.stack, v.stack, hd.depth);
      TwinPush(f.stack[..hd.depth], v.stack[..hd.depth], w, u);
      var ws, vs := f.stack[..hd.depth] + [w], v.stack[..hd.depth] + [u];
      var j, j1 := if x.Managed? then Some(x) else None, if y.Managed? then Some(y) else None;
      TakenTwin(f, v, ws, vs, j, j1);
      RunTwin(f.(ip := hd.target, stack := ws, handlers := f.handlers[..n], just := j),
              v.(ip := hd.target, stack := vs, handlers := f.handlers[..n], just := j1), k, l, g, h);
    }
  }

  lemma TakenTwin(f: Frame, v: Frame, ws: seq<VmValue>, vs: seq<VmValue>, j: Option<Exn<VmValue>>, j1: Option<Exn<VmValue>>)
    requires TwinFrame(f, v) && |f.handlers| > 0 && TwinAll(ws, vs) && TwinJust(j, j1)
    ensures var n := |f.handlers| - 1; var t := f.handlers[n].target;
            TwinFrame(f.(ip := t, stack := ws, handlers := f.handlers[..n], just := j),
                      v.(ip := t, stack := vs, handlers := f.handlers[..n], just := j1))
  {
    hide Twin, Laid, HandlersOf, ClearedModule, Dead, TwinAll, TwinJust, TwinCaught;
    SlotsTake(f.m, f.locals, v.locals, f.handlers, f.ip);
    hide SlotsTwin, HandlersAt;
  }

  lemma CaughtTwin(P: Prims, x: Exn<VmValue>, y: Exn<VmValue>)
    requires PrimsBlind(P) && TwinExn(x, y)
    ensures Twin(VmCaughtValue(P, x), VmCaughtValue(P, y)) && x.Managed? == y.Managed?
  {
    hide Twin;
  }

  lemma SlotsTake(m: Module, L: seq<VmValue>, N: seq<VmValue>, hs: seq<Handler>, i: nat)
    requires Laid(m) && i < |m.code| && SlotsTwin(m, L, N, i) && HandlersAt(m, hs, i) && |hs| > 0
    ensures var t := hs[|hs| - 1].target; t < |m.code| && SlotsTwin(m, L, N, t) && HandlersAt(m, hs[..|hs| - 1], t)
  {
    hide Body, Dead, Twin, HandlersOf;
    var p, fin, named := BodyOf(m);
    BodyShape(m, p, fin, named);
    var H := HandlersOf(m);
    HandlerAt(m, p, fin, named, H, i);
    forall s | 0 <= s < |L| && Dead(m, s, i) ensures Dead(m, s, hs[|hs| - 1].target) {
      DeadCaught(m, p, fin, named, H, s, i, H[i][|H[i]| - 1]);
    }
  }

  /** One instruction, on both sides. */
  lemma ExecStep(P: Prims, f: Frame, v: Frame, k: Callers, l: Callers, g: Globals, h: Globals)
    requires PrimsBlind(P) && TwinFrame(f, v) && TwinCallers(k, l) && TwinGlobals(g, h)
    ensures v.ip < |v.m.code| && TwinConfig(Exec(P, f.m.code[f.ip], f, k, g), Exec(P, v.m.code[v.ip], v, l, h))
  {
    hide TwinConfig, TwinCallers, TwinGlobals, PrimsBlind, Eligible;
    FrameParts(f, v);
    SameInstr(f, v);
    AtEnd(f, v);
    hide TwinFrame, ClearedModule, Exec, TwinAll, Twin;
    var i := f.m.code[f.ip];
    if i.Return? { NotRead(f.m, f.ip); ReturnIs(P, f, v, k, l, g, h); ReturnStep(f, v, k, l, g, h); return; }
    if i.PushLocal? { ReadStep(P, f, v, k, l, g, h); return; }
    if i.MakeFn? { MakeStep(P, f, v, k, l, g, h); return; }
    NotRead(f.m, f.ip);
    assert v.m.code[v.ip] == i;
    if i.Rethrow? {
      RethrowStep(P, f, v, k, l, g, h);
    } else if i.Invoke? {
      CallStep(P, i.argc, f, v, k, l, g, h);
    } else {
      OtherStep(P, f, v, k, l, g, h);
    }
  }

  lemma ReturnIs(P: Prims, f: Frame, v: Frame, k: Callers, l: Callers, g: Globals, h: Globals)
    ensures Exec(P, Return, f, k, g) == ReturnFrom(f, k, g) && Exec(P, Return, v, l, h) == ReturnFrom(v, l, h)
  {
    hide ReturnFrom;
  }

  lemma AtEnd(f: Frame, v: Frame)
    requires TwinFrame(f, v)
    ensures f.m.code[f.ip].Return? || f.ip < |f.m.code| - 1
    ensures f.ip < |f.m.code| - 1 ==> !f.m.code[f.ip].PushLocalClear?
  {
    hide Made;
    var p, fin, named := BodyOf(f.m);
  }

  lemma OtherStep(P: Prims, f: Frame, v: Frame, k: Callers, l: Callers, g: Globals, h: Globals)
    requires PrimsBlind(P) && TwinFrame(f, v) && TwinCallers(k, l) && TwinGlobals(g, h)
    requires f.ip < |f.m.code| - 1
    requires var i := f.m.code[f.ip]; !i.PushLocal? && !i.PushLocalClear? && !i.MakeFn? && !i.Return? && !i.Rethrow? && !i.Invoke?
    ensures TwinConfig(Exec(P, f.m.code[f.ip], f, k, g), Exec(P, f.m.code[f.ip], v, l, h))
  {
    hide TwinConfig, TwinCallers, TwinGlobals, PrimsBlind, TwinFrame, Exec;
    var i := f.m.code[f.ip];
    if i.StoreLocal? { StoreStep(P, f, v, k, l, g, h); }
    else if i.StoreCaught? { CaughtStep(P, f, v, k, l, g, h); }
    else if i.TryBegin? || i.TryEnd? { TryStep(P, f, v, k, l, g, h); }
    else if i.Jump? || i.JumpIfFalse? || i.JumpIfTrue? || i.JumpBack? { JumpStep(P, f, v, k, l, g, h); }
    else { StackStep(P, f, v, k, l, g, h); }
  }

  lemma StepTwin(P: Prims, c: Config, d: Config)
    requires PrimsBlind(P) && TwinConfig(c, d)
    ensures TwinConfig(Step(P, c), Step(P, d))
  {
    hide PrimsBlind, Exec, Twin, TwinGlobals, TwinExn;
    match c
    case Run(f, k, g) =>
      FrameParts(f, d.f);
      ExecStep(P, f, d.f, k, d.k, g, d.g);
      hide TwinFrame, TwinConfig;
    case Unwind(x, k, g) =>
      if k.Caller? {
        FrameParts(k.frame, d.k.frame);
        if |k.frame.handlers| > 0 { TakeStep(P, x, d.x, k.frame, d.k.frame, k.rest, d.k.rest, g, d.g); }
      }
      hide TwinFrame;
    case _ =>
  }

  lemma {:induction false} StepsTwin(P: Prims, c: Config, d: Config, n: nat)
    requires PrimsBlind(P) && TwinConfig(c, d)
    ensures TwinConfig(Steps(P, c, n), Steps(P, d, n))
    decreases n
  {
    hide TwinConfig, PrimsBlind;
    if n > 0 {
      StepTwin(P, c, d);
      StepsTwin(P, Step(P, c), Step(P, d), n - 1);
    }
  }

  /** A module with no scope of its own has no locals to clear. */
  lemma TopLaid(e: Form)
    requires Check(e, NoLoop, true) == None
    ensures Laid(TopModule(e))
  {
    hide Fit, Compile, Check;
    var r := Compile(e, NoScope, NoTarget, 0);
    var m := TopModule(e);
    var fin := Scope(map[], 0, []);
    assert m.code[0..|r.code|] == r.code;
    LiesForm(m.code, fin, e, NoLoop, NoScope, NoTarget, 0, []);
    assert SlotSet(Upto(0)) == {};
    assert LaidIn(m, 0, fin, {});
  }

  lemma StartTwin(m: Module, g: Globals, h: Globals)
    requires Laid(m) && TwinGlobals(g, h)
    ensures TwinConfig(Start(m, g), Start(ClearedModule(m), h))
  {
    hide Body, Laid, Twin, Dead;
    var p, fin, named := BodyOf(m);
    BodyShape(m, p, fin, named);
    hide HandlersOf;
  }

  /** A program run on cleared code is, after every step, the run on the code
      as compiled, but for functions' bodies and slots that will not be read;
      so it ends, when it does, with the same value or exception. */
  lemma ClearingKeepsRuns(P: Prims, e: Form, g: Globals, h: Globals, n: nat)
    requires PrimsBlind(P) && Check(e, NoLoop, true) == None && TwinGlobals(g, h)
    ensures TwinConfig(Steps(P, Start(TopModule(e), g), n), Steps(P, Start(ClearedModule(TopModule(e)), h), n))
  {
    hide TwinConfig, PrimsBlind, TwinGlobals, Laid, Check;
    TopLaid(e);
    StartTwin(TopModule(e), g, h);
    StepsTwin(P, Start(TopModule(e), g), Start(ClearedModule(TopModule(e)), h), n);
  }

  /** Code with no scope of its own reads no slot. */
  lemma TopReads(e: Form)
    requires Check(e, NoLoop, true) == None
    ensures forall i | 0 <= i < |TopModule(e).code| :: !TopModule(e).code[i].PushLocal?
  {
    hide Fit, Compile, Check;
    var r := Compile(e, NoScope, NoTarget, 0);
    var m := TopModule(e);
    var fin := Scope(map[], 0, []);
    assert m.code[0..|r.code|] == r.code;
    LiesForm(m.code, fin, e, NoLoop, NoScope, NoTarget, 0, []);
    assert Lies(m.code, fin, 0, |r.code|, NoScope, r.sc, NoTarget, []);
    NothingRead(m.code, fin, |r.code|);
  }

  lemma NothingRead(C: seq<Instr>, fin: Scope, hi: nat)
    requires Fit(C, fin, Part(0, hi, 0, 0), NoTarget, {}, {}, Ends([], [], hi, []))
    ensures hi <= |C| && forall i | 0 <= i < hi :: !C[i].PushLocal?
  {
    var H: Active, Ex: Active :| Fits(C, fin, Part(0, hi, 0, 0), NoTarget, {}, {}, Ends([], [], hi, []), H, Ex);
  }
}
