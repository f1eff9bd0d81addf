/** The code each form compiles to, and the scopes it leaves: what the
    Compiler class computes by emitting and patching. Every jump is the length
    of the code it passes over. */
module Codegen {
  import opened Options
  import opened Syntax
  import opened Bytecode

  /** One per fn being compiled. Slots are never reused, so `nextSlot` only
      grows; `names` is what the code compiled next can see. */
  datatype Scope = Scope(names: map<string, nat>, nextSlot: nat, captures: seq<Capture>)

  /** The active scopes, innermost first; none at the top level. */
  datatype Scopes = NoScope | Inner(top: Scope, outer: Scopes)

  /** Where `recur` jumps back to and the slots it stores. */
  datatype Target = NoTarget | Target(start: nat, slots: seq<nat>)

  function Depth(sc: Scopes): nat { if sc.NoScope? then 0 else 1 + Depth(sc.outer) }

  datatype Piece = Piece(code: seq<Instr>, sc: Scopes)

  datatype Resolved = NotLocal | Local(slot: nat, sc: Scopes)

  /** The slot of `x` in the innermost scope, capturing it through every scope
      between that one and the one that binds it. */
  function Resolve(x: string, sc: Scopes): (r: Resolved)
    ensures r.Local? ==> Depth(r.sc) == Depth(sc) > 0
  {
    match sc
    case NoScope => NotLocal
    case Inner(top, outer) =>
      if x in top.names then Local(top.names[x], sc) else
      match Resolve(x, outer)
      case NotLocal => NotLocal
      case Local(p, outer') => Local(top.nextSlot, Inner(AddCapture(top, x, p), outer'))
  }

  function AddCapture(top: Scope, x: string, parentSlot: nat): Scope {
    Scope(top.names[x := top.nextSlot], top.nextSlot + 1,
          top.captures + [Capture(x, parentSlot, top.nextSlot)])
  }

  /** A fresh slot of the innermost scope for `x`. */
  function Bind(sc: Scopes, x: string): Scopes
    requires sc.Inner?
  {
    sc.(top := Scope(sc.top.names[x := sc.top.nextSlot], sc.top.nextSlot + 1, sc.top.captures))
  }

  /** A fresh slot with no name: the exception a handler stores. */
  function Reserve(sc: Scopes): Scopes
    requires sc.Inner?
  {
    sc.(top := sc.top.(nextSlot := sc.top.nextSlot + 1))
  }

  function Alias(sc: Scopes, x: string, slot: nat): Scopes
    requires sc.Inner?
  {
    sc.(top := sc.top.(names := sc.top.names[x := slot]))
  }

  /** `sc` with `x` naming again what it named in `before`. */
  function Restore(sc: Scopes, x: string, before: Scopes): Scopes
    requires sc.Inner? && before.Inner?
  {
    var names := sc.top.names;
    sc.(top := sc.top.(names :=
      if x in before.top.names then names[x := before.top.names[x]] else names - {x}))
  }

  /** The scope a fn body starts in: parameters in slots 0, 1, ... */
  function ParamScope(params: seq<string>): Scope {
    Scope(ParamNames(params, |params|), |params|, [])
  }

  function ParamNames(params: seq<string>, n: nat): map<string, nat>
    requires n <= |params|
  {
    if n == 0 then map[] else ParamNames(params, n - 1)[params[n - 1] := n - 1]
  }

  function Upto(n: nat): seq<nat> { seq(n, i => i) }

  /** The module of a body compiled to `r` in a scope of its own. */
  function FnModule(r: Piece, arity: nat): Module
    requires r.sc.Inner?
  {
    Module(r.code + [Return], arity, LocalCount(r.sc.top, arity), r.sc.top.captures)
  }

  function LocalCount(top: Scope, arity: nat): nat {
    if top.nextSlot >= arity then top.nextSlot - arity else 0
  }

  /** Reads the captured locals of the enclosing frame, in capture order. */
  function ReadCaptures(caps: seq<Capture>): seq<Instr> {
    seq(|caps|, i requires 0 <= i < |caps| => PushLocal(caps[i].parentSlot))
  }

  /** STORE_LOCAL of slots `n`-1 down to 0. */
  function StoresDown(slots: seq<nat>, n: nat): seq<Instr>
    requires n <= |slots|
  {
    if n == 0 then [] else [StoreLocal(slots[n - 1])] + StoresDown(slots, n - 1)
  }

  function PushLiteral(c: Const): Instr {
    match c case CNil => PushNil case CTrue => PushTrue case CFalse => PushFalse case CAtom(_) => PushConst(c)
  }

  /** The code of `e` at position `pos`, where `recur` means `rt`. */
  function Compile(e: Form, sc: Scopes, rt: Target, pos: nat): (r: Piece)
    ensures Depth(r.sc) == Depth(sc)
    decreases e, if sc.NoScope? then 2 else 1
  {
    match e
    case Lit(c) => Piece([PushLiteral(c)], sc)
    case Quote(c) => Piece([PushLiteral(c)], sc)
    case Sym(x) =>
      (match Resolve(x, sc)
       case NotLocal => Piece([PushVar(x)], sc)
       case Local(slot, sc1) => Piece([PushLocal(slot)], sc1))
    case Global(x) => Piece([PushVar(x)], sc)
    case Def(x, init) =>
      var r := Compile(init, sc, rt, pos);
      Piece(r.code + [StoreGlobal(x)], r.sc)
    case If(test, thn, els) =>
      (match LiteralTest(test)
       case Some(b) => if b then Compile(thn, sc, rt, pos) else CompileElse(els, sc, rt, pos)
       case None =>
         var c := Compile(test, sc, rt, pos);
         var t := Compile(thn, c.sc, rt, pos + |c.code| + 1);
         var f := CompileElse(els, t.sc, rt, pos + |c.code| + 1 + |t.code| + 1);
         Piece(c.code + [JumpIfFalse(|t.code| + 1)] + t.code + [Jump(|f.code|)] + f.code, f.sc))
    case Do(es) => CompileBody(es, 0, sc, rt, pos)
    case And(es) => if |es| == 0 then Piece([PushTrue], sc) else CompileChain(es, 0, true, sc, rt, pos)
    case Or(es) => if |es| == 0 then Piece([PushNil], sc) else CompileChain(es, 0, false, sc, rt, pos)
    case Let(_, _) => if sc.NoScope? then CompileThunk(e, sc) else CompileLet(e, 0, sc, rt, pos)
    case Loop(_, _) => if sc.NoScope? then CompileThunk(e, sc) else CompileLoop(e, 0, [], sc, rt, pos)
    case Recur(args) =>
      var a := CompileArgs(args, 0, sc, rt, pos);
      if rt.NoTarget? || |rt.slots| < |args| then a else
      var at := pos + |a.code| + |args|;
      Piece(a.code + StoresDown(rt.slots, |args|) +
            [JumpBack(if rt.start <= at then at + 1 - rt.start else 0)], a.sc)
    case Fn(params, body) =>
      var r := CompileFn(params, body, sc);
      Piece(ReadCaptures(r.sc.top.captures) + [MakeFn(FnModule(r, |params|))], r.sc.outer)
    case Call(head, args) =>
      var h := Compile(head, sc, rt, pos);
      var a := CompileArgs(args, 0, h.sc, rt, pos + |h.code|);
      Piece(h.code + a.code + [Invoke(|args|)], a.sc)
    case Throw(x) =>
      var r := Compile(x, sc, rt, pos);
      Piece(r.code + [Raise], r.sc)
    case Try(body, catches, fin) =>
      if sc.NoScope? then CompileThunk(e, sc)
      else if fin.NoFinally? then CompileCatches(e, sc, pos)
      else
        var t := CompileCatches(e, sc, pos + 1);
        var n := CompileEffects(fin.forms, 0, t.sc, pos + 1 + |t.code| + 1);
        var slot := n.sc.top.nextSlot;
        var x := CompileEffects(fin.forms, 0, Reserve(n.sc), pos + 1 + |t.code| + 1 + |n.code| + 1 + 1);
        Piece([TryBegin(|t.code| + 1 + |n.code| + 1)] + t.code + [TryEnd] + n.code + [Jump(|x.code| + 2)] +
              [StoreCaught(slot)] + x.code + [Rethrow(slot)], x.sc)
  }

  /** A fn body in a scope of its own; the code position starts at 0 again. */
  function CompileFn(params: seq<string>, body: seq<Form>, sc: Scopes): (r: Piece)
    ensures Depth(r.sc) == 1 + Depth(sc)
    decreases body, |body| + 1
  {
    CompileBody(body, 0, Inner(ParamScope(params), sc), Target(0, Upto(|params|)), 0)
  }

  function CompileElse(els: Option<Form>, sc: Scopes, rt: Target, pos: nat): (r: Piece)
    ensures Depth(r.sc) == Depth(sc)
    decreases els, 3
  {
    if els.Some? then Compile(els.value, sc, rt, pos) else Piece([PushNil], sc)
  }

  /** A top-level form that needs slots: `((fn [] e))`. */
  function CompileThunk(e: Form, sc: Scopes): (r: Piece)
    requires sc.NoScope? && (e.Let? || e.Loop? || e.Try?)
    ensures Depth(r.sc) == Depth(sc)
    decreases e, 2, 0
  {
    var r := Compile(e, Inner(ParamScope([]), sc), Target(0, []), 0);
    Piece([MakeFn(FnModule(r, 0)), Invoke(0)], sc)
  }

  /** The forms of `es` from the `i`-th on, all but the last popped. */
  function CompileBody(es: seq<Form>, i: nat, sc: Scopes, rt: Target, pos: nat): (r: Piece)
    requires i <= |es|
    ensures Depth(r.sc) == Depth(sc)
    decreases es, |es| - i
  {
    if i == |es| then Piece([PushNil], sc)
    else if i + 1 == |es| then Compile(es[i], sc, rt, pos)
    else
      var c := Compile(es[i], sc, rt, pos);
      var rest := CompileBody(es, i + 1, c.sc, rt, pos + |c.code| + 1);
      Piece(c.code + [Pop] + rest.code, rest.sc)
  }

  /** Forms evaluated for effect. */
  function CompileEffects(es: seq<Form>, i: nat, sc: Scopes, pos: nat): (r: Piece)
    requires i <= |es|
    ensures Depth(r.sc) == Depth(sc)
    decreases es, |es| - i
  {
    if i == |es| then Piece([], sc)
    else
      var c := Compile(es[i], sc, NoTarget, pos);
      var rest := CompileEffects(es, i + 1, c.sc, pos + |c.code| + 1);
      Piece(c.code + [Pop] + rest.code, rest.sc)
  }

  /** `and` (or `or`) from the `i`-th operand on: a falsey (truthy) value short
      of the last jumps to the end. */
  function CompileChain(es: seq<Form>, i: nat, conj: bool, sc: Scopes, rt: Target, pos: nat): (r: Piece)
    requires i < |es|
    ensures Depth(r.sc) == Depth(sc)
    decreases es, |es| - i
  {
    var c := Compile(es[i], sc, rt, pos);
    if i + 1 == |es| then c else
    var rest := CompileChain(es, i + 1, conj, c.sc, rt, pos + |c.code| + 3);
    var over := |rest.code| + 1;
    Piece(c.code + [Dup, if conj then JumpIfFalse(over) else JumpIfTrue(over), Pop] + rest.code, rest.sc)
  }

  function CompileArgs(es: seq<Form>, i: nat, sc: Scopes, rt: Target, pos: nat): (r: Piece)
    requires i <= |es|
    ensures Depth(r.sc) == Depth(sc)
    decreases es, |es| - i
  {
    if i == |es| then Piece([], sc) else
    var c := Compile(es[i], sc, rt, pos);
    var rest := CompileArgs(es, i + 1, c.sc, rt, pos + |c.code|);
    Piece(c.code + rest.code, rest.sc)
  }

  /** The bindings of a `let` from the `i`-th on, its body, and the names the
      bindings shadowed restored, last binding first. */
  function CompileLet(e: Form, i: nat, sc: Scopes, rt: Target, pos: nat): (r: Piece)
    requires e.Let? && sc.Inner? && i <= |e.bs|
    ensures Depth(r.sc) == Depth(sc)
    decreases e, 0, |e.bs| - i
  {
    if i == |e.bs| then CompileBody(e.body, 0, sc, rt, pos) else
    var c := Compile(e.bs[i].init, sc, rt, pos);
    var rest := CompileLet(e, i + 1, Bind(c.sc, e.bs[i].name), rt, pos + |c.code| + 1);
    Piece(c.code + [StoreLocal(c.sc.top.nextSlot)] + rest.code, Restore(rest.sc, e.bs[i].name, c.sc))
  }

  function CompileLoop(e: Form, i: nat, slots: seq<nat>, sc: Scopes, rt: Target, pos: nat): (r: Piece)
    requires e.Loop? && sc.Inner? && i <= |e.bs|
    ensures Depth(r.sc) == Depth(sc)
    decreases e, 0, |e.bs| - i
  {
    if i == |e.bs| then CompileBody(e.body, 0, sc, Target(pos, slots), pos) else
    var c := Compile(e.bs[i].init, sc, rt, pos);
    var slot := c.sc.top.nextSlot;
    var rest := CompileLoop(e, i + 1, slots + [slot], Bind(c.sc, e.bs[i].name), rt, pos + |c.code| + 1);
    Piece(c.code + [StoreLocal(slot)] + rest.code, Restore(rest.sc, e.bs[i].name, c.sc))
  }

  /** The body of a `try` and its catch clauses. Nothing in a `try` can recur
      out of it. */
  function CompileCatches(e: Form, sc: Scopes, pos: nat): (r: Piece)
    requires e.Try? && sc.Inner?
    ensures Depth(r.sc) == Depth(sc)
    decreases e, 0
  {
    if |e.catches| == 0 then CompileBody(e.body, 0, sc, NoTarget, pos) else
    var b := CompileBody(e.body, 0, sc, NoTarget, pos + 1);
    var slot := b.sc.top.nextSlot;
    var c := CompileClauses(e.catches, 0, slot, Reserve(b.sc), pos + 1 + |b.code| + 2 + 1);
    Piece([TryBegin(|b.code| + 2)] + b.code + [TryEnd, Jump(|c.code| + 2)] +
          [StoreCaught(slot)] + c.code + [Rethrow(slot)], c.sc)
  }

  function CompileClauses(cs: seq<Clause>, i: nat, slot: nat, sc: Scopes, pos: nat): (r: Piece)
    requires sc.Inner? && i <= |cs|
    ensures Depth(r.sc) == Depth(sc)
    decreases cs, |cs| - i
  {
    if i == |cs| then Piece([], sc) else
    var b := CompileBody(cs[i].body, 0, Alias(sc, cs[i].name, slot), NoTarget, pos + 3);
    var rest := CompileClauses(cs, i + 1, slot, Restore(b.sc, cs[i].name, sc), pos + 3 + |b.code| + 1);
    Piece([PushLocal(slot), ExcMatch(cs[i].classId), JumpIfFalse(|b.code| + 1)] +
          b.code + [Jump(|rest.code| + 1)] + rest.code, rest.sc)
  }

  /** The module a top-level form is compiled to. */
  function TopModule(e: Form): Module {
    Module(Compile(e, NoScope, NoTarget, 0).code + [Return], 0, 0, [])
  }

  /** A literal test is decided while compiling: nil and false take the else
      branch, any other the other one, and only the branch taken is checked or
      has code. A test that is no literal has its code. */
  lemma LiteralDecided(c: Const, thn: Form, els: Option<Form>, sc: Scopes, rt: Target, pos: nat, rc: RecurCtx, top: bool)
    ensures var e := If(Lit(c), thn, els);
            if c != CNil && c != CFalse then Compile(e, sc, rt, pos) == Compile(thn, sc, rt, pos) && Check(e, rc, top) == Check(thn, rc, top)
            else if els.Some? then
              Compile(e, sc, rt, pos) == Compile(els.value, sc, rt, pos) && Check(e, rc, top) == Check(els.value, rc, top)
            else Compile(e, sc, rt, pos) == Piece([PushNil], sc) && Check(e, rc, top) == None
  {
  }

  lemma OtherTested(test: Form, thn: Form, els: Option<Form>, sc: Scopes, rt: Target, pos: nat)
    requires !test.Lit?
    ensures var t, all := Compile(test, sc, rt, pos).code, Compile(If(test, thn, els), sc, rt, pos).code;
            |t| < |all| && t <= all && all[|t|].JumpIfFalse?
  {
  }
}
