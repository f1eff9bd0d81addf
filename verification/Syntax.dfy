/** The language the compiler reads, after macro expansion: one constructor per
    special form the compiler dispatches on, plus literals, symbols and calls. */
module Syntax {

  import opened Options

  /** A literal. `CAtom` stands for every literal that is neither nil nor a
      boolean (numbers, strings, keywords, quoted data), by identity. */
  datatype Const = CNil | CTrue | CFalse | CAtom(atom: int)

  datatype Binding = Binding(name: string, init: Form)

  /** `(catch Class name body*)` for a built-in class. */
  datatype Clause = Clause(classId: nat, name: string, body: seq<Form>)

  datatype Finally = NoFinally | Finally(forms: seq<Form>)

  datatype Form =
    | Lit(c: Const)
    | Quote(c: Const)
    | Sym(name: string)
    | Global(name: string)   // `clojure.core/x`, `user/x`: never a local
    | Def(name: string, init: Form)
    | If(test: Form, thn: Form, els: Option<Form>)
    | Do(es: seq<Form>)
    | And(es: seq<Form>)
    | Or(es: seq<Form>)
    | Let(bs: seq<Binding>, body: seq<Form>)
    | Loop(bs: seq<Binding>, body: seq<Form>)
    | Recur(args: seq<Form>)
    | Fn(params: seq<string>, body: seq<Form>)
    | Call(head: Form, args: seq<Form>)
    | Throw(e: Form)
    | Try(body: seq<Form>, catches: seq<Clause>, fin: Finally)

  /** What the compiler knows of an `if` test without running it. */
  function LiteralTest(test: Form): Option<bool> {
    if test.Lit? then Some(test.c != CNil && test.c != CFalse) else None
  }

  datatype CompileError = RecurOutsideLoop | RecurAcrossTry | RecurArity

  /** The recur target in force: none, or one of `arity` locals, reached across
      a `try` or not. */
  datatype RecurCtx = NoLoop | InLoop(arity: nat, acrossTry: bool)

  function IntoTry(rc: RecurCtx): RecurCtx {
    if rc.InLoop? then rc.(acrossTry := true) else rc
  }

  /** The first error compiling `e` reports, if any. At the top level
      (`top`) a `let`, `loop` or `try` is compiled as a fn of no parameters. */
  function Check(e: Form, rc: RecurCtx, top: bool): Option<CompileError>
    decreases e, if top then 1 else 0
  {
    match e
    case Lit(_) => None
    case Quote(_) => None
    case Sym(_) => None
    case Global(_) => None
    case Def(_, init) => Check(init, rc, top)
    case If(test, thn, els) =>
      (match LiteralTest(test)
       case Some(b) =>
         if b then Check(thn, rc, top) else if els.Some? then Check(els.value, rc, top) else None
       case None =>
         var r := Check(test, rc, top);
         if r.Some? then r else
         var r2 := Check(thn, rc, top);
         if r2.Some? then r2 else
         if els.Some? then Check(els.value, rc, top) else None)
    case Do(es) => CheckAll(es, 0, rc, top)
    case And(es) => CheckAll(es, 0, rc, top)
    case Or(es) => CheckAll(es, 0, rc, top)
    case Let(bs, body) =>
      if top then Check(e, InLoop(0, false), false) else
      var r := CheckInits(bs, 0, rc);
      if r.Some? then r else CheckAll(body, 0, rc, false)
    case Loop(bs, body) =>
      if top then Check(e, InLoop(0, false), false) else
      var r := CheckInits(bs, 0, rc);
      if r.Some? then r else CheckAll(body, 0, InLoop(|bs|, false), false)
    case Recur(args) =>
      if top || rc.NoLoop? then Some(RecurOutsideLoop)
      else if rc.acrossTry then Some(RecurAcrossTry)
      else if |args| != rc.arity then Some(RecurArity)
      else CheckAll(args, 0, rc, top)
    case Fn(params, body) => CheckAll(body, 0, InLoop(|params|, false), false)
    case Call(head, args) =>
      var r := Check(head, rc, top);
      if r.Some? then r else CheckAll(args, 0, rc, top)
    case Throw(x) => Check(x, rc, top)
    case Try(body, catches, fin) =>
      if top then Check(e, InLoop(0, false), false) else
      var r := CheckAll(body, 0, IntoTry(rc), false);
      if r.Some? then r else
      var r2 := CheckClauses(catches, 0, IntoTry(rc));
      if r2.Some? then r2 else
      if fin.Finally? then CheckAll(fin.forms, 0, IntoTry(rc), false) else None
  }

  function CheckAll(es: seq<Form>, i: nat, rc: RecurCtx, top: bool): Option<CompileError>
    requires i <= |es|
    decreases es, |es| - i
  {
    if i == |es| then None else
    var r := Check(es[i], rc, top);
    if r.Some? then r else CheckAll(es, i + 1, rc, top)
  }

  function CheckInits(bs: seq<Binding>, i: nat, rc: RecurCtx): Option<CompileError>
    requires i <= |bs|
    decreases bs, |bs| - i
  {
    if i == |bs| then None else
    var r := Check(bs[i].init, rc, false);
    if r.Some? then r else CheckInits(bs, i + 1, rc)
  }

  function CheckClauses(cs: seq<Clause>, i: nat, rc: RecurCtx): Option<CompileError>
    requires i <= |cs|
    decreases cs, |cs| - i
  {
    if i == |cs| then None else
    var r := CheckAll(cs[i].body, 0, rc, false);
    if r.Some? then r else CheckClauses(cs, i + 1, rc)
  }

  /** The end of the code of `e` is reached from its start, as far as the
      instructions tell: every branch but a literal `if`'s may be taken. At the
      top level a `let`, `loop` or `try` is a call. */
  predicate Leaves(e: Form, top: bool) {
    match e
    case Def(_, init) => Leaves(init, top)
    case If(test, thn, els) =>
      (match LiteralTest(test)
       case Some(b) => if b then Leaves(thn, top) else els.Some? ==> Leaves(els.value, top)
       case None => Leaves(test, top) && (Leaves(thn, top) || (els.Some? ==> Leaves(els.value, top))))
    case Do(es) => LeavesAll(es, 0, top)
    case And(es) => |es| > 0 ==> Leaves(es[0], top)
    case Or(es) => |es| > 0 ==> Leaves(es[0], top)
    case Let(bs, body) => top || (LeavesInits(bs, 0) && LeavesAll(body, 0, false))
    case Loop(bs, body) => top || (LeavesInits(bs, 0) && LeavesAll(body, 0, false))
    case Recur(_) => false
    case Call(head, args) => Leaves(head, top) && LeavesAll(args, 0, top)
    case Throw(_) => false
    case Try(body, catches, fin) =>
      top || ((LeavesAll(body, 0, false) || LeavesClause(catches, 0)) && (fin.Finally? ==> LeavesAll(fin.forms, 0, false)))
    case _ => true
  }

  predicate LeavesAll(es: seq<Form>, i: nat, top: bool)
    requires i <= |es|
    decreases es, |es| - i
  {
    i < |es| ==> Leaves(es[i], top) && LeavesAll(es, i + 1, top)
  }

  predicate LeavesInits(bs: seq<Binding>, i: nat)
    requires i <= |bs|
    decreases bs, |bs| - i
  {
    i < |bs| ==> Leaves(bs[i].init, false) && LeavesInits(bs, i + 1)
  }

  /** Some clause from the `i`-th on leaves. */
  predicate LeavesClause(cs: seq<Clause>, i: nat)
    requires i <= |cs|
    decreases cs, |cs| - i
  {
    i < |cs| && (LeavesAll(cs[i].body, 0, false) || LeavesClause(cs, i + 1))
  }

  /** No `recur` that is reached has operands pending since its target. `t`
      says whether `e` itself starts with none pending, `live` whether it is
      reached at all. The compiler does not check this
      (Counterexamples.RecurInArgumentGrowsStack). */
  predicate Level(e: Form, t: bool, live: bool, top: bool) {
    match e
    case Def(_, init) => Level(init, t, live, top)
    case If(test, thn, els) =>
      (match LiteralTest(test)
       case Some(b) => if b then Level(thn, t, live, top) else els.Some? ==> Level(els.value, t, live, top)
       case None =>
         && Level(test, t, live, top) && Level(thn, t, live && Leaves(test, top), top)
         && (els.Some? ==> Level(els.value, t, live && Leaves(test, top), top)))
    case Do(es) => LevelAll(es, 0, t, t, live, top)
    case And(es) => LevelAll(es, 0, t, t, live, top)
    case Or(es) => LevelAll(es, 0, t, t, live, top)
    case Let(bs, body) =>
      !top && LevelInits(bs, 0, t, live) && LevelAll(body, 0, t, t, live && LeavesInits(bs, 0), false)
    case Loop(bs, body) =>
      !top && LevelInits(bs, 0, t, live) && LevelAll(body, 0, true, true, live && LeavesInits(bs, 0), false)
    case Recur(args) => (live && LeavesAll(args, 0, top) ==> t) && LevelAll(args, 0, t, false, live, top)
    case Fn(_, body) => LevelAll(body, 0, true, true, true, false)
    case Call(head, args) => Level(head, t, live, top) && LevelAll(args, 0, false, false, live && Leaves(head, top), top)
    case Throw(x) => Level(x, t, live, top)
    case Try(body, catches, fin) =>
      && !top && LevelAll(body, 0, false, false, live, false) && LevelClauses(catches, 0, live)
      && (fin.Finally? ==> LevelAll(fin.forms, 0, false, false, live, false))
    case _ => true
  }

  /** Forms one after the other; after the first `next` stands for `t`. */
  predicate LevelAll(es: seq<Form>, i: nat, t: bool, next: bool, live: bool, top: bool)
    requires i <= |es|
    decreases es, |es| - i
  {
    i < |es| ==> Level(es[i], t, live, top) && LevelAll(es, i + 1, next, next, live && Leaves(es[i], top), top)
  }

  predicate LevelInits(bs: seq<Binding>, i: nat, t: bool, live: bool)
    requires i <= |bs|
    decreases bs, |bs| - i
  {
    i < |bs| ==> Level(bs[i].init, t, live, false) && LevelInits(bs, i + 1, t, live && Leaves(bs[i].init, false))
  }

  predicate LevelClauses(cs: seq<Clause>, i: nat, live: bool)
    requires i <= |cs|
    decreases cs, |cs| - i
  {
    i < |cs| ==> LevelAll(cs[i].body, 0, false, false, live, false) && LevelClauses(cs, i + 1, live)
  }

  /** `e` at the top level, where a `let`, `loop` or `try` stands for a call of
      a fn of no parameters around it. */
  function AtTop(e: Form): Form {
    match e
    case Def(x, init) => Def(x, AtTop(init))
    case If(test, thn, els) => If(AtTop(test), AtTop(thn), if els.Some? then Some(AtTop(els.value)) else None)
    case Do(es) => Do(AllAtTop(es))
    case And(es) => And(AllAtTop(es))
    case Or(es) => Or(AllAtTop(es))
    case Let(_, _) => Call(Fn([], [e]), [])
    case Loop(_, _) => Call(Fn([], [e]), [])
    case Try(_, _, _) => Call(Fn([], [e]), [])
    case Call(head, args) => Call(AtTop(head), AllAtTop(args))
    case Throw(x) => Throw(AtTop(x))
    case _ => e
  }

  function AllAtTop(es: seq<Form>): seq<Form> {
    seq(|es|, i requires 0 <= i < |es| => AtTop(es[i]))
  }

  /** No `let`, `loop` or `try` but in the body of a fn. */
  predicate Lifted(e: Form) {
    match e
    case Def(_, init) => Lifted(init)
    case If(test, thn, els) => Lifted(test) && Lifted(thn) && (els.Some? ==> Lifted(els.value))
    case Do(es) => forall i | 0 <= i < |es| :: Lifted(es[i])
    case And(es) => forall i | 0 <= i < |es| :: Lifted(es[i])
    case Or(es) => forall i | 0 <= i < |es| :: Lifted(es[i])
    case Let(_, _) => false
    case Loop(_, _) => false
    case Try(_, _, _) => false
    case Call(head, args) => Lifted(head) && forall i | 0 <= i < |args| :: Lifted(args[i])
    case Throw(x) => Lifted(x)
    case _ => true
  }

  /** The compiler accepts `e`, and no `recur` in it that is reached has
      operands pending (DepthLimit.DepthsExist: exactly then its bodies
      have stack bounds). */
  predicate Accepted(e: Form) {
    Check(e, NoLoop, true) == None && Level(AtTop(e), false, true, true)
  }
}
