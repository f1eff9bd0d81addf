/** The meaning of forms: a direct evaluator. An environment maps the locals in
    scope to their values; `fuel` bounds calls and loop iterations only. */
module Evaluator {
  import opened Syntax
  import opened Bytecode
  import opened Values

  /** `Recurs` carries the values `recur` rebinds the innermost loop or fn to. */
  datatype Outcome =
    | Val(v: Value, g: Env)
    | Throws(x: Exn<Value>, g: Env)
    | Recurs(args: seq<Value>, g: Env)
    | OutOfFuel

  /** Values of several forms, or the outcome that stopped them. */
  datatype Outcomes = Vals(vs: seq<Value>, g: Env) | Stopped(o: Outcome)

  function ErrorThrown(kind: ErrorKind, g: Env): Outcome {
    Throws(Managed(Error(kind), 0), g)
  }

  /** `env` with `names` bound to `vs` from left to right. */
  function BindAll(env: Env, names: seq<string>, vs: seq<Value>, i: nat): Env
    requires |names| == |vs| && i <= |vs|
    decreases |vs| - i
  {
    if i == |vs| then env else BindAll(env[names[i] := vs[i]], names, vs, i + 1)
  }

  function Eval(P: Prims, e: Form, env: Env, g: Env, fuel: nat): Outcome
    decreases fuel, e
  {
    match e
    case Lit(c) => Val(ConstValue(c), g)
    case Quote(c) => Val(ConstValue(c), g)
    case Sym(x) =>
      if x in env then Val(env[x], g)
      else if x in g then Val(g[x], g)
      else ErrorThrown(Unresolved(x), g)
    case Global(x) =>
      if x in g then Val(g[x], g) else ErrorThrown(Unresolved(x), g)
    case Def(x, init) =>
      (match Eval(P, init, env, g, fuel)
       case Val(v, g1) => Val(v, g1[x := v])
       case o => o)
    case If(test, thn, els) =>
      (match Eval(P, test, env, g, fuel)
       case Val(v, g1) =>
         if Truthy(v) then Eval(P, thn, env, g1, fuel)
         else if els.Some? then Eval(P, els.value, env, g1, fuel)
         else Val(Nil, g1)
       case o => o)
    case Do(es) => EvalBody(P, es, 0, env, g, fuel)
    case And(es) => if |es| == 0 then Val(True, g) else EvalAnd(P, es, 0, env, g, fuel)
    case Or(es) => if |es| == 0 then Val(Nil, g) else EvalOr(P, es, 0, env, g, fuel)
    case Let(bs, body) => EvalLet(P, e, 0, env, g, fuel)
    case Loop(bs, body) => EvalLoop(P, e, 0, env, g, fuel)
    case Recur(args) =>
      (match EvalArgs(P, args, 0, env, g, fuel)
       case Vals(vs, g1) => Recurs(vs, g1)
       case Stopped(o) => o)
    case Fn(params, body) => Val(Closure(params, body, env), g)
    case Call(head, args) =>
      (match Eval(P, head, env, g, fuel)
       case Val(f, g1) =>
         (match EvalArgs(P, args, 0, env, g1, fuel)
          case Vals(vs, g2) =>
            if f.Closure? then
              (if |f.params| != |vs| then ErrorThrown(ArityMismatch(|f.params|, |vs|), g2)
               else if |vs| > 17 then ErrorThrown(TooManyParameters, g2)
               else if fuel == 0 then OutOfFuel
               else EvalRounds(P, f.params, f.body, BindAll(f.env, f.params, vs, 0), g2, fuel - 1))
            else
              (match P.call(f, vs)
               case Returns(v) => Val(v, g2)
               case Raises(x) => Throws(x, g2))
          case Stopped(o) => o)
       case o => o)
    case Throw(x) =>
      (match Eval(P, x, env, g, fuel)
       case Val(v, g1) =>
         if P.throwable(v) then Throws(Managed(v, 0), g1) else ErrorThrown(NotThrowable, g1)
       case o => o)
    case Try(body, catches, fin) =>
      var o := EvalBody(P, body, 0, env, g, fuel);
      var handled := if o.Throws? then EvalCatch(P, catches, 0, o.x, env, o.g, fuel) else o;
      if fin.NoFinally? then handled else EvalFinally(P, fin.forms, handled, env, fuel)
  }

  /** A body: its forms in order, the last one's value. */
  function EvalBody(P: Prims, es: seq<Form>, i: nat, env: Env, g: Env, fuel: nat): Outcome
    requires i <= |es|
    decreases fuel, es, |es| - i
  {
    if i == |es| then Val(Nil, g)
    else if i + 1 == |es| then Eval(P, es[i], env, g, fuel)
    else
      match Eval(P, es[i], env, g, fuel)
      case Val(_, g1) => EvalBody(P, es, i + 1, env, g1, fuel)
      case o => o
  }

  function EvalAnd(P: Prims, es: seq<Form>, i: nat, env: Env, g: Env, fuel: nat): Outcome
    requires i < |es|
    decreases fuel, es, |es| - i
  {
    match Eval(P, es[i], env, g, fuel)
    case Val(v, g1) =>
      if i + 1 == |es| || !Truthy(v) then Val(v, g1) else EvalAnd(P, es, i + 1, env, g1, fuel)
    case o => o
  }

  function EvalOr(P: Prims, es: seq<Form>, i: nat, env: Env, g: Env, fuel: nat): Outcome
    requires i < |es|
    decreases fuel, es, |es| - i
  {
    match Eval(P, es[i], env, g, fuel)
    case Val(v, g1) =>
      if i + 1 == |es| || Truthy(v) then Val(v, g1) else EvalOr(P, es, i + 1, env, g1, fuel)
    case o => o
  }

  function EvalArgs(P: Prims, es: seq<Form>, i: nat, env: Env, g: Env, fuel: nat): Outcomes
    requires i <= |es|
    decreases fuel, es, |es| - i
  {
    if i == |es| then Vals([], g) else
    match Eval(P, es[i], env, g, fuel)
    case Val(v, g1) =>
      (match EvalArgs(P, es, i + 1, env, g1, fuel)
       case Vals(vs, g2) => Vals([v] + vs, g2)
       case s => s)
    case o => Stopped(o)
  }

  /** The bindings of a `let` from the `i`-th on, each in scope of the next. */
  function EvalLet(P: Prims, e: Form, i: nat, env: Env, g: Env, fuel: nat): Outcome
    requires e.Let? && i <= |e.bs|
    decreases fuel, e, |e.bs| - i
  {
    if i == |e.bs| then EvalBody(P, e.body, 0, env, g, fuel) else
    match Eval(P, e.bs[i].init, env, g, fuel)
    case Val(v, g1) => EvalLet(P, e, i + 1, env[e.bs[i].name := v], g1, fuel)
    case o => o
  }

  function BindingNames(bs: seq<Binding>): seq<string> {
    seq(|bs|, i requires 0 <= i < |bs| => bs[i].name)
  }

  function EvalLoop(P: Prims, e: Form, i: nat, env: Env, g: Env, fuel: nat): Outcome
    requires e.Loop? && i <= |e.bs|
    decreases fuel, e, |e.bs| - i
  {
    if i == |e.bs| then EvalRounds(P, BindingNames(e.bs), e.body, env, g, fuel) else
    match Eval(P, e.bs[i].init, env, g, fuel)
    case Val(v, g1) => EvalLoop(P, e, i + 1, env[e.bs[i].name := v], g1, fuel)
    case o => o
  }

  /** The body of a loop or fn, run again with `names` rebound, all at once,
      each time it recurs. */
  function EvalRounds(P: Prims, names: seq<string>, body: seq<Form>, env: Env, g: Env, fuel: nat): Outcome
    decreases fuel, body, |body| + 1
  {
    match EvalBody(P, body, 0, env, g, fuel)
    case Recurs(vs, g1) =>
      if |vs| != |names| then ErrorThrown(Internal, g1)
      else if fuel == 0 then OutOfFuel
      else EvalRounds(P, names, body, BindAll(env, names, vs, 0), g1, fuel - 1)
    case o => o
  }

  /** The first clause, from the `i`-th on, whose class handles `x`. */
  function EvalCatch(P: Prims, cs: seq<Clause>, i: nat, x: Exn<Value>, env: Env, g: Env, fuel: nat): Outcome
    requires i <= |cs|
    decreases fuel, cs, |cs| - i
  {
    if |cs| == 0 then Throws(x, g)
    else if i == |cs| then Throws(Passed(P, x), g)
    else if P.matches(CaughtValue(P, x), cs[i].classId) then
      EvalBody(P, cs[i].body, 0, env[cs[i].name := CaughtValue(P, x)], g, fuel)
    else EvalCatch(P, cs, i + 1, x, env, g, fuel)
  }

  /** `o`, unless the finally forms themselves raise. */
  function EvalFinally(P: Prims, forms: seq<Form>, o: Outcome, env: Env, fuel: nat): Outcome
    decreases fuel, forms, |forms| + 1
  {
    match o
    case Val(v, g) =>
      (match EvalArgs(P, forms, 0, env, g, fuel)
       case Vals(_, g1) => Val(v, g1)
       case Stopped(o1) => o1)
    case Throws(x, g) =>
      (match EvalArgs(P, forms, 0, env, g, fuel)
       case Vals(_, g1) => Throws(Passed(P, x), g1)
       case Stopped(o1) => o1)
    case _ => o
  }
}
