/** Forms as the reader yields them, before they are compiled, and what the
    few forms the rewrites generate evaluate to. A form is a value too. */
module Forms {
  import opened Options

  datatype Datum =
    | Nothing                      // nil
    | Truth(b: bool)
    | Number(n: int)
    | Text(s: string)
    | Name(s: string)              // a symbol, or a keyword with its colon
    | List(items: seq<Datum>)
    | Vector(items: seq<Datum>)
    | Table(entries: seq<Entry>)   // a map, in source order
    | Group(items: seq<Datum>)     // a set
    | Opaque(id: int)              // any other value

  datatype Entry = Entry(key: Datum, val: Datum)

  type Scope = map<string, Datum>

  predicate IsKeyword(s: string) { |s| > 0 && s[0] == ':' }

  /** A value, or what was raised; `w` is the state of the program after. */
  datatype Outcome = Ok(v: Datum, w: int) | Raised(x: Datum, w: int)

  datatype Outcomes = Oks(vs: seq<Datum>, w: int) | Stopped(x: Datum, w: int)

  /** What a library function answers. */
  datatype Answer = Gives(v: Datum) | Fails(x: Datum)

  /** What is not modelled: how the user's own expressions evaluate, what the
      library makes of values that are neither lists nor vectors, and its
      exceptions. */
  datatype Language = Language(
    user: (Datum, Scope, int) -> Outcome,
    items: Datum -> Option<seq<Datum>>,
    indexed: Datum -> Option<seq<Datum>>,
    lookup: (Datum, Datum) -> Option<Datum>,
    asTable: Datum -> Datum,
    build: (string, seq<Datum>) -> Answer,
    wrong: (string, Datum) -> Datum)

  const SEQ := "clojure.core/seq"
  const FIRST := "clojure.core/first"
  const NEXT := "clojure.core/next"
  const NTH := "clojure.core/nth"
  const GET := "clojure.core/get"
  const AS_TABLE := "clojure.core/__destructure-map"
  const LIST := "clojure.core/list"
  const CONCAT := "clojure.core/concat"
  const APPLY := "clojure.core/apply"
  const VECTOR := "clojure.core/vector"
  const HASH_MAP := "clojure.core/hash-map"
  const HASH_SET := "clojure.core/hash-set"

  predicate Core(s: string) {
    s in [SEQ, FIRST, NEXT, NTH, GET, AS_TABLE, LIST, CONCAT, APPLY, VECTOR, HASH_MAP, HASH_SET]
  }

  /** The elements `seq` walks. */
  function Items(L: Language, v: Datum): Option<seq<Datum>> {
    match v
    case Nothing => Some([])
    case List(xs) => Some(xs)
    case Vector(xs) => Some(xs)
    case _ => L.items(v)
  }

  /** The elements `nth` indexes. */
  function Indexed(L: Language, v: Datum): Option<seq<Datum>> {
    match v
    case Nothing => Some([])
    case List(xs) => Some(xs)
    case Vector(xs) => Some(xs)
    case _ => L.indexed(v)
  }

  /** What `seq` answers for these elements: nil when there are none. */
  function SeqOf(xs: seq<Datum>): Datum { if xs == [] then Nothing else List(xs) }

  /** The elements of `xs` one after another, or the first that has none. */
  function Joined(L: Language, xs: seq<Datum>): Answer {
    if xs == [] then Gives(List([])) else
    match Items(L, xs[0])
    case None => Fails(L.wrong(CONCAT, xs[0]))
    case Some(ys) =>
      match Joined(L, xs[1..])
      case Gives(List(zs)) => Gives(List(ys + zs))
      case a => a
  }

  function Build(L: Language, builder: string, xs: seq<Datum>): Answer {
    if builder == VECTOR then Gives(Vector(xs)) else L.build(builder, xs)
  }

  function Looked(L: Language, m: Datum, key: Datum, default: Datum): Datum {
    match L.lookup(m, key) case None => default case Some(v) => v
  }

  /** A call of a library function. */
  function Primitive(L: Language, f: string, args: seq<Datum>): Answer {
    if f == SEQ && |args| == 1 then
      (match Items(L, args[0]) case None => Fails(L.wrong(f, args[0])) case Some(xs) => Gives(SeqOf(xs)))
    else if f == FIRST && |args| == 1 then
      (match Items(L, args[0])
       case None => Fails(L.wrong(f, args[0]))
       case Some(xs) => Gives(if xs == [] then Nothing else xs[0]))
    else if f == NEXT && |args| == 1 then
      (match Items(L, args[0])
       case None => Fails(L.wrong(f, args[0]))
       case Some(xs) => Gives(if xs == [] then Nothing else SeqOf(xs[1..])))
    else if f == NTH && |args| == 3 && args[1].Number? then
      (match Indexed(L, args[0])
       case None => Fails(L.wrong(f, args[0]))
       case Some(xs) => Gives(if 0 <= args[1].n < |xs| then xs[args[1].n] else args[2]))
    else if f == GET && |args| == 2 then Gives(Looked(L, args[0], args[1], Nothing))
    else if f == GET && |args| == 3 then Gives(Looked(L, args[0], args[1], args[2]))
    else if f == AS_TABLE && |args| == 1 then Gives(L.asTable(args[0]))
    else if f == LIST then Gives(List(args))
    else if f == CONCAT then Joined(L, args)
    else if f == APPLY && |args| == 2 && args[0].Name? then
      (match Items(L, args[1]) case None => Fails(L.wrong(f, args[1])) case Some(xs) => Build(L, args[0].s, xs))
    else Fails(L.wrong(f, Nothing))
  }

  function Eval(L: Language, f: Datum, env: Scope, w: int): Outcome
    decreases f
  {
    match f
    case Nothing => Ok(f, w)
    case Truth(_) => Ok(f, w)
    case Number(_) => Ok(f, w)
    case Text(_) => Ok(f, w)
    case Name(s) =>
      if IsKeyword(s) || Core(s) then Ok(f, w) else if s in env then Ok(env[s], w) else L.user(f, env, w)
    case List(xs) =>
      if |xs| == 2 && xs[0] == Name("quote") then Ok(xs[1], w)
      else if |xs| > 0 && xs[0].Name? && Core(xs[0].s) then
        match EvalAll(L, xs, 1, env, w)
        case Stopped(x, w1) => Raised(x, w1)
        case Oks(vs, w1) =>
          match Primitive(L, xs[0].s, vs)
          case Gives(v) => Ok(v, w1)
          case Fails(x) => Raised(x, w1)
      else L.user(f, env, w)
    case _ => L.user(f, env, w)
  }

  /** The forms of `xs` from the `i`-th on, left to right. */
  function EvalAll(L: Language, xs: seq<Datum>, i: nat, env: Scope, w: int): Outcomes
    requires i <= |xs|
    decreases xs, |xs| - i
  {
    if i == |xs| then Oks([], w) else
    match Eval(L, xs[i], env, w)
    case Raised(x, w1) => Stopped(x, w1)
    case Ok(v, w1) =>
      match EvalAll(L, xs, i + 1, env, w1)
      case Oks(vs, w2) => Oks([v] + vs, w2)
      case s => s
  }

  // ---- names

  /** Where `c` first is in `s`, or its length. */
  function Find(s: string, c: char): (i: nat)
    ensures i <= |s|
  {
    if s == [] || s[0] == c then 0 else 1 + Find(s[1..], c)
  }

  /** A name without its colon. */
  function Bare(s: string): string { if IsKeyword(s) then s[1..] else s }

  /** The part after the first slash, or all of it. */
  function Local(s: string): string {
    var i := Find(s, '/'); if i < |s| then s[i + 1..] else s
  }

  /** The names a form mentions, and the locals they would bind. */
  function Mentions(f: Datum): set<string>
    decreases f
  {
    match f
    case Name(s) => {s, Local(Bare(s))}
    case List(xs) => MentionsAll(xs)
    case Vector(xs) => MentionsAll(xs)
    case Group(xs) => MentionsAll(xs)
    case Table(es) => MentionsEntries(es)
    case _ => {}
  }

  function MentionsAll(xs: seq<Datum>): set<string>
    decreases xs
  {
    if xs == [] then {} else Mentions(xs[0]) + MentionsAll(xs[1..])
  }

  function MentionsEntries(es: seq<Entry>): set<string>
    decreases es
  {
    if es == [] then {} else MentionsOf(es[0]) + MentionsEntries(es[1..])
  }

  function MentionsOf(en: Entry): set<string>
    decreases en
  {
    Mentions(en.key) + Mentions(en.val)
  }

  lemma {:induction false} MentionsItem(xs: seq<Datum>, i: nat)
    requires i < |xs|
    ensures Mentions(xs[i]) <= MentionsAll(xs)
  {
    if i > 0 { MentionsItem(xs[1..], i - 1); }
  }

  lemma {:induction false} MentionsEntry(es: seq<Entry>, i: nat)
    requires i < |es|
    ensures Mentions(es[i].key) <= MentionsEntries(es) && Mentions(es[i].val) <= MentionsEntries(es)
  {
    if i > 0 { MentionsEntry(es[1..], i - 1); }
  }

  predicate Same(env: Scope, env1: Scope, x: string) {
    (x in env <==> x in env1) && (x in env ==> env[x] == env1[x])
  }

  predicate Agree(env: Scope, env1: Scope, names: set<string>) { forall x | x in names :: Same(env, env1, x) }

  /** An expression's value depends on the names it mentions only. */
  ghost predicate Respects(L: Language) {
    forall f, env, env1, w | Agree(env, env1, Mentions(f)) :: L.user(f, env, w) == L.user(f, env1, w)
  }

  /** The names an expression's value may depend on. */
  function Reads(f: Datum): set<string>
    decreases f
  {
    match f
    case Name(s) => if IsKeyword(s) || Core(s) then {} else Mentions(f)
    case List(xs) =>
      if |xs| == 2 && xs[0] == Name("quote") then {}
      else if |xs| > 0 && xs[0].Name? && Core(xs[0].s) then ReadsFrom(xs, 1)
      else Mentions(f)
    case _ => Mentions(f)
  }

  function ReadsFrom(xs: seq<Datum>, i: nat): set<string>
    requires i <= |xs|
    decreases xs, |xs| - i
  {
    if i == |xs| then {} else Reads(xs[i]) + ReadsFrom(xs, i + 1)
  }

  /** A call of a library function reads what its arguments read. */
  lemma CallReads(f: string, args: seq<Datum>, x: string)
    requires Core(f)
    ensures x in Reads(List([Name(f)] + args)) <==> exists i :: 0 <= i < |args| && x in Reads(args[i])
  {
    var xs := [Name(f)] + args;
    assert xs[0] == Name(f) != Name("quote");
    ReadsIn(xs, 1, x);
    hide Reads, ReadsFrom;
    if j :| 1 <= j < |xs| && x in Reads(xs[j]) { assert xs[j] == args[j - 1]; }
    if i :| 0 <= i < |args| && x in Reads(args[i]) { assert xs[i + 1] == args[i]; }
  }

  lemma {:induction false} ReadsIn(xs: seq<Datum>, i: nat, x: string)
    requires i <= |xs|
    ensures x in ReadsFrom(xs, i) <==> exists j :: i <= j < |xs| && x in Reads(xs[j])
    decreases |xs| - i
  {
    hide Reads;
    if i < |xs| { ReadsIn(xs, i + 1, x); }
  }

  lemma {:induction false} EvalAgree(L: Language, f: Datum, env: Scope, env1: Scope, w: int)
    requires Respects(L) && Agree(env, env1, Reads(f))
    ensures Eval(L, f, env, w) == Eval(L, f, env1, w)
    decreases f
  {
    if f.List? && |f.items| > 0 && f.items[0].Name? && Core(f.items[0].s) {
      EvalAllAgree(L, f.items, 1, env, env1, w);
    }
  }

  lemma {:induction false} EvalAllAgree(L: Language, xs: seq<Datum>, i: nat, env: Scope, env1: Scope, w: int)
    requires i <= |xs| && Respects(L) && Agree(env, env1, ReadsFrom(xs, i))
    ensures EvalAll(L, xs, i, env, w) == EvalAll(L, xs, i, env1, w)
    decreases xs, |xs| - i
  {
    if i < |xs| {
      EvalAgree(L, xs[i], env, env1, w);
      match Eval(L, xs[i], env, w) {
        case Raised(_, _) =>
        case Ok(_, w1) => EvalAllAgree(L, xs, i + 1, env, env1, w1);
      }
    }
  }

  lemma {:induction false} ReadsMentioned(f: Datum)
    ensures Reads(f) <= Mentions(f)
    decreases f
  {
    if f.List? && |f.items| > 0 { ReadsAllMentioned(f.items, 1); }
  }

  lemma {:induction false} ReadsAllMentioned(xs: seq<Datum>, i: nat)
    requires i <= |xs|
    ensures ReadsFrom(xs, i) <= MentionsAll(xs)
    decreases xs, |xs| - i
  {
    if i < |xs| {
      ReadsMentioned(xs[i]);
      MentionsItem(xs, i);
      ReadsAllMentioned(xs, i + 1);
    }
  }

  // ---- generated names

  function Digit(d: nat): char
    requires d < 10
  {
    ['0', '1', '2', '3', '4', '5', '6', '7', '8', '9'][d]
  }

  function Digits(n: nat): string {
    if n < 10 then [Digit(n)] else Digits(n / 10) + [Digit(n % 10)]
  }

  predicate IsDigit(c: char) { '0' <= c <= '9' }

  /** The number the digits at the end of `s` spell. */
  function Ending(s: string): nat {
    if s == [] || !IsDigit(s[|s| - 1]) then 0
    else Ending(s[..|s| - 1]) * 10 + (s[|s| - 1] as int - '0' as int)
  }

  lemma {:induction false} EndingDigits(prefix: string, n: nat)
    requires prefix == [] || !IsDigit(prefix[|prefix| - 1])
    ensures Ending(prefix + Digits(n)) == n
    decreases n
  {
    var s := prefix + Digits(n);
    if n < 10 {
      assert s[..|s| - 1] == prefix;
    } else {
      assert s[..|s| - 1] == prefix + Digits(n / 10);
      EndingDigits(prefix, n / 10);
    }
  }

  /** The `n`-th generated name. */
  function Gen(prefix: string, n: nat): string { prefix + Digits(n) }
}
