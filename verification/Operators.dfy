/** The operators the compiler makes opcodes: arithmetic on tagged words, and
    the bits that say which operators a program has redefined. */
module Operators {
  import opened Options

  // ---- tagged words

  const WORD: int := 0x1_0000_0000_0000_0000
  const MIN_SMALL: int := -0x20_0000_0000_0000
  const MAX_SMALL: int := 0x1F_FFFF_FFFF_FFFF
  const HALF: int := 0x400_0000

  predicate Small(v: int) { MIN_SMALL <= v <= MAX_SMALL }

  /** A 64-bit word read as a signed integer, and back. */
  function Signed(w: int): int { if w < WORD / 2 then w else w - WORD }
  function Word(v: int): int { v % WORD }

  /** `(v << 10) | 1`: the low ten bits of the shifted word are clear. */
  function Tag(v: int): int { Word(v * 1024) + 1 }

  predicate Tagged(w: int) { w % 1024 == 1 }

  /** The arithmetic shift right by ten. */
  function Untag(w: int): int { Signed(w) / 1024 }

  lemma WordBelow(v: int)
    requires 0 <= v + WORD / 2 < WORD
    ensures Word(v) == if v >= 0 then v else v + WORD
    ensures Signed(Word(v)) == v
  {
  }

  /** Every small integer has one tagged word, and every tagged word is one. */
  lemma TagInverse(v: int)
    requires Small(v)
    ensures 0 <= Tag(v) < WORD && Tagged(Tag(v)) && Untag(Tag(v)) == v
  {
    WordBelow(v * 1024);
    var w := Word(v * 1024);
    assert w % 1024 == 0;
  }

  lemma UntagInverse(w: int)
    requires 0 <= w < WORD && Tagged(w)
    ensures Small(Untag(w)) && Tag(Untag(w)) == w
  {
    SignedTag(w);
    Shifted(w, Untag(w));
  }

  /** The sign does not reach the tag. */
  lemma SignedTag(w: int)
    requires 0 <= w < WORD && Tagged(w)
    ensures Signed(w) == Untag(w) * 1024 + 1
  {
    assert (w - WORD) % 1024 == w % 1024;
  }

  lemma Shifted(w: int, q: int)
    requires 0 <= w < WORD && Signed(w) == q * 1024 + 1
    ensures Small(q) && Tag(q) == w
  {
    WordBelow(q * 1024);
  }

  datatype Op = Add | Sub | Mul | Lt | Le | Gt | Ge | Eq

  /** A number or a truth value. */
  datatype Result = Number(n: int) | Truth(b: bool)

  function Exact(op: Op, a: int, b: int): Result {
    match op
    case Add => Number(a + b)
    case Sub => Number(a - b)
    case Mul => Number(a * b)
    case Lt => Truth(a < b)
    case Le => Truth(a <= b)
    case Gt => Truth(a > b)
    case Ge => Truth(a >= b)
    case Eq => Truth(a == b)
  }

  /** The fast path on two tagged words: the word of the result, computed in 64
      bits, or None where it leaves the operation to protoCore. */
  function Fast(op: Op, a: int, b: int): Option<Result> {
    var x, y := Untag(a), Untag(b);
    match op
    case Add => Fitting(Signed(Word(x + y)))
    case Sub => Fitting(Signed(Word(x - y)))
    case Mul =>
      if x <= -HALF || x >= HALF || y <= -HALF || y >= HALF then None else Fitting(Signed(Word(x * y)))
    case _ => Some(Exact(op, x, y))
  }

  /** A small result as a tagged word's value. */
  function Fitting(s: int): Option<Result> { if Small(s) then Some(Number(Untag(Tag(s)))) else None }

  lemma Times(x: int, y: int, h: int)
    requires 0 <= x < h && 0 <= y < h
    ensures 0 <= x * y < h * h
  {
    assert x * y <= x * h;
    assert x * h < h * h;
  }

  lemma ProductBelow(x: int, y: int)
    requires -HALF < x < HALF && -HALF < y < HALF
    ensures -HALF * HALF < x * y < HALF * HALF
  {
    Times(if x >= 0 then x else -x, if y >= 0 then y else -y, HALF);
    Negated(x, y);
  }

  lemma Negated(x: int, y: int)
    ensures -x * y == -(x * y) && x * -y == -(x * y) && -x * -y == x * y
  {
  }

  /** The fast path, where it answers, answers exactly: no 64-bit step in it
      wraps. It declines an addition or subtraction exactly when the result is
      not small, a multiplication exactly when an operand is out of its half
      range, a comparison never. */
  lemma FastExact(op: Op, a: int, b: int)
    requires 0 <= a < WORD && 0 <= b < WORD && Tagged(a) && Tagged(b)
    ensures Fast(op, a, b).Some? ==> Fast(op, a, b).value == Exact(op, Untag(a), Untag(b))
    ensures op == Add || op == Sub ==> (Fast(op, a, b) == None <==> !Small(Exact(op, Untag(a), Untag(b)).n))
    ensures op == Mul ==>
              (Fast(op, a, b) == None <==> var x, y := Untag(a), Untag(b); !(-0x400_0000 < x < 0x400_0000 && -0x400_0000 < y < 0x400_0000))
    ensures Fast(op, a, b) == None ==> op == Add || op == Sub || op == Mul
  {
    var x, y := Untag(a), Untag(b);
    UntagInverse(a);
    UntagInverse(b);
    match op
    case Add => WordBelow(x + y); if Small(x + y) { TagInverse(x + y); }
    case Sub => WordBelow(x - y); if Small(x - y) { TagInverse(x - y); }
    case Mul =>
      if -HALF < x < HALF && -HALF < y < HALF {
        ProductBelow(x, y);
        WordBelow(x * y);
        TagInverse(x * y);
      }
    case _ =>
  }

  /** A 54-bit signed integer. */
  predicate Fits(n: int) { -0x20_0000_0000_0000 <= n < 0x20_0000_0000_0000 }

  /** The fast path operator by operator, on the words of any two small
      integers. */
  lemma FastAnswers(x: int, y: int)
    requires Fits(x) && Fits(y)
    ensures var a, b := Tag(x), Tag(y);
            && Fast(Add, a, b) == (if Fits(x + y) then Some(Number(x + y)) else None)
            && Fast(Sub, a, b) == (if Fits(x - y) then Some(Number(x - y)) else None)
            && Fast(Mul, a, b) == (if -0x400_0000 < x < 0x400_0000 && -0x400_0000 < y < 0x400_0000 then Some(Number(x * y)) else None)
            && Fast(Lt, a, b) == Some(Truth(x < y)) && Fast(Le, a, b) == Some(Truth(x <= y))
            && Fast(Gt, a, b) == Some(Truth(y < x)) && Fast(Ge, a, b) == Some(Truth(y <= x))
            && Fast(Eq, a, b) == Some(Truth(x == y))
  {
    TagInverse(x);
    TagInverse(y);
    var a, b := Tag(x), Tag(y);
    FastExact(Add, a, b);
    FastExact(Sub, a, b);
    FastExact(Mul, a, b);
    hide Tag, Untag, Tagged, Word, Signed;
  }

  // ---- redefined operators

  /** A global's value, by identity. */
  type Value = int

  function Name(op: Op): string {
    match op
    case Add => "+" case Sub => "-" case Mul => "*" case Lt => "<" case Le => "<=" case Gt => ">" case Ge => ">=" case Eq => "="
  }

  function CoreName(op: Op): string { "clojure.core/" + Name(op) }

  datatype State = State(globals: map<string, Value>, redefined: set<Op>)

  function Held(s: State, name: string): Option<Value> { if name in s.globals then Some(s.globals[name]) else None }

  /** The operators so named. */
  function Named(name: string): set<Op> { set op: Op | Name(op) == name }

  /** STORE_GLOBAL: an operator's bit says whether its global now differs from
      clojure.core's. */
  function Store(s: State, name: string, v: Value): State {
    var s1 := s.(globals := s.globals[name := v]);
    if |name| > 2 then s1
    else s1.(redefined := (s.redefined - Named(name)) + (set op: Op | op in Named(name) && Held(s1, CoreName(op)) != Some(v)))
  }

  /** What an operator opcode applies: the global when its bit is set and the
      form did not name clojure.core's; else it computes as the built-in. */
  function Applied(s: State, builtin: Op -> Value, op: Op, coreQualified: bool): Option<Value> {
    if op in s.redefined && !coreQualified then Held(s, Name(op)) else Some(builtin(op))
  }

  /** What an operator opcode does with two tagged operands: it calls a value,
      or has computed a result. */
  datatype Effect = Calls(f: Option<Value>) | Computed(r: Result)

  /** protoCore's promoting operations, which the fast path leaves the rest to,
      are exact. */
  function Executed(s: State, op: Op, coreQualified: bool, a: int, b: int): Effect {
    if op in s.redefined && !coreQualified then Calls(Held(s, Name(op)))
    else match Fast(op, a, b) case Some(r) => Computed(r) case None => Computed(Exact(op, Untag(a), Untag(b)))
  }

  ghost predicate Starts(s: State, builtin: Op -> Value) {
    s.redefined == {} && forall op :: Held(s, Name(op)) == Held(s, CoreName(op)) == Some(builtin(op))
  }

  /** A store of a global, by name. */
  datatype Def = Def(name: string, v: Value)

  function StoreAll(s: State, defs: seq<Def>): State
    decreases |defs|
  {
    if defs == [] then s else Store(StoreAll(s, defs[..|defs| - 1]), defs[|defs| - 1].name, defs[|defs| - 1].v)
  }

  lemma NamesDiffer(a: Op, b: Op)
    ensures Name(a) == Name(b) ==> a == b
    ensures CoreName(a) == CoreName(b) ==> a == b
    ensures CoreName(a) != Name(b) && |CoreName(a)| > 2 && 1 <= |Name(b)| <= 2
  {
    var core := "clojure.core/";
    assert CoreName(a)[|core|..] == Name(a) && CoreName(b)[|core|..] == Name(b);
  }

  /** Of the stores of an operator's name, the last one that counts: what it put
      there, and what clojure.core's name held then. */
  datatype Stored = Never | Last(v: Value, core: Option<Value>)

  function LastStore(s: State, defs: seq<Def>, op: Op): Stored {
    if defs == [] then Never else
    var init, d := defs[..|defs| - 1], defs[|defs| - 1];
    if d.name == Name(op) then Last(d.v, Held(StoreAll(s, init), CoreName(op))) else LastStore(s, init, op)
  }

  /** The operator's own name was never stored, or last with the built-in, or
      with something else than clojure.core's name held then. */
  predicate Agrees(s: State, builtin: Op -> Value, defs: seq<Def>, op: Op) {
    match LastStore(s, defs, op) case Never => true case Last(v, core) => v == builtin(op) || core != Some(v)
  }

  /** The last value given to clojure.core's name, the built-in if none was. */
  function CoreValue(builtin: Op -> Value, defs: seq<Def>, op: Op): Value {
    if defs == [] then builtin(op)
    else if defs[|defs| - 1].name == CoreName(op) then defs[|defs| - 1].v
    else CoreValue(builtin, defs[..|defs| - 1], op)
  }

  /** What the names and the bit of an operator are after any stores. */
  lemma {:induction false} Tracked(s: State, builtin: Op -> Value, defs: seq<Def>, op: Op)
    requires Starts(s, builtin)
    ensures var t := StoreAll(s, defs);
            && Held(t, CoreName(op)) == Some(CoreValue(builtin, defs, op))
            && match LastStore(s, defs, op)
               case Never => op !in t.redefined && Held(t, Name(op)) == Some(builtin(op))
               case Last(v, core) => (op in t.redefined <==> core != Some(v)) && Held(t, Name(op)) == Some(v)
    decreases |defs|
  {
    if defs != [] {
      var init, d := defs[..|defs| - 1], defs[|defs| - 1];
      Tracked(s, builtin, init, op);
      NamesDiffer(op, op);
      var s0, t := StoreAll(s, init), StoreAll(s, defs);
      if d.name == Name(op) {
        assert op in Named(d.name) && Held(t, CoreName(op)) == Held(s0, CoreName(op));
      } else {
        assert op !in Named(d.name);
      }
    }
  }

  /** An opcode applies what the global of its name holds if and only if the
      last store of that name does not happen to put there what clojure.core's
      name, itself redefined, held; a core-qualified one applies what
      clojure.core's name holds if and only if that is the built-in. */
  lemma OpcodeIsCall(s: State, builtin: Op -> Value, defs: seq<Def>, op: Op)
    requires Starts(s, builtin)
    ensures var t := StoreAll(s, defs);
            && (Applied(t, builtin, op, false) == Held(t, Name(op)) <==> Agrees(s, builtin, defs, op))
            && (Applied(t, builtin, op, true) == Held(t, CoreName(op)) <==> CoreValue(builtin, defs, op) == builtin(op))
  {
    Tracked(s, builtin, defs, op);
  }

  /** Stores that leave clojure.core's operators alone keep every opcode right. */
  lemma {:induction false} CoreLeftAlone(s: State, builtin: Op -> Value, defs: seq<Def>, op: Op)
    requires Starts(s, builtin) && forall d | d in defs :: d.name != CoreName(op)
    ensures Agrees(s, builtin, defs, op) && CoreValue(builtin, defs, op) == builtin(op)
    decreases |defs|
  {
    if defs != [] {
      var init, d := defs[..|defs| - 1], defs[|defs| - 1];
      assert d in defs;
      CoreLeftAlone(s, builtin, init, op);
      Tracked(s, builtin, init, op);
    }
  }

  /** `(def clojure.core/+ f) (def + f)`: the bit is clear, and the opcode goes
      on computing as the built-in. Either store alone does no harm. */
  lemma CoreRedefined(s: State, builtin: Op -> Value, op: Op, f: Value)
    requires Starts(s, builtin) && f != builtin(op)
    ensures var t := StoreAll(s, [Def(CoreName(op), f), Def(Name(op), f)]);
            Held(t, Name(op)) == Some(f) && Applied(t, builtin, op, false) == Some(builtin(op))
    ensures Agrees(s, builtin, [Def(CoreName(op), f)], op) && Agrees(s, builtin, [Def(Name(op), f)], op)
  {
    var a, b := Def(CoreName(op), f), Def(Name(op), f);
    NamesDiffer(op, op);
    assert [a, b][..1] == [a] && [a][..0] == [] && [b][..0] == [];
    Tracked(s, builtin, [a, b], op);
    Tracked(s, builtin, [a], op);
    assert LastStore(s, [a, b], op) == Last(f, Some(f));
  }

  /** An opcode on two small integers calls the value it applies, or gives the
      exact result, which is what applying the built-in means. */
  lemma AppliedIsExact(s: State, builtin: Op -> Value, op: Op, coreQualified: bool, a: int, b: int)
    requires 0 <= a < WORD && 0 <= b < WORD && Tagged(a) && Tagged(b)
    ensures match Executed(s, op, coreQualified, a, b)
            case Calls(f) => f == Applied(s, builtin, op, coreQualified)
            case Computed(r) => r == Exact(op, Untag(a), Untag(b)) && Applied(s, builtin, op, coreQualified) == Some(builtin(op))
  {
    FastExact(op, a, b);
  }

  /** An opcode on the words of two small integers whose operator is not
      redefined, or that names clojure.core's: what arithmetic says, whatever
      the size of the result. Otherwise it calls the global of its name. */
  lemma ExecutedAnswers(s: State, core: bool, x: int, y: int)
    requires Fits(x) && Fits(y)
    ensures var a, b := Tag(x), Tag(y);
            && (core || Add !in s.redefined ==> Executed(s, Add, core, a, b) == Computed(Number(x + y)))
            && (core || Sub !in s.redefined ==> Executed(s, Sub, core, a, b) == Computed(Number(x - y)))
            && (core || Mul !in s.redefined ==> Executed(s, Mul, core, a, b) == Computed(Number(x * y)))
            && (core || Lt !in s.redefined ==> Executed(s, Lt, core, a, b) == Computed(Truth(x < y)))
            && (core || Le !in s.redefined ==> Executed(s, Le, core, a, b) == Computed(Truth(x <= y)))
            && (core || Gt !in s.redefined ==> Executed(s, Gt, core, a, b) == Computed(Truth(y < x)))
            && (core || Ge !in s.redefined ==> Executed(s, Ge, core, a, b) == Computed(Truth(y <= x)))
            && (core || Eq !in s.redefined ==> Executed(s, Eq, core, a, b) == Computed(Truth(x == y)))
    ensures forall op, a, b | !core && op in s.redefined :: Executed(s, op, core, a, b) == Calls(Held(s, Name(op)))
  {
    FastAnswers(x, y);
    TagInverse(x);
    TagInverse(y);
    hide Tag, Fast, Fits, Untag;
  }

  predicate Spells(name: string, op: Op) {
    (name, op) in [("+", Add), ("-", Sub), ("*", Mul), ("<", Lt), ("<=", Le), (">", Gt), (">=", Ge), ("=", Eq)]
  }

  /** A store of one of the eight names sets that operator's bit unless it puts
      there what clojure.core's name holds, and clears it if so; no store
      changes another bit. */
  lemma StoreMarks(s: State, name: string, op: Op, v: Value)
    ensures var t := Store(s, name, v);
            if Spells(name, op) then op in t.redefined <==> Held(s, "clojure.core/" + name) != Some(v)
            else op in t.redefined <==> op in s.redefined
  {
    NamesDiffer(op, op);
    assert Spells(name, op) <==> name == Name(op);
  }
}
