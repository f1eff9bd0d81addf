/** Whether the names a destructuring `let` generates get in the way of the
    program's: a scan of the flat bindings that says so exactly. */
module Capture {
  import opened Options
  import opened Forms
  import opened Destructuring
  import opened Hygiene
  import opened DestructuringProof
  import opened StepShapes

  /** The names whose last binding before the `i`-th is a generated one; `S` are
      those at the start. */
  function Hidden(st: seq<Step>, i: nat, S: set<string>): set<string>
    requires i <= |st|
  {
    if i == 0 then S
    else if st[i - 1].made then Hidden(st, i - 1, S) + {st[i - 1].name}
    else Hidden(st, i - 1, S) - {st[i - 1].name}
  }

  /** Every name read is bound last by the program where the program reads it,
      by the rewrite where the rewrite does. */
  predicate Safe(st: seq<Step>, S: set<string>) {
    forall i | 0 <= i < |st| :: ReadsOf(st[i].expr) !! Hidden(st, i, S) && Uses(st[i].expr) <= Hidden(st, i, S)
  }

  // ---- what the flat bindings do

  predicate Plain(g: string) { !IsKeyword(g) && !Core(g) }

  /** `E` has the hidden names as the rewrite gave them, the others as the
      program did. */
  ghost predicate Mixed(E: Scope, e: Scope, G: Scope, S: set<string>) {
    && (forall x | x in S :: Plain(x) && x in E && x in G && E[x] == G[x])
    && (forall x | x !in S :: Same(E, e, x))
  }

  /** A call of a library function on a form whose value is known. */
  lemma EvalOneArg(L: Language, f: string, a: Datum, E: Scope, w: int, v: Datum)
    requires Core(f) && Eval(L, a, E, w) == Ok(v, w)
    ensures Eval(L, Call(f, [a]), E, w) == Answered(Primitive(L, f, [v]), w)
  {
    var xs := Call(f, [a]).items;
    assert xs == [Name(f), a];
    assert EvalAll(L, xs, 2, E, w) == Oks([], w);
    assert EvalAll(L, xs, 1, E, w) == Oks([v], w);
    assert xs[0] != Name("quote");
  }

  lemma EvalNth(L: Language, a: Datum, k: nat, E: Scope, w: int, v: Datum)
    requires Eval(L, a, E, w) == Ok(v, w)
    ensures Eval(L, Call(NTH, [a, Number(k), Nothing]), E, w) == Answered(Primitive(L, NTH, [v, Number(k), Nothing]), w)
  {
    var xs := Call(NTH, [a, Number(k), Nothing]).items;
    assert xs == [Name(NTH), a, Number(k), Nothing];
    assert EvalAll(L, xs, 4, E, w) == Oks([], w);
    assert EvalAll(L, xs, 3, E, w) == Oks([Nothing], w);
    assert EvalAll(L, xs, 2, E, w) == Oks([Number(k), Nothing], w);
    assert EvalAll(L, xs, 1, E, w) == Oks([v, Number(k), Nothing], w);
  }

  /** A lookup form does what a lookup means. */
  lemma EvalGet(L: Language, m: string, key: Datum, default: Option<Datum>, E: Scope, e: Scope, w: int)
    requires Respects(L) && Agree(E, e, ReadsOf(Get(m, key, default))) && Plain(m) && m in E
    ensures Eval(L, GetForm(m, key, default), E, w) == Lookup(L, E[m], key, default, e, w)
  {
    EvalAgree(L, key, E, e, w);
    if default.Some? && Eval(L, key, E, w).Ok? { EvalAgree(L, default.value, E, e, Eval(L, key, E, w).w); }
    hide Respects, Agree;
    if default.Some? { GetDefault(L, m, key, default.value, E, w); } else { GetPlain(L, m, key, E, w); }
  }

  lemma GetPlain(L: Language, m: string, key: Datum, E: Scope, w: int)
    requires Plain(m) && m in E
    ensures Eval(L, GetForm(m, key, None), E, w) ==
            match Eval(L, key, E, w) case Raised(x, w1) => Raised(x, w1) case Ok(k, w1) => Ok(Looked(L, E[m], k, Nothing), w1)
  {
    var xs := GetForm(m, key, None).items;
    assert xs == [Name(GET), Name(m), key];
    match Eval(L, key, E, w)
    case Raised(x, w1) =>
      assert EvalAll(L, xs, 2, E, w) == Stopped(x, w1);
      assert EvalAll(L, xs, 1, E, w) == Stopped(x, w1);
    case Ok(k, w1) =>
      assert EvalAll(L, xs, 3, E, w1) == Oks([], w1);
      assert EvalAll(L, xs, 2, E, w) == Oks([k], w1);
      assert EvalAll(L, xs, 1, E, w) == Oks([E[m], k], w1);
  }

  lemma GetDefault(L: Language, m: string, key: Datum, default: Datum, E: Scope, w: int)
    requires Plain(m) && m in E
    ensures Eval(L, GetForm(m, key, Some(default)), E, w) ==
            match Eval(L, key, E, w)
            case Raised(x, w1) => Raised(x, w1)
            case Ok(k, w1) =>
              match Eval(L, default, E, w1) case Raised(x, w2) => Raised(x, w2) case Ok(d, w2) => Ok(Looked(L, E[m], k, d), w2)
  {
    var xs := GetForm(m, key, Some(default)).items;
    assert xs == [Name(GET), Name(m), key, default];
    match Eval(L, key, E, w)
    case Raised(x, w1) =>
      assert EvalAll(L, xs, 2, E, w) == Stopped(x, w1);
      assert EvalAll(L, xs, 1, E, w) == Stopped(x, w1);
    case Ok(k, w1) =>
      DefaultLast(L, xs, E, w1);
      match Eval(L, default, E, w1)
      case Raised(x, w2) =>
        assert EvalAll(L, xs, 2, E, w) == Stopped(x, w2);
        assert EvalAll(L, xs, 1, E, w) == Stopped(x, w2);
      case Ok(d, w2) =>
        assert EvalAll(L, xs, 2, E, w) == Oks([k, d], w2);
        assert EvalAll(L, xs, 1, E, w) == Oks([E[m], k, d], w2);
  }

  lemma DefaultLast(L: Language, xs: seq<Datum>, E: Scope, w: int)
    requires |xs| == 4
    ensures EvalAll(L, xs, 3, E, w) == match Eval(L, xs[3], E, w) case Raised(x, w1) => Stopped(x, w1) case Ok(d, w1) => Oks([d], w1)
  {
    match Eval(L, xs[3], E, w)
    case Raised(_, _) =>
    case Ok(d, w1) => assert EvalAll(L, xs, 4, E, w1) == Oks([], w1);
  }

  /** A flat binding's form, where it reads each name from the right binding. */
  lemma FormValue(L: Language, x: Expr, E: Scope, e: Scope, G: Scope, w: int)
    requires Respects(L) && Agree(E, e, ReadsOf(x)) && forall g | g in Uses(x) :: Plain(g) && g in E && g in G && E[g] == G[g]
    ensures Eval(L, Form(x), E, w) == Value(L, x, e, G, w)
  {
    match x
    case Own(f) => EvalAgree(L, f, E, e, w);
    case Copy(g) => assert g in Uses(x);
    case Lib(f, g) =>
      assert g in Uses(x);
      EvalOneArg(L, LibName(f), Name(g), E, w, E[g]);
    case Nth(g, k) =>
      assert g in Uses(x);
      EvalNth(L, Name(g), k, E, w, E[g]);
    case Get(g, key, default) =>
      assert g in Uses(x);
      EvalGet(L, g, key, default, E, e, w);
  }

  ghost predicate MadePlain(st: seq<Step>) { forall i | 0 <= i < |st| && st[i].made :: Plain(st[i].name) }

  lemma MixedMade(E: Scope, e: Scope, G: Scope, S: set<string>, x: string, v: Datum)
    requires Mixed(E, e, G, S) && Plain(x)
    ensures Mixed(E[x := v], e, G[x := v], S + {x})
  {
  }

  lemma MixedOwn(E: Scope, e: Scope, G: Scope, S: set<string>, x: string, v: Datum)
    requires Mixed(E, e, G, S)
    ensures Mixed(E[x := v], e[x := v], G, S - {x})
  {
  }

  lemma SafeValue(L: Language, st: seq<Step>, i: nat, S: set<string>, E: Scope, e: Scope, G: Scope, w: int)
    requires i < |st| && Respects(L) && Safe(st, S) && Mixed(E, e, G, Hidden(st, i, S))
    ensures Eval(L, Form(st[i].expr), E, w) == Value(L, st[i].expr, e, G, w)
  {
    FormValue(L, st[i].expr, E, e, G, w);
  }

  /** Safe bindings run as they would with the generated names apart. */
  lemma {:induction false} SafeRuns(L: Language, st: seq<Step>, i: nat, S: set<string>, E: Scope, e: Scope, G: Scope, w: int)
    requires i <= |st| && Respects(L) && MadePlain(st) && Safe(st, S) && Mixed(E, e, G, Hidden(st, i, S))
    ensures match RunApart(L, st, i, e, G, w)
            case Both(e1, G1, w1) => var r := Run(L, Erase(st), i, E, w); r.Bound? && r.w == w1 && Mixed(r.env, e1, G1, Hidden(st, |st|, S))
            case Threw(x, w1) => Run(L, Erase(st), i, E, w) == Thrown(x, w1)
    decreases |st| - i
  {
    hide Mixed, Safe, Respects, Eval, Value, Form, Plain;
    if i < |st| {
      var name := st[i].name;
      SafeValue(L, st, i, S, E, e, G, w);
      match Value(L, st[i].expr, e, G, w) {
        case Raised(_, _) =>
        case Ok(v, w1) =>
          if st[i].made {
            MixedMade(E, e, G, Hidden(st, i, S), name, v);
            SafeRuns(L, st, i + 1, S, E[name := v], e, G[name := v], w1);
          } else {
            MixedOwn(E, e, G, Hidden(st, i, S), name, v);
            SafeRuns(L, st, i + 1, S, E[name := v], e[name := v], G, w1);
          }
      }
    }
  }

  // ---- a `let`

  lemma RangePlain(x: string, id: nat, n: nat)
    requires InRange(x, id, n)
    ensures Plain(x)
  {
    var p, k: nat :| Prefix(p) && id <= k < n && x == Gen(p, k);
    assert x[0] == p[0];
  }

  lemma LetPlain(bs: seq<LetBinding>, id: nat)
    requires Flatten(bs, 0, id).Pairs?
    ensures MadePlain(LetSteps(bs, 0, id))
  {
    var st, M, n := LetSteps(bs, 0, id), MentionsLet(bs, 0), Flatten(bs, 0, id).next;
    LetShaped(bs, 0, id, M);
    forall i | 0 <= i < |st| && st[i].made ensures Plain(st[i].name) {
      assert StepOk(st, i, M, {}, id, n);
      RangePlain(st[i].name, id, n);
    }
  }

  /** A destructuring `let` that is safe, rewritten flat, raises what its
      patterns and values raise, or binds what they mean: every name but the
      hidden ones, which are as the rewrite left them. */
  lemma LetRuns(L: Language, bs: seq<LetBinding>, id: nat, S: set<string>, E: Scope, e: Scope, G: Scope, w: int)
    requires Respects(L) && Flatten(bs, 0, id).Pairs? && Safe(LetSteps(bs, 0, id), S) && Mixed(E, e, G, S)
    ensures var st, r := LetSteps(bs, 0, id), Run(L, Flatten(bs, 0, id).pairs, 0, E, w);
            match MatchAll(L, bs, 0, e, w)
            case Bound(e1, w1) =>
              && r.Bound? && r.w == w1 && RunApart(L, st, 0, e, G, w).Both?
              && Mixed(r.env, e1, RunApart(L, st, 0, e, G, w).G, Hidden(st, |st|, S))
            case m => r == m && m.Thrown?
  {
    LetErased(bs, 0, id);
    LetPlain(bs, id);
    LetMatches(L, bs, 0, id, e, G, w);
    hide Mixed, Safe, Respects, Hidden, Keeps;
    assert Hidden(LetSteps(bs, 0, id), 0, S) == S by { HiddenStart(LetSteps(bs, 0, id), S); }
    SafeRuns(L, LetSteps(bs, 0, id), 0, S, E, e, G, w);
  }

  lemma HiddenStart(st: seq<Step>, S: set<string>)
    ensures Hidden(st, 0, S) == S
  {
  }

  /** After any part of the bindings that is safe, a name has the value the
      program gave it if and only if it is not hidden, or happens to have the
      value the rewrite hid it with. */
  lemma OwnValue(L: Language, st: seq<Step>, S: set<string>, E: Scope, e: Scope, G: Scope, w: int, x: string)
    requires Respects(L) && MadePlain(st) && Safe(st, S) && Mixed(E, e, G, S) && RunApart(L, st, 0, e, G, w).Both?
    ensures var r, a := Run(L, Erase(st), 0, E, w), RunApart(L, st, 0, e, G, w);
            r.Bound? && (Same(r.env, a.e, x) <==> x !in Hidden(st, |st|, S) || (x in a.e && x in a.G && a.e[x] == a.G[x]))
  {
    SafeRuns(L, st, 0, S, E, e, G, w);
  }

  // ---- what the scan says

  /** The last binding of `x` before the `i`-th, -1 if there is none; and the
      last of those that are generated, or are not. */
  function Last(st: seq<Step>, i: nat, x: string): int
    requires i <= |st|
  {
    if i == 0 then -1 else if st[i - 1].name == x then i - 1 else Last(st, i - 1, x)
  }

  function LastOf(st: seq<Step>, i: nat, x: string, made: bool): int
    requires i <= |st|
  {
    if i == 0 then -1 else if st[i - 1].name == x && st[i - 1].made == made then i - 1 else LastOf(st, i - 1, x, made)
  }

  lemma {:induction false} LastIs(st: seq<Step>, i: nat, x: string)
    requires i <= |st|
    ensures -1 <= Last(st, i, x) < i && (Last(st, i, x) >= 0 ==> st[Last(st, i, x)].name == x)
    ensures x in Hidden(st, i, {}) <==> Last(st, i, x) >= 0 && st[Last(st, i, x)].made
    ensures LastOf(st, i, x, false) == Last(st, i, x) <==> x !in Hidden(st, i, {})
    ensures LastOf(st, i, x, true) == Last(st, i, x) <==> x in Hidden(st, i, {}) || Last(st, i, x) == -1
    ensures LastOf(st, i, x, true) <= Last(st, i, x) && LastOf(st, i, x, false) <= Last(st, i, x)
  {
    if i > 0 { LastIs(st, i - 1, x); }
  }

  /** Each name the `i`-th binding reads is last bound by what it should be. */
  predicate OwnBindings(st: seq<Step>, i: nat)
    requires i < |st|
  {
    && (forall x | x in ReadsOf(st[i].expr) :: Last(st, i, x) == LastOf(st, i, x, false))
    && (forall g | g in Uses(st[i].expr) :: Last(st, i, g) == LastOf(st, i, g, true))
  }

  lemma {:induction false} MadeBound(st: seq<Step>, i: nat, g: string)
    requires i <= |st| && MadeBefore(st, i, g)
    ensures Last(st, i, g) >= 0
  {
    var j :| 0 <= j < i && st[j].made && st[j].name == g;
    if j < i - 1 {
      assert MadeBefore(st, i - 1, g);
      MadeBound(st, i - 1, g);
    }
  }

  /** The scan passes a `let` exactly when each name read in it, by the program
      or by the rewrite, is last bound by the one that means to read it. */
  lemma SafeExactly(bs: seq<LetBinding>, id: nat)
    requires Flatten(bs, 0, id).Pairs?
    ensures var st := LetSteps(bs, 0, id); Safe(st, {}) <==> forall i | 0 <= i < |st| :: OwnBindings(st, i)
    ensures var st := LetSteps(bs, 0, id); forall y :: y !in Hidden(st, |st|, {}) <==> Last(st, |st|, y) == LastOf(st, |st|, y, false)
  {
    var st, M, n := LetSteps(bs, 0, id), MentionsLet(bs, 0), Flatten(bs, 0, id).next;
    LetShaped(bs, 0, id, M);
    forall i | 0 <= i < |st|
      ensures (ReadsOf(st[i].expr) !! Hidden(st, i, {}) && Uses(st[i].expr) <= Hidden(st, i, {})) <==> OwnBindings(st, i)
    {
      assert StepOk(st, i, M, {}, id, n);
      forall x ensures x !in Hidden(st, i, {}) <==> Last(st, i, x) == LastOf(st, i, x, false) { LastIs(st, i, x); }
      forall g | g in Uses(st[i].expr) ensures g in Hidden(st, i, {}) <==> Last(st, i, g) == LastOf(st, i, g, true) {
        LastIs(st, i, g);
        MadeBound(st, i, g);
      }
    }
    forall y ensures y !in Hidden(st, |st|, {}) <==> Last(st, |st|, y) == LastOf(st, |st|, y, false) { LastIs(st, |st|, y); }
  }

  // ---- when no name clashes

  lemma {:induction false} HiddenRange(st: seq<Step>, i: nat, M: set<string>, S: set<string>, id: nat, n: nat, x: string)
    requires i <= |st| && Shaped(st, M, {}, id, n) && x in Hidden(st, i, S)
    ensures x in S || InRange(x, id, n)
  {
    if i > 0 {
      assert StepOk(st, i - 1, M, {}, id, n);
      if x in Hidden(st, i - 1, S) { HiddenRange(st, i - 1, M, S, id, n, x); }
    }
  }

  lemma {:induction false} MadeHidden(st: seq<Step>, i: nat, M: set<string>, S: set<string>, id: nat, n: nat, g: string)
    requires i <= |st| && Shaped(st, M, {}, id, n) && g !in M && MadeBefore(st, i, g)
    ensures g in Hidden(st, i, S)
  {
    var j :| 0 <= j < i && st[j].made && st[j].name == g;
    assert StepOk(st, i - 1, M, {}, id, n);
    if j < i - 1 {
      assert MadeBefore(st, i - 1, g);
      MadeHidden(st, i - 1, M, S, id, n, g);
    }
  }

  /** A `let` that mentions none of the names it generates, nor any hidden
      already, is safe, and hides none of its own names. */
  lemma NoClash(bs: seq<LetBinding>, id: nat, S: set<string>)
    requires Flatten(bs, 0, id).Pairs?
    requires forall x | x in MentionsLet(bs, 0) :: x !in S && !InRange(x, id, Flatten(bs, 0, id).next)
    ensures var st := LetSteps(bs, 0, id); Safe(st, S) && MentionsLet(bs, 0) !! Hidden(st, |st|, S)
  {
    var st, M, n := LetSteps(bs, 0, id), MentionsLet(bs, 0), Flatten(bs, 0, id).next;
    LetShaped(bs, 0, id, M);
    forall i, x | 0 <= i <= |st| && x in Hidden(st, i, S) ensures x !in M { HiddenRange(st, i, M, S, id, n, x); }
    forall i | 0 <= i < |st| ensures ReadsOf(st[i].expr) !! Hidden(st, i, S) && Uses(st[i].expr) <= Hidden(st, i, S) {
      assert StepOk(st, i, M, {}, id, n);
      forall g | g in Uses(st[i].expr) ensures g in Hidden(st, i, S) {
        MadeInRange(st, i, M, id, n, g);
        MadeHidden(st, i, M, S, id, n, g);
      }
    }
  }

  lemma MadeInRange(st: seq<Step>, i: nat, M: set<string>, id: nat, n: nat, g: string)
    requires Shaped(st, M, {}, id, n) && MadeBefore(st, i, g)
    ensures InRange(g, id, n)
  {
    var j :| 0 <= j < i && j < |st| && st[j].made && st[j].name == g;
    assert StepOk(st, j, M, {}, id, n);
  }

  /** So it means what its patterns do, to the program around it too. */
  lemma LetMeans(L: Language, bs: seq<LetBinding>, id: nat, e: Scope, w: int)
    requires Respects(L) && Flatten(bs, 0, id).Pairs?
    requires forall x | x in MentionsLet(bs, 0) :: !InRange(x, id, Flatten(bs, 0, id).next)
    ensures var r := Run(L, Flatten(bs, 0, id).pairs, 0, e, w);
            match MatchAll(L, bs, 0, e, w)
            case Bound(e1, w1) => r.Bound? && r.w == w1 && forall y | !InRange(y, id, Flatten(bs, 0, id).next) :: Same(r.env, e1, y)
            case m => r == m && m.Thrown?
  {
    var st, n := LetSteps(bs, 0, id), Flatten(bs, 0, id).next;
    NoClash(bs, id, {});
    LetRuns(L, bs, id, {}, e, e, map[], w);
    LetShaped(bs, 0, id, MentionsLet(bs, 0));
    forall y | y in Hidden(st, |st|, {}) ensures InRange(y, id, n) { HiddenRange(st, |st|, MentionsLet(bs, 0), {}, id, n, y); }
  }

  // ---- names the program does not mention

  /** The scopes agree but for `x`, and at `x` too once it has been bound. */
  ghost predicate Apart(E: Scope, E1: Scope, x: string, st: seq<Step>, i: nat)
    requires i <= |st|
  {
    && (forall y | y != x || Last(st, i, x) >= 0 :: Same(E, E1, y))
    && (forall y | Last(st, i, y) >= 0 :: y in E && y in E1)
  }

  /** Bindings that do not read `x` before they bind it run alike whatever it
      was. */
  lemma {:induction false} RunAlike(L: Language, st: seq<Step>, i: nat, E: Scope, E1: Scope, x: string, w: int, M: set<string>, id: nat, n: nat)
    requires i <= |st| && Respects(L) && MadePlain(st) && Shaped(st, M, {}, id, n) && x !in M && Apart(E, E1, x, st, i)
    ensures match Run(L, Erase(st), i, E, w)
            case Bound(F, w1) => var r := Run(L, Erase(st), i, E1, w); r.Bound? && r.w == w1 && Apart(F, r.env, x, st, |st|)
            case m => Run(L, Erase(st), i, E1, w) == m
    decreases |st| - i
  {
    hide Shaped, Respects, MadePlain, Eval, Form;
    if i < |st| {
      ReadAlike(L, st, i, E, E1, x, w, M, id, n);
      match Eval(L, Form(st[i].expr), E, w) {
        case Raised(_, _) =>
        case Ok(v, w1) =>
          BindAlike(E, E1, x, st, i, v);
          RunAlike(L, st, i + 1, E[st[i].name := v], E1[st[i].name := v], x, w1, M, id, n);
      }
    }
  }

  lemma BindAlike(E: Scope, E1: Scope, x: string, st: seq<Step>, i: nat, v: Datum)
    requires i < |st| && Apart(E, E1, x, st, i)
    ensures Apart(E[st[i].name := v], E1[st[i].name := v], x, st, i + 1)
  {
    var F, F1 := E[st[i].name := v], E1[st[i].name := v];
    forall y | y != x || Last(st, i + 1, x) >= 0 ensures Same(F, F1, y) { assert y != st[i].name ==> Same(E, E1, y); }
  }

  lemma ReadAlike(L: Language, st: seq<Step>, i: nat, E: Scope, E1: Scope, x: string, w: int, M: set<string>, id: nat, n: nat)
    requires i < |st| && Respects(L) && MadePlain(st) && Shaped(st, M, {}, id, n) && x !in M && Apart(E, E1, x, st, i)
    ensures Eval(L, Form(st[i].expr), E, w) == Eval(L, Form(st[i].expr), E1, w)
  {
    var f := st[i].expr;
    assert StepOk(st, i, M, {}, id, n);
    forall g | g in Uses(f) ensures Plain(g) && g in E && g in E1 && E[g] == E1[g] {
      MadeBound(st, i, g);
      MadeInRange(st, i, M, id, n, g);
      RangePlain(g, id, n);
      assert Same(E, E1, g);
    }
    forall y | y in ReadsOf(f) ensures Same(E1, E, y) { assert Same(E, E1, y); }
    FormValue(L, f, E, E, E, w);
    FormValue(L, f, E1, E, E, w);
  }

  lemma {:induction false} RunLeaves(L: Language, ps: seq<Pair>, i: nat, E: Scope, w: int, x: string)
    requires i <= |ps| && (forall j | i <= j < |ps| :: ps[j].name != x)
    ensures Run(L, ps, i, E, w).Bound? ==> Same(E, Run(L, ps, i, E, w).env, x)
    decreases |ps| - i
  {
    if i < |ps| {
      match Eval(L, ps[i].expr, E, w) {
        case Raised(_, _) =>
        case Ok(v, w1) => RunLeaves(L, ps, i + 1, E[ps[i].name := v], w1, x);
      }
    }
  }

  /** `x`, when it is `v` before the bindings, is `v` after them. */
  predicate Kept(L: Language, ps: seq<Pair>, E: Scope, w: int, x: string, v: Datum) {
    var r := Run(L, ps, 0, E[x := v], w); r.Bound? && x in r.env && r.env[x] == v
  }

  /** The run with another value of `x`. */
  lemma Varied(L: Language, bs: seq<LetBinding>, id: nat, E: Scope, w: int, x: string, v: Datum)
    requires Respects(L) && Flatten(bs, 0, id).Pairs? && x !in MentionsLet(bs, 0) && Run(L, Flatten(bs, 0, id).pairs, 0, E, w).Bound?
    ensures var ps, st := Flatten(bs, 0, id).pairs, LetSteps(bs, 0, id);
            var r := Run(L, ps, 0, E[x := v], w);
            r.Bound? && Apart(Run(L, ps, 0, E, w).env, r.env, x, st, |st|)
  {
    var st, M, n := LetSteps(bs, 0, id), MentionsLet(bs, 0), Flatten(bs, 0, id).next;
    LetErased(bs, 0, id);
    LetPlain(bs, id);
    LetShaped(bs, 0, id, M);
    assert Apart(E, E[x := v], x, st, 0);
    hide Shaped, Respects, MadePlain, Run, Apart;
    RunAlike(L, st, 0, E, E[x := v], x, w, M, id, n);
  }

  /** A binding of `x` forgets what `x` was. */
  lemma Forgotten(L: Language, bs: seq<LetBinding>, id: nat, E: Scope, w: int, x: string, i: nat)
    requires Respects(L) && Flatten(bs, 0, id).Pairs? && x !in MentionsLet(bs, 0) && Run(L, Flatten(bs, 0, id).pairs, 0, E, w).Bound?
    requires i < |Flatten(bs, 0, id).pairs| && Flatten(bs, 0, id).pairs[i].name == x
    ensures exists v :: !Kept(L, Flatten(bs, 0, id).pairs, E, w, x, v)
  {
    var st, ps, a, b := LetSteps(bs, 0, id), Flatten(bs, 0, id).pairs, Number(0), Number(1);
    LetErased(bs, 0, id);
    BoundLast(st, i);
    Varied(L, bs, id, E, w, x, a);
    Varied(L, bs, id, E, w, x, b);
    hide Respects, Run, Last;
    var F := Run(L, ps, 0, E, w).env;
    assert Same(F, Run(L, ps, 0, E[x := a], w).env, x) && Same(F, Run(L, ps, 0, E[x := b], w).env, x);
    assert !Kept(L, ps, E, w, x, a) || !Kept(L, ps, E, w, x, b);
  }

  /** A name that a `let` does not mention keeps whatever value it has around
      it if and only if the `let` does not generate it, on every run that gets
      through the bindings. */
  lemma UnmentionedKept(L: Language, bs: seq<LetBinding>, id: nat, E: Scope, w: int, x: string)
    requires Respects(L) && Flatten(bs, 0, id).Pairs? && x !in MentionsLet(bs, 0) && Run(L, Flatten(bs, 0, id).pairs, 0, E, w).Bound?
    ensures var ps := Flatten(bs, 0, id).pairs; (forall v :: Kept(L, ps, E, w, x, v)) <==> forall i | 0 <= i < |ps| :: ps[i].name != x
  {
    hide Respects, Run, Flatten, MentionsLet, Apart;
    var ps := Flatten(bs, 0, id).pairs;
    if i :| 0 <= i < |ps| && ps[i].name == x {
      Forgotten(L, bs, id, E, w, x, i);
    } else {
      forall v ensures Kept(L, ps, E, w, x, v) {
        Varied(L, bs, id, E, w, x, v);
        RunLeaves(L, ps, 0, E[x := v], w, x);
      }
    }
  }

  lemma {:induction false} BoundLast(st: seq<Step>, i: nat)
    requires i < |st|
    ensures Last(st, |st|, st[i].name) >= 0
    decreases |st|
  {
    LastFrom(st, |st|, i);
  }

  lemma {:induction false} LastFrom(st: seq<Step>, k: nat, i: nat)
    requires i < k <= |st|
    ensures Last(st, k, st[i].name) >= i
  {
    if i < k - 1 { LastFrom(st, k - 1, i); }
  }

  // ---- a program that does mention one

  /** `(let [vec__N 1, [a] nil, b vec__N] b)`. */
  function CapturingLet(N: nat): seq<LetBinding> {
    [LetBinding(Name(Gen("vec__", N)), Number(1)), LetBinding(Vector([Name("a")]), Nothing), LetBinding(Name("b"), Name(Gen("vec__", N)))]
  }

  lemma CapturingSteps(N: nat)
    ensures var vec := Gen("vec__", N);
            Flatten(CapturingLet(N), 0, N) ==
              Pairs([Pair(vec, Number(1)), Pair(vec, Nothing), Pair("a", Call(NTH, [Name(vec), Number(0), Nothing])), Pair("b", Name(vec))], N + 1)
  {
    var items, bs, vec := [Name("a")], CapturingLet(N), Gen("vec__", N);
    var nth := Call(NTH, [Name(vec), Number(0), Nothing]);
    assert Elements(items, 1, 1, false, vec, None, N + 1) == Pairs([], N + 1);
    assert Destructure(Name("a"), nth, N + 1) == Pairs([Pair("a", nth)], N + 1);
    assert Elements(items, 0, 0, false, vec, None, N + 1) == Pairs([Pair("a", nth)], N + 1);
    assert AMP !in items;
    assert Destructure(Vector(items), Nothing, N) == Pairs([Pair(vec, Nothing), Pair("a", nth)], N + 1);
    assert vec[0] == 'v';
    assert Flatten(bs, 3, N + 1) == Pairs([], N + 1);
    assert Flatten(bs, 2, N + 1) == Pairs([Pair("b", Name(vec))], N + 1);
    assert Flatten(bs, 1, N) == Pairs([Pair(vec, Nothing), Pair("a", nth), Pair("b", Name(vec))], N + 1);
  }

  lemma CapturingRuns(L: Language, N: nat, w: int)
    ensures var vec := Gen("vec__", N);
            Run(L, [Pair(vec, Number(1)), Pair(vec, Nothing), Pair("a", Call(NTH, [Name(vec), Number(0), Nothing])), Pair("b", Name(vec))], 0, map[], w) ==
              Bound(map[vec := Nothing, "a" := Nothing, "b" := Nothing], w)
  {
    var vec := Gen("vec__", N);
    var ps := [Pair(vec, Number(1)), Pair(vec, Nothing), Pair("a", Call(NTH, [Name(vec), Number(0), Nothing])), Pair("b", Name(vec))];
    var E := map[vec := Nothing];
    var F := E["a" := Nothing];
    assert vec[0] == 'v' && vec != "a";
    assert Eval(L, Name(vec), E, w) == Eval(L, Name(vec), F, w) == Ok(Nothing, w);
    EvalNth(L, Name(vec), 0, E, w, Nothing);
    assert Run(L, ps, 4, F["b" := Nothing], w) == Bound(F["b" := Nothing], w);
    assert Run(L, ps, 3, F, w) == Bound(F["b" := Nothing], w);
    assert Run(L, ps, 2, E, w) == Bound(F["b" := Nothing], w);
    assert map[vec := Number(1)][vec := Nothing] == E;
    assert Run(L, ps, 1, map[vec := Number(1)], w) == Bound(F["b" := Nothing], w);
  }

  lemma CapturingMeans(L: Language, N: nat, w: int)
    ensures MatchAll(L, CapturingLet(N), 0, map[], w) == Bound(map[Gen("vec__", N) := Number(1), "a" := Nothing, "b" := Number(1)], w)
  {
    var items, bs, vec := [Name("a")], CapturingLet(N), Gen("vec__", N);
    var e := map[vec := Number(1)];
    var e1 := e["a" := Nothing];
    var e2 := e1["b" := Number(1)];
    assert vec[0] == 'v' && vec != "a";
    assert MatchElements(L, items, 1, 1, Nothing, Some([]), e1, w) == Bound(e1, w);
    assert Match(L, Name("a"), Nothing, e, w) == Bound(e1, w);
    assert AMP !in items;
    assert MatchElements(L, items, 0, 0, Nothing, Some([]), e, w) == Bound(e1, w);
    assert Match(L, Vector(items), Nothing, e, w) == Bound(e1, w);
    assert Eval(L, Name(vec), e1, w) == Ok(Number(1), w);
    assert MatchAll(L, bs, 3, e2, w) == Bound(e2, w);
    assert MatchAll(L, bs, 2, e1, w) == Bound(e2, w);
    assert MatchAll(L, bs, 1, e, w) == Bound(e2, w);
    assert Match(L, Name(vec), Number(1), map[], w) == Bound(e, w);
  }

  /** Whatever the next id, a program that spells its name loses the value it
      gave it: `b` is nil and should be 1. */
  lemma CapturedName(L: Language, N: nat, w: int)
    ensures Flatten(CapturingLet(N), 0, N).Pairs?
    ensures Run(L, Flatten(CapturingLet(N), 0, N).pairs, 0, map[], w) == Bound(map[Gen("vec__", N) := Nothing, "a" := Nothing, "b" := Nothing], w)
    ensures MatchAll(L, CapturingLet(N), 0, map[], w) == Bound(map[Gen("vec__", N) := Number(1), "a" := Nothing, "b" := Number(1)], w)
    ensures InRange(Gen("vec__", N), N, Flatten(CapturingLet(N), 0, N).next)
  {
    hide Flatten, Run, MatchAll;
    CapturingSteps(N);
    CapturingRuns(L, N, w);
    CapturingMeans(L, N, w);
    assert Prefix("vec__");
  }
}
