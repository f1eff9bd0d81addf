/** Were the generated names out of the program's reach, the flat bindings,
    evaluated in order, would bind what the pattern means. */
module DestructuringProof {
  import opened Options
  import opened Forms
  import opened Destructuring
  import opened Hygiene

  predicate Prefix(p: string) { p in ["vec__", "seq__", "first__", "map__"] }

  /** A name generated from `lo` on. */
  ghost predicate Generated(x: string, lo: nat) { exists p, n: nat :: Prefix(p) && n >= lo && x == Gen(p, n) }

  lemma GenEnding(p: string, n: nat)
    requires Prefix(p)
    ensures Ending(Gen(p, n)) == n
  {
    EndingDigits(p, n);
  }

  lemma IsGenerated(p: string, n: nat, lo: nat)
    requires Prefix(p)
    ensures Generated(Gen(p, n), lo) <==> n >= lo
  {
    if Generated(Gen(p, n), lo) {
      var q, m: nat :| Prefix(q) && m >= lo && Gen(p, n) == Gen(q, m);
      GenEnding(p, n);
      GenEnding(q, m);
    }
  }

  lemma GenDiffer(p: string, n: nat, q: string, m: nat)
    requires Prefix(p) && Prefix(q) && n != m
    ensures Gen(p, n) != Gen(q, m)
  {
    GenEnding(p, n);
    GenEnding(q, m);
  }

  // ---- the bindings with the two kinds of names apart

  function At(G: Scope, g: string): Datum { if g in G then G[g] else Nothing }

  function Answered(a: Answer, w: int): Outcome { match a case Gives(v) => Ok(v, w) case Fails(x) => Raised(x, w) }

  /** The program's names are in `e`, the generated ones in `G`. */
  function Value(L: Language, x: Expr, e: Scope, G: Scope, w: int): Outcome {
    match x
    case Own(f) => Eval(L, f, e, w)
    case Copy(g) => Ok(At(G, g), w)
    case Lib(f, g) => Answered(Primitive(L, LibName(f), [At(G, g)]), w)
    case Nth(g, k) => Answered(Primitive(L, NTH, [At(G, g), Number(k), Nothing]), w)
    case Get(g, key, default) => Lookup(L, At(G, g), key, default, e, w)
  }

  datatype Split = Both(e: Scope, G: Scope, w: int) | Threw(x: Datum, w: int)

  /** The bindings in order, each made in its own scope. */
  function RunApart(L: Language, st: seq<Step>, i: nat, e: Scope, G: Scope, w: int): Split
    requires i <= |st|
    decreases |st| - i
  {
    if i == |st| then Both(e, G, w) else
    match Value(L, st[i].expr, e, G, w)
    case Raised(x, w1) => Threw(x, w1)
    case Ok(v, w1) =>
      if st[i].made then RunApart(L, st, i + 1, e, G[st[i].name := v], w1)
      else RunApart(L, st, i + 1, e[st[i].name := v], G, w1)
  }

  lemma {:induction false} ApartFrom(L: Language, a: seq<Step>, b: seq<Step>, i: nat, e: Scope, G: Scope, w: int)
    requires i <= |a|
    ensures RunApart(L, a + b, i, e, G, w) ==
            match RunApart(L, a, i, e, G, w) case Both(e1, G1, w1) => RunApart(L, a + b, |a|, e1, G1, w1) case r => r
    decreases |a| - i
  {
    if i < |a| {
      match Value(L, a[i].expr, e, G, w) {
        case Raised(_, _) =>
        case Ok(v, w1) =>
          if a[i].made { ApartFrom(L, a, b, i + 1, e, G[a[i].name := v], w1); }
          else { ApartFrom(L, a, b, i + 1, e[a[i].name := v], G, w1); }
      }
    }
  }

  lemma {:induction false} ApartShift(L: Language, a: seq<Step>, b: seq<Step>, i: nat, e: Scope, G: Scope, w: int)
    requires i <= |b|
    ensures RunApart(L, a + b, |a| + i, e, G, w) == RunApart(L, b, i, e, G, w)
    decreases |b| - i
  {
    if i < |b| {
      match Value(L, b[i].expr, e, G, w) {
        case Raised(_, _) =>
        case Ok(v, w1) =>
          if b[i].made { ApartShift(L, a, b, i + 1, e, G[b[i].name := v], w1); }
          else { ApartShift(L, a, b, i + 1, e[b[i].name := v], G, w1); }
      }
    }
  }

  /** Bindings run one part after the other. */
  lemma ApartBoth(L: Language, a: seq<Step>, b: seq<Step>, e: Scope, G: Scope, w: int)
    ensures RunApart(L, a + b, 0, e, G, w) ==
            match RunApart(L, a, 0, e, G, w) case Both(e1, G1, w1) => RunApart(L, b, 0, e1, G1, w1) case r => r
  {
    ApartFrom(L, a, b, 0, e, G, w);
    match RunApart(L, a, 0, e, G, w)
    case Both(e1, G1, w1) => ApartShift(L, a, b, 0, e1, G1, w1);
    case _ =>
  }

  lemma ApartMade(L: Language, x: Step, rest: seq<Step>, e: Scope, G: Scope, w: int)
    requires x.made
    ensures RunApart(L, [x] + rest, 0, e, G, w) ==
            match Value(L, x.expr, e, G, w)
            case Raised(y, w1) => Threw(y, w1)
            case Ok(v, w1) => RunApart(L, rest, 0, e, G[x.name := v], w1)
  {
    match Value(L, x.expr, e, G, w)
    case Raised(_, _) =>
    case Ok(v, w1) => ApartShift(L, [x], rest, 0, e, G[x.name := v], w1);
  }

  // ---- what they bind

  /** The names generated before `id` are left alone. */
  ghost predicate Keeps(G: Scope, G1: Scope, id: nat) {
    forall x | x in G && !Generated(x, id) :: x in G1 && G1[x] == G[x]
  }

  /** `r` is what the pattern means. */
  ghost predicate Follows(r: Split, m: Matched, G: Scope, id: nat) {
    match m
    case Bound(e, w) => r.Both? && r.e == e && r.w == w && Keeps(G, r.G, id)
    case Thrown(x, w) => r == Threw(x, w)
    case Malformed => false
  }

  lemma BindKeeps(G: Scope, p: string, n: nat, v: Datum, id: nat)
    requires Prefix(p) && id <= n
    ensures Keeps(G, G[Gen(p, n) := v], id)
  {
    IsGenerated(p, n, id);
  }

  lemma KeepsTrans(G: Scope, G1: Scope, G2: Scope, id: nat, id1: nat)
    requires id <= id1 && Keeps(G, G1, id) && Keeps(G1, G2, id1)
    ensures Keeps(G, G2, id)
  {
    forall x | x in G && !Generated(x, id) ensures x in G2 && G2[x] == G[x] { assert !Generated(x, id1); }
  }

  lemma KeepsName(G: Scope, G1: Scope, id: nat, p: string, n: nat)
    requires Keeps(G, G1, id) && Prefix(p) && n < id && Gen(p, n) in G
    ensures Gen(p, n) in G1 && G1[Gen(p, n)] == G[Gen(p, n)]
  {
    IsGenerated(p, n, id);
  }

  lemma FollowsLess(r: Split, m: Matched, G: Scope, id: nat, id1: nat)
    requires id <= id1 && Follows(r, m, G, id1)
    ensures Follows(r, m, G, id)
  {
    if m.Bound? {
      forall x | x in G && !Generated(x, id) ensures x in r.G && r.G[x] == G[x] { assert !Generated(x, id1); }
    }
  }

  /** A generated name bound first, then the rest. */
  lemma FollowsMade(L: Language, p: string, n: nat, x: Expr, rest: seq<Step>, e: Scope, G: Scope, w: int, v: Datum, w1: int, m: Matched, id: nat)
    requires Prefix(p) && id <= n && Value(L, x, e, G, w) == Ok(v, w1)
    requires Follows(RunApart(L, rest, 0, e, G[Gen(p, n) := v], w1), m, G[Gen(p, n) := v], id)
    ensures Follows(RunApart(L, [Step(Gen(p, n), true, x)] + rest, 0, e, G, w), m, G, id)
  {
    ApartMade(L, Step(Gen(p, n), true, x), rest, e, G, w);
    BindKeeps(G, p, n, v, id);
    if m.Bound? { KeepsTrans(G, G[Gen(p, n) := v], RunApart(L, rest, 0, e, G[Gen(p, n) := v], w1).G, id, id); }
  }

  /** One part of the bindings after another. */
  lemma FollowsBoth(L: Language, a: seq<Step>, b: seq<Step>, e: Scope, G: Scope, w: int, m: Matched, m1: Matched, id: nat)
    requires Follows(RunApart(L, a, 0, e, G, w), m, G, id)
    requires m.Bound? ==> var r := RunApart(L, a, 0, e, G, w); Follows(RunApart(L, b, 0, r.e, r.G, r.w), m1, r.G, id)
    requires !m.Bound? ==> m1 == m
    ensures Follows(RunApart(L, a + b, 0, e, G, w), m1, G, id)
  {
    ApartBoth(L, a, b, e, G, w);
    if m.Bound? && m1.Bound? {
      KeepsTrans(G, RunApart(L, a, 0, e, G, w).G, RunApart(L, a + b, 0, e, G, w).G, id, id);
    }
  }

  lemma NothingFollows(L: Language, e: Scope, G: Scope, id: nat, w: int)
    ensures Follows(RunApart(L, [], 0, e, G, w), Bound(e, w), G, id)
  {
  }

  /** The name of a pattern symbol bound. */
  lemma NameFollows(L: Language, x: string, f: Expr, e: Scope, G: Scope, id: nat, w: int)
    ensures Follows(RunApart(L, [Step(x, false, f)], 0, e, G, w), BindLookup(L, x, Value(L, f, e, G, w), e), G, id)
  {
    var st := [Step(x, false, f)];
    match Value(L, f, e, G, w)
    case Raised(_, _) =>
    case Ok(v, w1) => assert RunApart(L, st, 1, e[x := v], G, w1) == Both(e[x := v], G, w1);
  }

  /** A pattern's first binding is its value. */
  lemma FirstThrows(L: Language, p: Datum, x: Expr, id: nat, e: Scope, G: Scope, w: int, y: Datum, w1: int)
    requires Destructure(p, Form(x), id).Pairs? && Value(L, x, e, G, w) == Raised(y, w1)
    ensures RunApart(L, Steps(p, x, id), 0, e, G, w) == Threw(y, w1)
  {
    assert Steps(p, x, id)[0].expr == x;
  }

  // ---- ids only grow

  lemma {:induction false} NextGrows(p: Datum, value: Datum, id: nat)
    requires Destructure(p, value, id).Pairs?
    ensures Destructure(p, value, id).next >= id
    decreases p, 0
  {
    match p
    case Vector(items) =>
      if AMP in items { ElementsGrow(items, 0, 0, false, Gen("vec__", id), Some(Gen("seq__", id + 1)), id + 2); }
      else { ElementsGrow(items, 0, 0, false, Gen("vec__", id), None, id + 1); }
    case Table(entries) => EntriesGrow(entries, 0, Gen("map__", id), Defaults(entries, 0, map[]).defaults, id + 1);
    case _ =>
  }

  lemma {:induction false} ElementsGrow(items: seq<Datum>, i: nat, index: nat, seen: bool, vec: string, rest: Option<string>, id: nat)
    requires i <= |items| && Elements(items, i, index, seen, vec, rest, id).Pairs?
    ensures Elements(items, i, index, seen, vec, rest, id).next >= id
    decreases items, |items| - i
  {
    if i < |items| {
      var b := items[i];
      if b == AMP {
        NextGrows(items[i + 1], Name(rest.value), id);
        ElementsGrow(items, i + 2, index, true, vec, rest, Destructure(items[i + 1], Name(rest.value), id).next);
      } else if b == AS {
        NextGrows(items[i + 1], Name(vec), id);
      } else if rest.Some? {
        NextGrows(b, Name(Gen("first__", id)), id + 1);
        ElementsGrow(items, i + 1, index + 1, seen, vec, rest, Destructure(b, Name(Gen("first__", id)), id + 1).next);
      } else {
        var value := Call(NTH, [Name(vec), Number(index), Nothing]);
        NextGrows(b, value, id);
        ElementsGrow(items, i + 1, index + 1, seen, vec, rest, Destructure(b, value, id).next);
      }
    }
  }

  lemma {:induction false} KeysStay(names: seq<Datum>, t: nat, kind: Kind, m: string, defaults: map<string, Datum>, id: nat)
    requires t <= |names| && !kind.NoKind? && KeyNames(names, t, kind, m, defaults, id).Pairs?
    ensures KeyNames(names, t, kind, m, defaults, id).next == id
    decreases |names| - t
  {
    if t < |names| { KeysStay(names, t + 1, kind, m, defaults, id); }
  }

  lemma {:induction false} EntryGrows(en: Entry, m: string, defaults: map<string, Datum>, id: nat)
    requires EntryPairs(en, m, defaults, id).Pairs?
    ensures EntryPairs(en, m, defaults, id).next >= id
    decreases en
  {
    var k, v := en.key, en.val;
    if k == OR || k == AS {
    } else if k.Name? && IsKeyword(k.s) {
      KeysStay(v.items, 0, KindOf(k.s), m, defaults, id);
    } else if !k.Name? {
      NextGrows(k, GetForm(m, v, None), id);
    }
  }

  lemma {:induction false} EntriesGrow(entries: seq<Entry>, j: nat, m: string, defaults: map<string, Datum>, id: nat)
    requires j <= |entries| && Entries(entries, j, m, defaults, id).Pairs?
    ensures Entries(entries, j, m, defaults, id).next >= id
    decreases entries, |entries| - j
  {
    if j < |entries| {
      EntryGrows(entries[j], m, defaults, id);
      EntriesGrow(entries, j + 1, m, defaults, EntryPairs(entries[j], m, defaults, id).next);
    }
  }

  // ---- patterns

  /** The bindings of a pattern bind, in the order the pattern has them, what
      the pattern means. */
  lemma {:induction false} Matches(L: Language, p: Datum, x: Expr, id: nat, e: Scope, G: Scope, w0: int, v: Datum, w: int)
    requires Destructure(p, Form(x), id).Pairs? && Value(L, x, e, G, w0) == Ok(v, w)
    ensures Follows(RunApart(L, Steps(p, x, id), 0, e, G, w0), Match(L, p, v, e, w), G, id)
    decreases p, 0
  {
    match p
    case Name(s) => NameFollows(L, s, x, e, G, id, w0);
    case Vector(items) => VectorMatches(L, p, x, id, e, G, w0, v, w);
    case Table(entries) => TableMatches(L, p, x, id, e, G, w0, v, w);
    case _ =>
  }

  lemma {:induction false} VectorMatches(L: Language, p: Datum, x: Expr, id: nat, e: Scope, G: Scope, w0: int, v: Datum, w: int)
    requires p.Vector? && Destructure(p, Form(x), id).Pairs? && Value(L, x, e, G, w0) == Ok(v, w)
    ensures Follows(RunApart(L, Steps(p, x, id), 0, e, G, w0), Match(L, p, v, e, w), G, id)
    decreases p.items, |p.items| + 2
  {
    var items, vec := p.items, Gen("vec__", id);
    var G1 := G[vec := v];
    hide Follows, Keeps, Gen;
    if AMP in items {
      SeqMatches(L, items, id, e, G1, w, v);
      FollowsMade(L, "vec__", id, x, SeqSteps(items, id), e, G, w0, v, w, Match(L, p, v, e, w), id);
    } else {
      ElementsMatch(L, items, 0, 0, false, id, None, id + 1, e, G1, id, w, v, Indexed(L, v));
      FollowsMade(L, "vec__", id, x, ElementSteps(items, 0, 0, vec, None, id + 1), e, G, w0, v, w, Match(L, p, v, e, w), id);
    }
  }

  /** The bindings of a pattern with a rest, after the value's own. */
  function SeqSteps(items: seq<Datum>, id: nat): seq<Step> {
    var vec, rest := Gen("vec__", id), Gen("seq__", id + 1);
    [Step(rest, true, Lib(ToSeq, vec))] + ElementSteps(items, 0, 0, vec, Some(rest), id + 2)
  }

  lemma {:induction false} SeqMatches(L: Language, items: seq<Datum>, id: nat, e: Scope, G: Scope, w: int, v: Datum)
    requires AMP in items && Gen("vec__", id) in G && G[Gen("vec__", id)] == v
    requires Elements(items, 0, 0, false, Gen("vec__", id), Some(Gen("seq__", id + 1)), id + 2).Pairs?
    ensures Follows(RunApart(L, SeqSteps(items, id), 0, e, G, w), Match(L, Vector(items), v, e, w), G, id)
    decreases items, |items| + 1
  {
    hide Follows, Keeps, Gen;
    var vec, rest := Gen("vec__", id), Gen("seq__", id + 1);
    var st := ElementSteps(items, 0, 0, vec, Some(rest), id + 2);
    if Items(L, v).Some? {
      var xs := Items(L, v).value;
      GenDiffer("vec__", id, "seq__", id + 1);
      assert Remaining(xs, 0) == SeqOf(xs) by { assert xs[0..] == xs; }
      ElementsMatch(L, items, 0, 0, false, id, Some(id + 1), id + 2, e, G[rest := SeqOf(xs)], id, w, v, Some(xs));
      FollowsMade(L, "seq__", id + 1, Lib(ToSeq, vec), st, e, G, w, SeqOf(xs), w, Match(L, Vector(items), v, e, w), id);
    } else {
      ApartMade(L, Step(rest, true, Lib(ToSeq, vec)), st, e, G, w);
      ThrowFollows(L.wrong(SEQ, v), w, G, id);
    }
  }

  lemma ThrowFollows(x: Datum, w: int, G: Scope, id: nat)
    ensures Follows(Threw(x, w), Thrown(x, w), G, id)
  {
  }

  /** The vector of a pattern is in its generated name, and what is left of its
      seq, if the pattern has a rest, in the other. */
  ghost predicate Walking(L: Language, G: Scope, nv: nat, ns: Option<nat>, id: nat, from: nat, v: Datum, xs: Option<seq<Datum>>, index: nat, seen: bool) {
    && from <= nv < id && Gen("vec__", nv) in G && G[Gen("vec__", nv)] == v
    && match ns
       case None => xs == Indexed(L, v)
       case Some(n) =>
         && from <= n < id && n != nv && xs.Some?
         && (!seen ==> Gen("seq__", n) in G && G[Gen("seq__", n)] == Remaining(xs.value, index))
  }

  function SeqName(ns: Option<nat>): Option<string> { if ns.Some? then Some(Gen("seq__", ns.value)) else None }

  lemma WalkingLater(L: Language, G: Scope, G1: Scope, nv: nat, ns: Option<nat>, id: nat, id1: nat, from: nat, v: Datum,
                     xs: Option<seq<Datum>>, index: nat, seen: bool)
    requires Walking(L, G, nv, ns, id, from, v, xs, index, seen) && Keeps(G, G1, id) && id <= id1
    ensures Walking(L, G1, nv, ns, id1, from, v, xs, index, seen)
  {
    KeepsName(G, G1, id, "vec__", nv);
    if ns.Some? && !seen { KeepsName(G, G1, id, "seq__", ns.value); }
  }

  /** The walk with `first` and `next`, or with `nth`, binds what the items mean. */
  lemma {:induction false} ElementsMatch(L: Language, items: seq<Datum>, i: nat, index: nat, seen: bool, nv: nat, ns: Option<nat>, id: nat,
                                         e: Scope, G: Scope, from: nat, w: int, v: Datum, xs: Option<seq<Datum>>)
    requires i <= |items| && Elements(items, i, index, seen, Gen("vec__", nv), SeqName(ns), id).Pairs?
    requires Walking(L, G, nv, ns, id, from, v, xs, index, seen)
    ensures Follows(RunApart(L, ElementSteps(items, i, index, Gen("vec__", nv), SeqName(ns), id), 0, e, G, w),
                    MatchElements(L, items, i, index, v, xs, e, w), G, from)
    decreases items, |items| - i, 2
  {
    hide Follows, Keeps, Gen;
    if i == |items| { NothingFollows(L, e, G, from, w); return; }
    var vec, b := Gen("vec__", nv), items[i];
    if b == AS {
      Matches(L, items[i + 1], Copy(vec), id, e, G, w, v, w);
      FollowsLess(RunApart(L, Steps(items[i + 1], Copy(vec), id), 0, e, G, w), Match(L, items[i + 1], v, e, w), G, from, id);
    } else if b == AMP {
      RestMatches(L, items, i, index, nv, ns.value, id, e, G, from, w, v, xs.value);
    } else if ns.Some? {
      WalkMatches(L, items, i, index, nv, ns.value, id, e, G, from, w, v, xs.value);
    } else {
      IndexMatches(L, items, i, index, nv, id, e, G, from, w, v, xs);
    }
  }

  lemma {:induction false} RestMatches(L: Language, items: seq<Datum>, i: nat, index: nat, nv: nat, ns: nat, id: nat,
                                       e: Scope, G: Scope, from: nat, w: int, v: Datum, xs: seq<Datum>)
    requires i < |items| && items[i] == AMP && Elements(items, i, index, false, Gen("vec__", nv), Some(Gen("seq__", ns)), id).Pairs?
    requires Walking(L, G, nv, Some(ns), id, from, v, Some(xs), index, false)
    ensures Follows(RunApart(L, ElementSteps(items, i, index, Gen("vec__", nv), Some(Gen("seq__", ns)), id), 0, e, G, w),
                    MatchElements(L, items, i, index, v, Some(xs), e, w), G, from)
    decreases items, |items| - i, 0
  {
    hide Follows, Keeps, Gen, Destructure, Steps;
    var vec, rest := Gen("vec__", nv), Gen("seq__", ns);
    var p, x, part := items[i + 1], Copy(rest), Remaining(xs, index);
    var a, n := Steps(p, x, id), Next(p, x, id);
    var m := Match(L, p, part, e, w);
    Matches(L, p, x, id, e, G, w, part, w);
    NextGrows(p, Form(x), id);
    var r := RunApart(L, a, 0, e, G, w);
    if m.Bound? {
      KeptAfter(r, m, G, id);
      WalkingLater(L, G, r.G, nv, Some(ns), id, n, from, v, Some(xs), index, true);
      ElementsMatch(L, items, i + 2, index, true, nv, Some(ns), n, m.env, r.G, from, m.w, v, Some(xs));
    }
    FollowsLess(r, m, G, from, id);
    FollowsBoth(L, a, ElementSteps(items, i + 2, index, vec, Some(rest), n), e, G, w, m, MatchElements(L, items, i, index, v, Some(xs), e, w), from);
  }

  lemma KeptAfter(r: Split, m: Matched, G: Scope, id: nat)
    requires m.Bound? && Follows(r, m, G, id)
    ensures r.Both? && r.e == m.env && r.w == m.w && Keeps(G, r.G, id)
  {
  }

  lemma {:induction false} IndexMatches(L: Language, items: seq<Datum>, i: nat, index: nat, nv: nat, id: nat,
                                        e: Scope, G: Scope, from: nat, w: int, v: Datum, xs: Option<seq<Datum>>)
    requires i < |items| && items[i] != AMP && items[i] != AS && Elements(items, i, index, false, Gen("vec__", nv), None, id).Pairs?
    requires Walking(L, G, nv, None, id, from, v, xs, index, false)
    ensures Follows(RunApart(L, ElementSteps(items, i, index, Gen("vec__", nv), None, id), 0, e, G, w),
                    MatchElements(L, items, i, index, v, xs, e, w), G, from)
    decreases items, |items| - i, 0
  {
    hide Follows, Keeps, Gen, Destructure, Steps;
    var vec := Gen("vec__", nv);
    var p, x := items[i], Nth(vec, index);
    var a, n := Steps(p, x, id), Next(p, x, id);
    var b := ElementSteps(items, i + 1, index + 1, vec, None, n);
    if xs.None? {
      FirstThrows(L, p, x, id, e, G, w, L.wrong(NTH, v), w);
      ApartBoth(L, a, b, e, G, w);
      ThrowFollows(L.wrong(NTH, v), w, G, from);
      return;
    }
    var part := Component(xs.value, index);
    var m := Match(L, p, part, e, w);
    Matches(L, p, x, id, e, G, w, part, w);
    NextGrows(p, Form(x), id);
    var r := RunApart(L, a, 0, e, G, w);
    if m.Bound? {
      KeptAfter(r, m, G, id);
      WalkingLater(L, G, r.G, nv, None, id, n, from, v, xs, index, false);
      ElementsMatch(L, items, i + 1, index + 1, false, nv, None, n, m.env, r.G, from, m.w, v, xs);
    }
    FollowsLess(r, m, G, from, id);
    FollowsBoth(L, a, b, e, G, w, m, MatchElements(L, items, i, index, v, xs, e, w), from);
  }

  /** An item of a walk: its element and the seq after it, then the item. */
  lemma {:induction false} WalkMatches(L: Language, items: seq<Datum>, i: nat, index: nat, nv: nat, ns: nat, id: nat,
                                       e: Scope, G: Scope, from: nat, w: int, v: Datum, xs: seq<Datum>)
    requires i < |items| && items[i] != AMP && items[i] != AS
    requires Elements(items, i, index, false, Gen("vec__", nv), Some(Gen("seq__", ns)), id).Pairs?
    requires Walking(L, G, nv, Some(ns), id, from, v, Some(xs), index, false)
    ensures Follows(RunApart(L, ElementSteps(items, i, index, Gen("vec__", nv), Some(Gen("seq__", ns)), id), 0, e, G, w),
                    MatchElements(L, items, i, index, v, Some(xs), e, w), G, from)
    decreases items, |items| - i, 1
  {
    hide Follows, Keeps, Gen, Destructure, Steps, Elements, Walking;
    var rest, first := Gen("seq__", ns), Gen("first__", id);
    var part, left := Component(xs, index), Remaining(xs, index + 1);
    var G1 := G[first := part];
    var G2 := G1[rest := left];
    var st := ItemSteps(items, i, index, nv, ns, id);
    var m := MatchElements(L, items, i, index, v, Some(xs), e, w);
    StepWalked(L, nv, ns, id, e, G, from, w, v, xs, index);
    ItemElements(items, i, index, nv, ns, id);
    ItemMatches(L, items, i, index, nv, ns, id, e, G2, from, w, v, xs);
    FollowsMade(L, "seq__", ns, Lib(ToNext, rest), st, e, G1, w, left, w, m, from);
    FollowsMade(L, "first__", id, Lib(ToFirst, rest), [Step(rest, true, Lib(ToNext, rest))] + st, e, G, w, part, w, m, from);
  }

  /** The bindings of an item of a walk from its element, and those that follow. */
  function ItemSteps(items: seq<Datum>, i: nat, index: nat, nv: nat, ns: nat, id: nat): seq<Step>
    requires i < |items|
  {
    var x := Copy(Gen("first__", id));
    Steps(items[i], x, id + 1) + ElementSteps(items, i + 1, index + 1, Gen("vec__", nv), Some(Gen("seq__", ns)), Next(items[i], x, id + 1))
  }

  lemma ItemElements(items: seq<Datum>, i: nat, index: nat, nv: nat, ns: nat, id: nat)
    requires i < |items| && items[i] != AMP && items[i] != AS
    requires Elements(items, i, index, false, Gen("vec__", nv), Some(Gen("seq__", ns)), id).Pairs?
    ensures var first, rest := Gen("first__", id), Gen("seq__", ns);
            && Destructure(items[i], Name(first), id + 1).Pairs?
            && Elements(items, i + 1, index + 1, false, Gen("vec__", nv), Some(rest), Next(items[i], Copy(first), id + 1)).Pairs?
            && ElementSteps(items, i, index, Gen("vec__", nv), Some(rest), id) ==
               [Step(first, true, Lib(ToFirst, rest))] + ([Step(rest, true, Lib(ToNext, rest))] + ItemSteps(items, i, index, nv, ns, id))
  {
    hide Gen, Destructure, Steps;
    var first, rest := Gen("first__", id), Gen("seq__", ns);
    var a, b, st := Step(first, true, Lib(ToFirst, rest)), Step(rest, true, Lib(ToNext, rest)), ItemSteps(items, i, index, nv, ns, id);
    assert [a, b] + st == [a] + ([b] + st);
  }

  /** `first` and `next`. */
  lemma StepWalked(L: Language, nv: nat, ns: nat, id: nat, e: Scope, G: Scope, from: nat, w: int, v: Datum, xs: seq<Datum>, index: nat)
    requires Walking(L, G, nv, Some(ns), id, from, v, Some(xs), index, false)
    ensures var rest, first, part, left := Gen("seq__", ns), Gen("first__", id), Component(xs, index), Remaining(xs, index + 1);
            var G1 := G[first := part];
            && from <= id && from <= ns
            && Value(L, Lib(ToFirst, rest), e, G, w) == Ok(part, w) && Value(L, Lib(ToNext, rest), e, G1, w) == Ok(left, w)
            && Walking(L, G1[rest := left], nv, Some(ns), id + 1, from, v, Some(xs), index + 1, false)
            && first in G1[rest := left] && G1[rest := left][first] == part
  {
    hide Gen;
    GenDiffer("vec__", nv, "seq__", ns);
    GenDiffer("vec__", nv, "first__", id);
    GenDiffer("seq__", ns, "first__", id);
    assert index < |xs| ==> xs[index..][1..] == xs[index + 1..];
  }

  lemma {:induction false} ItemMatches(L: Language, items: seq<Datum>, i: nat, index: nat, nv: nat, ns: nat, id: nat,
                                       e: Scope, G: Scope, from: nat, w: int, v: Datum, xs: seq<Datum>)
    requires i < |items| && items[i] != AMP && items[i] != AS && Destructure(items[i], Name(Gen("first__", id)), id + 1).Pairs?
    requires Elements(items, i + 1, index + 1, false, Gen("vec__", nv), Some(Gen("seq__", ns)), Next(items[i], Copy(Gen("first__", id)), id + 1)).Pairs?
    requires Walking(L, G, nv, Some(ns), id + 1, from, v, Some(xs), index + 1, false)
    requires Gen("first__", id) in G && G[Gen("first__", id)] == Component(xs, index)
    ensures Follows(RunApart(L, ItemSteps(items, i, index, nv, ns, id), 0, e, G, w), MatchElements(L, items, i, index, v, Some(xs), e, w), G, from)
    decreases items, |items| - i, 0
  {
    hide Follows, Keeps, Gen, Destructure, Steps, Elements;
    var p, x, part := items[i], Copy(Gen("first__", id)), Component(xs, index);
    var a, n := Steps(p, x, id + 1), Next(p, x, id + 1);
    var m := Match(L, p, part, e, w);
    Matches(L, p, x, id + 1, e, G, w, part, w);
    NextGrows(p, Form(x), id + 1);
    var r := RunApart(L, a, 0, e, G, w);
    if m.Bound? {
      KeptAfter(r, m, G, id + 1);
      WalkingLater(L, G, r.G, nv, Some(ns), id + 1, n, from, v, Some(xs), index + 1, false);
      ElementsMatch(L, items, i + 1, index + 1, false, nv, Some(ns), n, m.env, r.G, from, m.w, v, Some(xs));
    }
    FollowsLess(r, m, G, from, id + 1);
    FollowsBoth(L, a, ElementSteps(items, i + 1, index + 1, Gen("vec__", nv), Some(Gen("seq__", ns)), n), e, G, w, m,
                MatchElements(L, items, i, index, v, Some(xs), e, w), from);
  }

  // ---- maps

  lemma {:induction false} TableMatches(L: Language, p: Datum, x: Expr, id: nat, e: Scope, G: Scope, w0: int, v: Datum, w: int)
    requires p.Table? && Destructure(p, Form(x), id).Pairs? && Value(L, x, e, G, w0) == Ok(v, w)
    ensures Follows(RunApart(L, Steps(p, x, id), 0, e, G, w0), Match(L, p, v, e, w), G, id)
    decreases p.entries, |p.entries| + 1
  {
    hide Follows, Keeps, Gen, Entries;
    var entries, m := p.entries, Gen("map__", id);
    var defaults, mv := Defaults(entries, 0, map[]).defaults, L.asTable(v);
    var st := EntriesSteps(entries, 0, m, defaults, id + 1);
    var G1 := G[m := v];
    EntriesMatch(L, entries, 0, id, defaults, id + 1, e, G1[m := mv], id, w, mv);
    FollowsMade(L, "map__", id, Lib(ToTable, m), st, e, G1, w, mv, w, Match(L, p, v, e, w), id);
    FollowsMade(L, "map__", id, x, [Step(m, true, Lib(ToTable, m))] + st, e, G, w0, v, w, Match(L, p, v, e, w), id);
    TableSteps(p, x, id);
  }

  lemma TableSteps(p: Datum, x: Expr, id: nat)
    requires p.Table? && Defaults(p.entries, 0, map[]).Found?
    ensures var m := Gen("map__", id);
            Steps(p, x, id) == [Step(m, true, x)] + ([Step(m, true, Lib(ToTable, m))] +
                               EntriesSteps(p.entries, 0, m, Defaults(p.entries, 0, map[]).defaults, id + 1))
  {
    hide Gen, EntriesSteps, Defaults;
    var m := Gen("map__", id);
    var a, b, st := Step(m, true, x), Step(m, true, Lib(ToTable, m)), EntriesSteps(p.entries, 0, m, Defaults(p.entries, 0, map[]).defaults, id + 1);
    assert [a, b] + st == [a] + ([b] + st);
  }

  lemma {:induction false} EntriesMatch(L: Language, entries: seq<Entry>, j: nat, nm: nat, defaults: map<string, Datum>, id: nat,
                                        e: Scope, G: Scope, from: nat, w: int, mv: Datum)
    requires j <= |entries| && from <= nm < id && Gen("map__", nm) in G && G[Gen("map__", nm)] == mv
    requires Entries(entries, j, Gen("map__", nm), defaults, id).Pairs?
    ensures Follows(RunApart(L, EntriesSteps(entries, j, Gen("map__", nm), defaults, id), 0, e, G, w),
                    MatchEntries(L, entries, j, mv, defaults, e, w), G, from)
    decreases entries, |entries| - j
  {
    hide Follows, Keeps, Gen, EntryPairs, EntrySteps, MatchEntry;
    if j == |entries| {
      NothingFollows(L, e, G, from, w);
    } else {
      var m, en := Gen("map__", nm), entries[j];
      var a, n := EntrySteps(en, m, defaults, id), EntryPairs(en, m, defaults, id).next;
      var r, q := MatchEntry(L, en, mv, defaults, e, w), RunApart(L, a, 0, e, G, w);
      EntryMatches(L, en, nm, defaults, id, e, G, w, mv);
      EntryGrows(en, m, defaults, id);
      if r.Bound? {
        KeptAfter(q, r, G, id);
        KeepsName(G, q.G, id, "map__", nm);
        EntriesMatch(L, entries, j + 1, nm, defaults, n, r.env, q.G, from, r.w, mv);
      }
      FollowsLess(q, r, G, from, id);
      FollowsBoth(L, a, EntriesSteps(entries, j + 1, m, defaults, n), e, G, w, r, MatchEntries(L, entries, j, mv, defaults, e, w), from);
    }
  }

  lemma {:induction false} EntryMatches(L: Language, en: Entry, nm: nat, defaults: map<string, Datum>, id: nat, e: Scope, G: Scope, w: int, mv: Datum)
    requires nm < id && Gen("map__", nm) in G && G[Gen("map__", nm)] == mv && EntryPairs(en, Gen("map__", nm), defaults, id).Pairs?
    ensures Follows(RunApart(L, EntrySteps(en, Gen("map__", nm), defaults, id), 0, e, G, w), MatchEntry(L, en, mv, defaults, e, w), G, id)
    decreases en
  {
    hide Follows, Keeps, Gen, Lookup;
    var k, v, m := en.key, en.val, Gen("map__", nm);
    if k == OR {
      NothingFollows(L, e, G, id, w);
    } else if k == AS {
      NameFollows(L, v.s, Copy(m), e, G, id, w);
    } else if k.Name? && IsKeyword(k.s) {
      KeysMatch(L, v.items, 0, KindOf(k.s), nm, defaults, id, e, G, w, mv);
    } else if k.Name? {
      NameFollows(L, k.s, Get(m, v, DefaultOf(defaults, k.s)), e, G, id, w);
    } else {
      var x := Get(m, v, None);
      match Lookup(L, mv, v, None, e, w) {
        case Raised(y, w1) =>
          FirstThrows(L, k, x, id, e, G, w, y, w1);
          ThrowFollows(y, w1, G, id);
        case Ok(part, w1) => Matches(L, k, x, id, e, G, w, part, w1);
      }
    }
  }

  lemma {:induction false} KeysMatch(L: Language, names: seq<Datum>, t: nat, kind: Kind, nm: nat, defaults: map<string, Datum>, id: nat,
                                     e: Scope, G: Scope, w: int, mv: Datum)
    requires t <= |names| && !kind.NoKind? && nm < id && Gen("map__", nm) in G && G[Gen("map__", nm)] == mv
    requires KeyNames(names, t, kind, Gen("map__", nm), defaults, id).Pairs?
    ensures Follows(RunApart(L, KeySteps(names, t, kind, Gen("map__", nm), defaults), 0, e, G, w),
                    MatchKeys(L, names, t, kind, mv, defaults, e, w), G, id)
    decreases |names| - t
  {
    hide Follows, Keeps, Gen, Lookup, KeyForm;
    if t == |names| {
      NothingFollows(L, e, G, id, w);
    } else {
      var m, spelled := Gen("map__", nm), Bare(names[t].s);
      var local := Local(spelled);
      var x := Get(m, KeyForm(kind, spelled), DefaultOf(defaults, local));
      var o := Value(L, x, e, G, w);
      var a := [Step(local, false, x)];
      NameFollows(L, local, x, e, G, id, w);
      if o.Ok? {
        KeptAfter(RunApart(L, a, 0, e, G, w), BindLookup(L, local, o, e), G, id);
        KeepsName(G, RunApart(L, a, 0, e, G, w).G, id, "map__", nm);
        KeysMatch(L, names, t + 1, kind, nm, defaults, id, e[local := o.v], RunApart(L, a, 0, e, G, w).G, o.w, mv);
      }
      FollowsBoth(L, a, KeySteps(names, t + 1, kind, m, defaults), e, G, w, BindLookup(L, local, o, e), MatchKeys(L, names, t, kind, mv, defaults, e, w), id);
    }
  }

  // ---- a `let`

  datatype LetBinding = LetBinding(pattern: Datum, value: Datum)

  /** All the bindings of a `let`, flat. */
  function Flatten(bs: seq<LetBinding>, i: nat, id: nat): Flat
    requires i <= |bs|
    decreases |bs| - i
  {
    if i == |bs| then Pairs([], id) else
    match Destructure(bs[i].pattern, bs[i].value, id)
    case Wrong(e) => Wrong(e)
    case Pairs(ps, n) => Then(ps, Flatten(bs, i + 1, n))
  }

  function LetSteps(bs: seq<LetBinding>, i: nat, id: nat): seq<Step>
    requires i <= |bs|
    decreases |bs| - i
  {
    if i == |bs| then [] else
    var x := Own(bs[i].value);
    Steps(bs[i].pattern, x, id) + LetSteps(bs, i + 1, Next(bs[i].pattern, x, id))
  }

  lemma {:induction false} LetErased(bs: seq<LetBinding>, i: nat, id: nat)
    requires i <= |bs| && Flatten(bs, i, id).Pairs?
    ensures Flatten(bs, i, id).pairs == Erase(LetSteps(bs, i, id))
    decreases |bs| - i
  {
    hide Destructure, Steps;
    if i < |bs| {
      var x := Own(bs[i].value);
      Erased(bs[i].pattern, x, id);
      LetErased(bs, i + 1, Next(bs[i].pattern, x, id));
      EraseBoth(Steps(bs[i].pattern, x, id), LetSteps(bs, i + 1, Next(bs[i].pattern, x, id)));
    }
  }

  /** Each value evaluated in the scope so far and matched. */
  function MatchAll(L: Language, bs: seq<LetBinding>, i: nat, env: Scope, w: int): Matched
    requires i <= |bs|
    decreases |bs| - i
  {
    if i == |bs| then Bound(env, w) else
    match Eval(L, bs[i].value, env, w)
    case Raised(x, w1) => Thrown(x, w1)
    case Ok(v, w1) =>
      match Match(L, bs[i].pattern, v, env, w1)
      case Bound(env1, w2) => MatchAll(L, bs, i + 1, env1, w2)
      case m => m
  }

  /** A destructuring `let`, with its generated names apart, binds what its
      patterns mean. */
  lemma {:induction false} LetMatches(L: Language, bs: seq<LetBinding>, i: nat, id: nat, e: Scope, G: Scope, w: int)
    requires i <= |bs| && Flatten(bs, i, id).Pairs?
    ensures Follows(RunApart(L, LetSteps(bs, i, id), 0, e, G, w), MatchAll(L, bs, i, e, w), G, id)
    decreases |bs| - i
  {
    hide Follows, Keeps, Destructure, Steps;
    if i == |bs| {
      NothingFollows(L, e, G, id, w);
    } else {
      var p, x := bs[i].pattern, Own(bs[i].value);
      var a, n := Steps(p, x, id), Next(p, x, id);
      var b := LetSteps(bs, i + 1, n);
      match Eval(L, bs[i].value, e, w) {
        case Raised(y, w1) =>
          FirstThrows(L, p, x, id, e, G, w, y, w1);
          ApartBoth(L, a, b, e, G, w);
          ThrowFollows(y, w1, G, id);
        case Ok(v, w1) =>
          var m := Match(L, p, v, e, w1);
          Matches(L, p, x, id, e, G, w, v, w1);
          NextGrows(p, Form(x), id);
          var r := RunApart(L, a, 0, e, G, w);
          if m.Bound? {
            KeptAfter(r, m, G, id);
            LetMatches(L, bs, i + 1, n, m.env, r.G, m.w);
            FollowsLess(RunApart(L, b, 0, m.env, r.G, m.w), MatchAll(L, bs, i + 1, m.env, m.w), r.G, id, n);
          }
          FollowsBoth(L, a, b, e, G, w, m, MatchAll(L, bs, i, e, w), id);
      }
    }
  }

  /** Names bound plainly stay as they are. */
  lemma {:induction false} SimpleFlat(bs: seq<LetBinding>, i: nat, id: nat)
    requires i <= |bs| && forall j | i <= j < |bs| :: bs[j].pattern.Name? && !IsKeyword(bs[j].pattern.s)
    ensures Flatten(bs, i, id) == Pairs(seq(|bs| - i, j requires 0 <= j < |bs| - i => Pair(bs[i + j].pattern.s, bs[i + j].value)), id)
    decreases |bs| - i
  {
    if i < |bs| { SimpleFlat(bs, i + 1, id); }
  }
}
