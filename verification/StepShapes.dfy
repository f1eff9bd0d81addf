/** What the flat bindings of a pattern are made of: which names are the
    program's, which are generated, and that these are bound before they are
    read. */
module StepShapes {
  import opened Options
  import opened Forms
  import opened Destructuring
  import opened Hygiene
  import opened DestructuringProof

  /** A name generated from `id` on, up to `n`. */
  ghost predicate InRange(x: string, id: nat, n: nat) { exists p, k: nat :: Prefix(p) && id <= k < n && x == Gen(p, k) }

  predicate MadeBefore(st: seq<Step>, i: nat, g: string) { exists j :: 0 <= j < i && j < |st| && st[j].made && st[j].name == g }

  /** The program's names are in `M`; a generated one is in the range, or one
      of `K`, and is bound before it is read, if it is not one of `K`. */
  ghost predicate StepOk(st: seq<Step>, i: nat, M: set<string>, K: set<string>, id: nat, n: nat)
    requires i < |st|
  {
    && ReadsOf(st[i].expr) <= M
    && (if st[i].made then st[i].name in K || InRange(st[i].name, id, n) else st[i].name in M)
    && (forall g | g in Uses(st[i].expr) :: g in K || MadeBefore(st, i, g))
  }

  ghost predicate Shaped(st: seq<Step>, M: set<string>, K: set<string>, id: nat, n: nat) {
    forall i | 0 <= i < |st| :: StepOk(st, i, M, K, id, n)
  }

  lemma ShapedBoth(a: seq<Step>, b: seq<Step>, M: set<string>, K: set<string>, N: set<string>, id: nat, m: nat, m1: nat, n: nat)
    requires Shaped(a, M, K, id, m) && Shaped(b, M, K + N, m1, n) && id <= m <= n && id <= m1
    requires forall g | g in N :: MadeBefore(a, |a|, g)
    ensures Shaped(a + b, M, K, id, n)
  {
    var st := a + b;
    forall i | 0 <= i < |st| ensures StepOk(st, i, M, K, id, n) {
      if i < |a| {
        assert StepOk(a, i, M, K, id, m);
        forall g | MadeBefore(a, i, g) ensures MadeBefore(st, i, g) {
          var j :| 0 <= j < i && a[j].made && a[j].name == g;
          assert st[j] == a[j];
        }
      } else {
        var k := i - |a|;
        assert st[i] == b[k] && StepOk(b, k, M, K + N, m1, n);
        forall g | g in N || MadeBefore(b, k, g) ensures MadeBefore(st, i, g) {
          if g in N {
            var j :| 0 <= j < |a| && a[j].made && a[j].name == g;
            assert st[j] == a[j];
          } else {
            var j :| 0 <= j < k && b[j].made && b[j].name == g;
            assert st[|a| + j] == b[j];
          }
        }
        if st[i].made && st[i].name in N { RangeOfMade(a, M, K, id, m, n, st[i].name); }
      }
    }
  }

  lemma RangeOfMade(a: seq<Step>, M: set<string>, K: set<string>, id: nat, m: nat, n: nat, g: string)
    requires Shaped(a, M, K, id, m) && m <= n && MadeBefore(a, |a|, g)
    ensures g in K || InRange(g, id, n)
  {
    var j :| 0 <= j < |a| && a[j].made && a[j].name == g;
    assert StepOk(a, j, M, K, id, m);
  }

  lemma MadeShaped(p: string, k: nat, x: Expr, M: set<string>, K: set<string>, id: nat, n: nat)
    requires Prefix(p) && id <= k < n && ReadsOf(x) <= M && Uses(x) <= K
    ensures var st := [Step(Gen(p, k), true, x)]; Shaped(st, M, K, id, n) && MadeBefore(st, 1, Gen(p, k))
  {
    var st := [Step(Gen(p, k), true, x)];
    assert st[0].made;
    assert StepOk(st, 0, M, K, id, n);
  }

  lemma OwnShaped(s: string, x: Expr, M: set<string>, K: set<string>, id: nat, n: nat)
    requires s in M && ReadsOf(x) <= M && Uses(x) <= K
    ensures Shaped([Step(s, false, x)], M, K, id, n)
  {
    var st := [Step(s, false, x)];
    assert StepOk(st, 0, M, K, id, n);
  }

  lemma AgainShaped(g: string, x: Expr, M: set<string>, K: set<string>, id: nat, n: nat)
    requires g in K && ReadsOf(x) <= M && Uses(x) <= K
    ensures Shaped([Step(g, true, x)], M, K, id, n)
  {
    var st := [Step(g, true, x)];
    assert StepOk(st, 0, M, K, id, n);
  }

  lemma ShapedMore(st: seq<Step>, M: set<string>, K: set<string>, K1: set<string>, id: nat, n: nat)
    requires Shaped(st, M, K, id, n) && K <= K1
    ensures Shaped(st, M, K1, id, n)
  {
    forall i | 0 <= i < |st| ensures StepOk(st, i, M, K1, id, n) { assert StepOk(st, i, M, K, id, n); }
  }

  /** Bindings one after the other, neither needing the other's names. */
  lemma ShapedThen(a: seq<Step>, b: seq<Step>, M: set<string>, K: set<string>, id: nat, m: nat, n: nat)
    requires Shaped(a, M, K, id, m) && Shaped(b, M, K, m, n) && id <= m <= n
    ensures Shaped(a + b, M, K, id, n)
  {
    assert K + {} == K;
    ShapedBoth(a, b, M, K, {}, id, m, m, n);
  }

  /** A generated name bound first, for the rest to read. */
  lemma ShapedMade(p: string, k: nat, x: Expr, b: seq<Step>, M: set<string>, K: set<string>, id: nat, m: nat, n: nat)
    requires Prefix(p) && id <= k < n && ReadsOf(x) <= M && Uses(x) <= K && Shaped(b, M, K + {Gen(p, k)}, m, n) && id <= m
    ensures Shaped([Step(Gen(p, k), true, x)] + b, M, K, id, n)
  {
    MadeShaped(p, k, x, M, K, id, n);
    ShapedBoth([Step(Gen(p, k), true, x)], b, M, K, {Gen(p, k)}, id, n, m, n);
  }

  lemma {:induction false} PatternShaped(p: Datum, x: Expr, id: nat, M: set<string>)
    requires Destructure(p, Form(x), id).Pairs? && Mentions(p) <= M && ReadsOf(x) <= M
    ensures Shaped(Steps(p, x, id), M, Uses(x), id, Next(p, x, id)) && id <= Next(p, x, id)
    decreases p, 0
  {
    hide Shaped, Gen;
    NextGrows(p, Form(x), id);
    match p
    case Name(s) => OwnShaped(s, x, M, Uses(x), id, id);
    case Vector(items) => VectorShaped(items, x, id, M);
    case Table(entries) =>
      var m, d := Gen("map__", id), Defaults(entries, 0, map[]).defaults;
      var b := EntriesSteps(entries, 0, m, d, id + 1);
      var n := Next(p, x, id);
      DefaultsWithin(entries, 0, map[], M);
      EntriesGrow(entries, 0, m, d, id + 1);
      EntriesShaped(entries, 0, m, d, id + 1, M, Uses(x) + {m});
      AgainShaped(m, Lib(ToTable, m), M, Uses(x) + {m}, id + 1, id + 1);
      ShapedThen([Step(m, true, Lib(ToTable, m))], b, M, Uses(x) + {m}, id + 1, id + 1, n);
      ShapedMade("map__", id, x, [Step(m, true, Lib(ToTable, m))] + b, M, Uses(x), id, id + 1, n);
      TableSteps(p, x, id);
    case _ =>
  }

  lemma {:induction false} VectorShaped(items: seq<Datum>, x: Expr, id: nat, M: set<string>)
    requires Destructure(Vector(items), Form(x), id).Pairs? && MentionsAll(items) <= M && ReadsOf(x) <= M
    ensures Shaped(Steps(Vector(items), x, id), M, Uses(x), id, Next(Vector(items), x, id))
    decreases items, |items| + 2
  {
    hide Shaped, Gen, Elements, ElementSteps;
    var vec, n := Gen("vec__", id), Next(Vector(items), x, id);
    if AMP in items {
      SeqShaped(items, id, M, Uses(x) + {vec});
      ShapedMade("vec__", id, x, SeqSteps(items, id), M, Uses(x), id, id + 1, n);
    } else {
      ElementsGrow(items, 0, 0, false, vec, None, id + 1);
      ElementsShaped(items, 0, 0, false, vec, None, id + 1, M, Uses(x) + {vec});
      ShapedMade("vec__", id, x, ElementSteps(items, 0, 0, vec, None, id + 1), M, Uses(x), id, id + 1, n);
    }
  }

  lemma {:induction false} SeqShaped(items: seq<Datum>, id: nat, M: set<string>, K: set<string>)
    requires Elements(items, 0, 0, false, Gen("vec__", id), Some(Gen("seq__", id + 1)), id + 2).Pairs?
    requires MentionsAll(items) <= M && Gen("vec__", id) in K
    ensures var n := Elements(items, 0, 0, false, Gen("vec__", id), Some(Gen("seq__", id + 1)), id + 2).next;
            id + 2 <= n && Shaped(SeqSteps(items, id), M, K, id + 1, n)
    decreases items, |items| + 1
  {
    hide Shaped, Gen, Elements, ElementSteps;
    var vec, rest := Gen("vec__", id), Gen("seq__", id + 1);
    ElementsGrow(items, 0, 0, false, vec, Some(rest), id + 2);
    ElementsShaped(items, 0, 0, false, vec, Some(rest), id + 2, M, K + {rest});
    ShapedMade("seq__", id + 1, Lib(ToSeq, vec), ElementSteps(items, 0, 0, vec, Some(rest), id + 2), M, K, id + 1, id + 2,
               Elements(items, 0, 0, false, vec, Some(rest), id + 2).next);
  }

  lemma {:induction false} ElementsShaped(items: seq<Datum>, i: nat, index: nat, seen: bool, vec: string, rest: Option<string>, id: nat,
                                          M: set<string>, K: set<string>)
    requires i <= |items| && Elements(items, i, index, seen, vec, rest, id).Pairs? && MentionsAll(items) <= M
    requires vec in K && (rest.Some? ==> rest.value in K)
    ensures Shaped(ElementSteps(items, i, index, vec, rest, id), M, K, id, Elements(items, i, index, seen, vec, rest, id).next)
    decreases items, |items| - i
  {
    hide Gen, Destructure, Steps, Shaped;
    var n := Elements(items, i, index, seen, vec, rest, id).next;
    if i == |items| {
      assert Shaped([], M, K, id, n) by { EmptyShaped(M, K, id, n); }
    } else if items[i] == AMP {
      MentionsItem(items, i + 1);
      PartShaped(items[i + 1], Copy(rest.value), id, M, K);
      var m := Next(items[i + 1], Copy(rest.value), id);
      ElementsGrow(items, i + 2, index, true, vec, rest, m);
      ElementsShaped(items, i + 2, index, true, vec, rest, m, M, K);
      ShapedThen(Steps(items[i + 1], Copy(rest.value), id), ElementSteps(items, i + 2, index, vec, rest, m), M, K, id, m, n);
    } else if items[i] == AS {
      MentionsItem(items, i + 1);
      PartShaped(items[i + 1], Copy(vec), id, M, K);
    } else if rest.Some? {
      WalkShaped(items, i, index, seen, vec, rest.value, id, M, K);
    } else {
      var x := Nth(vec, index);
      MentionsItem(items, i);
      PartShaped(items[i], x, id, M, K);
      var m := Next(items[i], x, id);
      ElementsGrow(items, i + 1, index + 1, seen, vec, rest, m);
      ElementsShaped(items, i + 1, index + 1, seen, vec, rest, m, M, K);
      ShapedThen(Steps(items[i], x, id), ElementSteps(items, i + 1, index + 1, vec, rest, m), M, K, id, m, n);
    }
  }

  lemma EmptyShaped(M: set<string>, K: set<string>, id: nat, n: nat)
    ensures Shaped([], M, K, id, n)
  {
  }

  /** A pattern inside another, on a name of `K`. */
  lemma {:induction false} PartShaped(p: Datum, x: Expr, id: nat, M: set<string>, K: set<string>)
    requires Destructure(p, Form(x), id).Pairs? && Mentions(p) <= M && ReadsOf(x) <= M && Uses(x) <= K
    ensures Shaped(Steps(p, x, id), M, K, id, Next(p, x, id)) && id <= Next(p, x, id)
    decreases p, 1
  {
    PatternShaped(p, x, id, M);
    hide Shaped;
    ShapedMore(Steps(p, x, id), M, Uses(x), K, id, Next(p, x, id));
  }

  lemma {:induction false} WalkShaped(items: seq<Datum>, i: nat, index: nat, seen: bool, vec: string, rest: string, id: nat, M: set<string>, K: set<string>)
    requires i < |items| && items[i] != AMP && items[i] != AS && Elements(items, i, index, seen, vec, Some(rest), id).Pairs?
    requires MentionsAll(items) <= M && vec in K && rest in K
    ensures Shaped(ElementSteps(items, i, index, vec, Some(rest), id), M, K, id, Elements(items, i, index, seen, vec, Some(rest), id).next)
    decreases items, |items| - i, 0
  {
    hide Gen, Destructure, Steps, Shaped;
    var first, n := Gen("first__", id), Elements(items, i, index, seen, vec, Some(rest), id).next;
    var x, y, z := Copy(first), Step(first, true, Lib(ToFirst, rest)), Step(rest, true, Lib(ToNext, rest));
    var m := Next(items[i], x, id + 1);
    var a, b := Steps(items[i], x, id + 1), ElementSteps(items, i + 1, index + 1, vec, Some(rest), m);
    var K1 := K + {first};
    MentionsItem(items, i);
    PartShaped(items[i], x, id + 1, M, K1);
    ElementsGrow(items, i + 1, index + 1, seen, vec, Some(rest), m);
    ElementsShaped(items, i + 1, index + 1, seen, vec, Some(rest), m, M, K1);
    ShapedThen(a, b, M, K1, id + 1, m, n);
    AgainShaped(rest, Lib(ToNext, rest), M, K1, id + 1, id + 1);
    ShapedThen([z], a + b, M, K1, id + 1, id + 1, n);
    ShapedMade("first__", id, Lib(ToFirst, rest), [z] + (a + b), M, K, id, id + 1, n);
    assert [y, z] + (a + b) == [y] + ([z] + (a + b));
  }

  // ---- maps

  predicate Within(defaults: map<string, Datum>, M: set<string>) { forall x | x in defaults :: Reads(defaults[x]) <= M }

  lemma {:induction false} OrsWithin(ors: seq<Entry>, t: nat, found: map<string, Datum>, M: set<string>)
    requires t <= |ors| && OrEntries(ors, t, found).Found? && MentionsEntries(ors) <= M && Within(found, M)
    ensures Within(OrEntries(ors, t, found).defaults, M)
    decreases |ors| - t
  {
    if t < |ors| {
      MentionsEntry(ors, t);
      ReadsMentioned(ors[t].val);
      OrsWithin(ors, t + 1, found[ors[t].key.s := ors[t].val], M);
    }
  }

  lemma {:induction false} DefaultsWithin(entries: seq<Entry>, j: nat, found: map<string, Datum>, M: set<string>)
    requires j <= |entries| && Defaults(entries, j, found).Found? && MentionsEntries(entries) <= M && Within(found, M)
    ensures Within(Defaults(entries, j, found).defaults, M)
    decreases |entries| - j
  {
    if j < |entries| {
      MentionsEntry(entries, j);
      if entries[j].key != OR {
        DefaultsWithin(entries, j + 1, found, M);
      } else {
        OrsWithin(entries[j].val.entries, 0, found, M);
        DefaultsWithin(entries, j + 1, OrEntries(entries[j].val.entries, 0, found).defaults, M);
      }
    }
  }

  lemma {:induction false} KeysShaped(names: seq<Datum>, t: nat, kind: Kind, m: string, defaults: map<string, Datum>, id: nat, M: set<string>, K: set<string>)
    requires t <= |names| && !kind.NoKind? && KeyNames(names, t, kind, m, defaults, id).Pairs? && MentionsAll(names) <= M && Within(defaults, M) && m in K
    ensures Shaped(KeySteps(names, t, kind, m, defaults), M, K, id, id)
    decreases |names| - t
  {
    hide Shaped;
    if t == |names| {
      EmptyShaped(M, K, id, id);
    } else {
      var spelled := Bare(names[t].s);
      var local := Local(spelled);
      var x := Get(m, KeyForm(kind, spelled), DefaultOf(defaults, local));
      MentionsItem(names, t);
      assert local in Mentions(names[t]);
      KeyReadsNothing(kind, spelled);
      OwnShaped(local, x, M, K, id, id);
      KeysShaped(names, t + 1, kind, m, defaults, id, M, K);
      ShapedThen([Step(local, false, x)], KeySteps(names, t + 1, kind, m, defaults), M, K, id, id, id);
    }
  }

  lemma KeyReadsNothing(kind: Kind, spelled: string)
    requires !kind.NoKind?
    ensures Reads(KeyForm(kind, spelled)) == {}
  {
  }

  lemma {:induction false} EntryShaped(en: Entry, m: string, defaults: map<string, Datum>, id: nat, M: set<string>, K: set<string>)
    requires EntryPairs(en, m, defaults, id).Pairs? && MentionsOf(en) <= M && Within(defaults, M) && m in K
    ensures Shaped(EntrySteps(en, m, defaults, id), M, K, id, EntryPairs(en, m, defaults, id).next)
    decreases en
  {
    hide Shaped;
    var k, v := en.key, en.val;
    ReadsMentioned(v);
    if k == OR {
      EmptyShaped(M, K, id, id);
    } else if k == AS {
      assert v.s in Mentions(v);
      OwnShaped(v.s, Copy(m), M, K, id, id);
    } else if k.Name? && IsKeyword(k.s) {
      KeysStay(v.items, 0, KindOf(k.s), m, defaults, id);
      KeysShaped(v.items, 0, KindOf(k.s), m, defaults, id, M, K);
    } else if k.Name? {
      assert k.s in Mentions(k);
      OwnShaped(k.s, Get(m, v, DefaultOf(defaults, k.s)), M, K, id, id);
    } else {
      PartShaped(k, Get(m, v, None), id, M, K);
    }
  }

  lemma {:induction false} EntriesShaped(entries: seq<Entry>, j: nat, m: string, defaults: map<string, Datum>, id: nat, M: set<string>, K: set<string>)
    requires j <= |entries| && Entries(entries, j, m, defaults, id).Pairs? && MentionsEntries(entries) <= M && Within(defaults, M) && m in K
    ensures Shaped(EntriesSteps(entries, j, m, defaults, id), M, K, id, Entries(entries, j, m, defaults, id).next)
    decreases entries, |entries| - j
  {
    hide Shaped, EntryPairs, EntrySteps;
    if j == |entries| {
      EmptyShaped(M, K, id, id);
    } else {
      var n := EntryPairs(entries[j], m, defaults, id).next;
      MentionsEntry(entries, j);
      EntryShaped(entries[j], m, defaults, id, M, K);
      EntryGrows(entries[j], m, defaults, id);
      EntriesGrow(entries, j + 1, m, defaults, n);
      EntriesShaped(entries, j + 1, m, defaults, n, M, K);
      ShapedThen(EntrySteps(entries[j], m, defaults, id), EntriesSteps(entries, j + 1, m, defaults, n), M, K, id, n,
                 Entries(entries, j, m, defaults, id).next);
    }
  }

  /** The names of a `let`'s patterns and values. */
  function MentionsLet(bs: seq<LetBinding>, i: nat): set<string>
    requires i <= |bs|
    decreases |bs| - i
  {
    if i == |bs| then {} else Mentions(bs[i].pattern) + Mentions(bs[i].value) + MentionsLet(bs, i + 1)
  }

  lemma {:induction false} LetShaped(bs: seq<LetBinding>, i: nat, id: nat, M: set<string>)
    requires i <= |bs| && Flatten(bs, i, id).Pairs? && MentionsLet(bs, i) <= M
    ensures Shaped(LetSteps(bs, i, id), M, {}, id, Flatten(bs, i, id).next) && id <= Flatten(bs, i, id).next
    decreases |bs| - i
  {
    hide Shaped, Destructure, Steps;
    if i == |bs| {
      EmptyShaped(M, {}, id, id);
    } else {
      var p, x := bs[i].pattern, Own(bs[i].value);
      var n := Next(p, x, id);
      ReadsMentioned(bs[i].value);
      PatternShaped(p, x, id, M);
      LetShaped(bs, i + 1, n, M);
      ShapedThen(Steps(p, x, id), LetSteps(bs, i + 1, n), M, {}, id, n, Flatten(bs, i, id).next);
    }
  }
}
