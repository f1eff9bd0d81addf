/** The flat bindings of a pattern with what each one is: the program's or the
    rewrite's own; and the scan that says whether the names the rewrite
    generates get in the way of the program's. */
module Hygiene {
  import opened Options
  import opened Forms
  import opened Destructuring

  datatype Library = ToSeq | ToFirst | ToNext | ToTable

  function LibName(f: Library): string {
    match f case ToSeq => SEQ case ToFirst => FIRST case ToNext => NEXT case ToTable => AS_TABLE
  }

  /** What a flat binding evaluates: an expression of the program, or one on
      generated names. `Get` has a key and a default of the program. */
  datatype Expr =
    | Own(form: Datum)
    | Copy(g: string)
    | Lib(f: Library, g: string)
    | Nth(g: string, k: nat)
    | Get(g: string, key: Datum, default: Option<Datum>)

  /** A flat binding; `made`: its name is a generated one. */
  datatype Step = Step(name: string, made: bool, expr: Expr)

  function Form(x: Expr): Datum {
    match x
    case Own(f) => f
    case Copy(g) => Name(g)
    case Lib(f, g) => Call(LibName(f), [Name(g)])
    case Nth(g, k) => Call(NTH, [Name(g), Number(k), Nothing])
    case Get(g, key, default) => GetForm(g, key, default)
  }

  function Erase(st: seq<Step>): seq<Pair> { seq(|st|, i requires 0 <= i < |st| => Pair(st[i].name, Form(st[i].expr))) }

  /** The generated names an expression reads, and the program's. */
  function Uses(x: Expr): set<string> { if x.Own? then {} else {x.g} }

  function ReadsOf(x: Expr): set<string> {
    match x
    case Own(f) => Reads(f)
    case Get(_, key, default) => Reads(key) + (if default.Some? then Reads(default.value) else {})
    case _ => {}
  }

  // ---- the bindings of a pattern

  function Steps(p: Datum, x: Expr, id: nat): seq<Step>
    decreases p, 0
  {
    match p
    case Name(s) => [Step(s, false, x)]
    case Vector(items) =>
      var vec := Gen("vec__", id);
      [Step(vec, true, x)] +
      (if AMP in items then
         var rest := Gen("seq__", id + 1);
         [Step(rest, true, Lib(ToSeq, vec))] + ElementSteps(items, 0, 0, vec, Some(rest), id + 2)
       else ElementSteps(items, 0, 0, vec, None, id + 1))
    case Table(entries) =>
      var m := Gen("map__", id);
      var d := Defaults(entries, 0, map[]);
      [Step(m, true, x), Step(m, true, Lib(ToTable, m))] + (if d.Found? then EntriesSteps(entries, 0, m, d.defaults, id + 1) else [])
    case _ => []
  }

  function ElementSteps(items: seq<Datum>, i: nat, index: nat, vec: string, rest: Option<string>, id: nat): seq<Step>
    requires i <= |items|
    decreases items, |items| - i
  {
    if i == |items| then [] else
    var b := items[i];
    if b == AS then if i + 1 < |items| then Steps(items[i + 1], Copy(vec), id) else []
    else if b == AMP then
      if i + 1 == |items| || rest.None? then [] else
      Steps(items[i + 1], Copy(rest.value), id) +
      ElementSteps(items, i + 2, index, vec, rest, Next(items[i + 1], Copy(rest.value), id))
    else if rest.Some? then
      var first := Gen("first__", id);
      [Step(first, true, Lib(ToFirst, rest.value)), Step(rest.value, true, Lib(ToNext, rest.value))] +
      (Steps(b, Copy(first), id + 1) + ElementSteps(items, i + 1, index + 1, vec, rest, Next(b, Copy(first), id + 1)))
    else Steps(b, Nth(vec, index), id) + ElementSteps(items, i + 1, index + 1, vec, rest, Next(b, Nth(vec, index), id))
  }

  /** The next id after a pattern. */
  function Next(p: Datum, x: Expr, id: nat): nat {
    var r := Destructure(p, Form(x), id); if r.Pairs? then r.next else id
  }

  function KeySteps(names: seq<Datum>, t: nat, kind: Kind, m: string, defaults: map<string, Datum>): seq<Step>
    requires t <= |names| && !kind.NoKind?
    decreases |names| - t
  {
    if t == |names| || !names[t].Name? then [] else
    var spelled := Bare(names[t].s);
    var local := Local(spelled);
    [Step(local, false, Get(m, KeyForm(kind, spelled), DefaultOf(defaults, local)))] + KeySteps(names, t + 1, kind, m, defaults)
  }

  function EntrySteps(en: Entry, m: string, defaults: map<string, Datum>, id: nat): seq<Step>
    decreases en
  {
    var k, v := en.key, en.val;
    if k == OR then []
    else if k == AS then if v.Name? then [Step(v.s, false, Copy(m))] else []
    else if k.Name? && IsKeyword(k.s) then
      if KindOf(k.s).NoKind? || !v.Vector? then [] else KeySteps(v.items, 0, KindOf(k.s), m, defaults)
    else if k.Name? then [Step(k.s, false, Get(m, v, DefaultOf(defaults, k.s)))]
    else Steps(k, Get(m, v, None), id)
  }

  function EntriesSteps(entries: seq<Entry>, j: nat, m: string, defaults: map<string, Datum>, id: nat): seq<Step>
    requires j <= |entries|
    decreases entries, |entries| - j
  {
    if j == |entries| then [] else
    var a := EntryPairs(entries[j], m, defaults, id);
    EntrySteps(entries[j], m, defaults, id) + EntriesSteps(entries, j + 1, m, defaults, if a.Pairs? then a.next else id)
  }

  // ---- they are the flat bindings

  lemma EraseBoth(a: seq<Step>, b: seq<Step>)
    ensures Erase(a + b) == Erase(a) + Erase(b)
  {
  }

  lemma {:induction false} Erased(p: Datum, x: Expr, id: nat)
    requires Destructure(p, Form(x), id).Pairs?
    ensures Destructure(p, Form(x), id).pairs == Erase(Steps(p, x, id))
    decreases p, 0
  {
    hide Gen, Elements, ElementSteps, Entries, EntriesSteps, Defaults;
    match p
    case Vector(items) =>
      var vec, rest := Gen("vec__", id), Gen("seq__", id + 1);
      if AMP in items {
        ElementsErased(items, 0, 0, false, vec, Some(rest), id + 2);
        EraseBoth([Step(rest, true, Lib(ToSeq, vec))], ElementSteps(items, 0, 0, vec, Some(rest), id + 2));
        EraseBoth([Step(vec, true, x)], [Step(rest, true, Lib(ToSeq, vec))] + ElementSteps(items, 0, 0, vec, Some(rest), id + 2));
      } else {
        ElementsErased(items, 0, 0, false, vec, None, id + 1);
        EraseBoth([Step(vec, true, x)], ElementSteps(items, 0, 0, vec, None, id + 1));
      }
    case Table(entries) =>
      var m, d := Gen("map__", id), Defaults(entries, 0, map[]).defaults;
      EntriesErased(entries, 0, m, d, id + 1);
      EraseBoth([Step(m, true, x), Step(m, true, Lib(ToTable, m))], EntriesSteps(entries, 0, m, d, id + 1));
    case _ =>
  }

  lemma {:induction false} ElementsErased(items: seq<Datum>, i: nat, index: nat, seen: bool, vec: string, rest: Option<string>, id: nat)
    requires i <= |items| && Elements(items, i, index, seen, vec, rest, id).Pairs?
    ensures Elements(items, i, index, seen, vec, rest, id).pairs == Erase(ElementSteps(items, i, index, vec, rest, id))
    decreases items, |items| - i
  {
    hide Destructure, Steps, Gen;
    if i < |items| {
      var b := items[i];
      if b == AMP {
        Erased(items[i + 1], Copy(rest.value), id);
        var n := Next(items[i + 1], Copy(rest.value), id);
        ElementsErased(items, i + 2, index, true, vec, rest, n);
        EraseBoth(Steps(items[i + 1], Copy(rest.value), id), ElementSteps(items, i + 2, index, vec, rest, n));
      } else if b == AS {
        Erased(items[i + 1], Copy(vec), id);
      } else if rest.Some? {
        WalkErased(items, i, index, seen, vec, rest.value, id);
      } else {
        var x := Nth(vec, index);
        Erased(b, x, id);
        ElementsErased(items, i + 1, index + 1, seen, vec, rest, Next(b, x, id));
        EraseBoth(Steps(b, x, id), ElementSteps(items, i + 1, index + 1, vec, rest, Next(b, x, id)));
      }
    }
  }

  lemma {:induction false} WalkErased(items: seq<Datum>, i: nat, index: nat, seen: bool, vec: string, rest: string, id: nat)
    requires i < |items| && items[i] != AMP && items[i] != AS && Elements(items, i, index, seen, vec, Some(rest), id).Pairs?
    ensures Elements(items, i, index, seen, vec, Some(rest), id).pairs == Erase(ElementSteps(items, i, index, vec, Some(rest), id))
    decreases items, |items| - i, 0
  {
    hide Destructure, Steps, Gen;
    var first := Gen("first__", id);
    var two := [Step(first, true, Lib(ToFirst, rest)), Step(rest, true, Lib(ToNext, rest))];
    var n := Next(items[i], Copy(first), id + 1);
    var a, b := Steps(items[i], Copy(first), id + 1), ElementSteps(items, i + 1, index + 1, vec, Some(rest), n);
    Erased(items[i], Copy(first), id + 1);
    ElementsErased(items, i + 1, index + 1, seen, vec, Some(rest), n);
    EraseBoth(a, b);
    EraseBoth(two, a + b);
    var ps := [Pair(first, Call(FIRST, [Name(rest)])), Pair(rest, Call(NEXT, [Name(rest)]))];
    assert Erase(two) == ps;
    assert ps + Erase(a) + Erase(b) == ps + (Erase(a) + Erase(b));
  }

  lemma {:induction false} KeysErased(names: seq<Datum>, t: nat, kind: Kind, m: string, defaults: map<string, Datum>, id: nat)
    requires t <= |names| && !kind.NoKind? && KeyNames(names, t, kind, m, defaults, id).Pairs?
    ensures KeyNames(names, t, kind, m, defaults, id) == Pairs(Erase(KeySteps(names, t, kind, m, defaults)), id)
    decreases |names| - t
  {
    if t < |names| {
      var spelled := Bare(names[t].s);
      var local := Local(spelled);
      KeysErased(names, t + 1, kind, m, defaults, id);
      EraseBoth([Step(local, false, Get(m, KeyForm(kind, spelled), DefaultOf(defaults, local)))], KeySteps(names, t + 1, kind, m, defaults));
    }
  }

  lemma {:induction false} EntryErased(en: Entry, m: string, defaults: map<string, Datum>, id: nat)
    requires EntryPairs(en, m, defaults, id).Pairs?
    ensures EntryPairs(en, m, defaults, id).pairs == Erase(EntrySteps(en, m, defaults, id))
    decreases en
  {
    var k, v := en.key, en.val;
    if k == OR || k == AS {
    } else if k.Name? && IsKeyword(k.s) {
      KeysErased(v.items, 0, KindOf(k.s), m, defaults, id);
    } else if !k.Name? {
      Erased(k, Get(m, v, None), id);
    }
  }

  lemma {:induction false} EntriesErased(entries: seq<Entry>, j: nat, m: string, defaults: map<string, Datum>, id: nat)
    requires j <= |entries| && Entries(entries, j, m, defaults, id).Pairs?
    ensures Entries(entries, j, m, defaults, id).pairs == Erase(EntriesSteps(entries, j, m, defaults, id))
    decreases entries, |entries| - j
  {
    if j < |entries| {
      var n := EntryPairs(entries[j], m, defaults, id).next;
      EntryErased(entries[j], m, defaults, id);
      EntriesErased(entries, j + 1, m, defaults, n);
      EraseBoth(EntrySteps(entries[j], m, defaults, id), EntriesSteps(entries, j + 1, m, defaults, n));
    }
  }
}
