/** What the common patterns bind, spelled out: keys, rests, defaults and the
    forms their flat bindings are. */
module Patterns {
  import opened Options
  import opened Forms
  import opened Destructuring

  /** A name without a namespace, no keyword. */
  predicate Simple(x: string) { '/' !in x && (x == "" || x[0] != ':') }

  lemma {:induction false} FindSlash(a: string, b: string)
    requires '/' !in a
    ensures Find(a, '/') == |a| && Find(a + "/" + b, '/') == |a|
  {
    var s := a + "/" + b;
    if a != [] {
      FindSlash(a[1..], b);
      assert s[1..] == a[1..] + "/" + b;
      assert s[0] == a[0];
    }
  }

  /** `keys`, `strs` or `syms`, in a namespace or in none. */
  predicate Listing(kind: string, ns: string) {
    '/' !in ns && (kind == "keys" || kind == "syms" || (kind == "strs" && ns == ""))
  }

  /** `:keys` or `:ns/keys`. */
  function ListingKey(kind: string, ns: string): Datum { Name(if ns == "" then ":" + kind else ":" + ns + "/" + kind) }

  /** A name with its namespace. */
  function Qualified(ns: string, x: string): string { if ns == "" then x else ns + "/" + x }

  /** The key a name listed under them is looked up by: the keyword, the string
      or the symbol. */
  function Asked(kind: string, ns: string, x: string): Datum {
    if kind == "keys" then Name(":" + Qualified(ns, x)) else if kind == "strs" then Text(x) else Name(Qualified(ns, x))
  }

  /** What the table `v` amounts to has under a key, or `d`. */
  function Under(L: Language, v: Datum, key: Datum, d: Datum): Datum {
    match L.lookup(L.asTable(v), key) case None => d case Some(r) => r
  }

  lemma KindSplit(key: string, ns: string, kind: string)
    requires IsKeyword(key) && '/' !in ns && '/' !in kind && key[1..] == Qualified(ns, kind)
    ensures KindOf(key) ==
            if kind == "keys" then Keys(ns) else if kind == "syms" then Syms(ns)
            else if kind == "strs" && ns == "" then Strs else NoKind
  {
    var kw := key[1..];
    if ns == "" {
      FindSlash(kind, "");
    } else {
      FindSlash(ns, kind);
      assert kw[|ns| + 1..] == kind && kw[..|ns|] == ns;
    }
    hide Find;
  }

  lemma NoSlash(kind: string)
    requires kind == "keys" || kind == "syms" || kind == "strs" || kind == "or" || kind == "as"
    ensures '/' !in kind
  {
  }

  lemma KindSpelled(kind: string, ns: string)
    requires Listing(kind, ns)
    ensures var k := ListingKey(kind, ns);
            && IsKeyword(k.s) && k != OR && k != AS
            && KindOf(k.s) == if kind == "keys" then Keys(ns) else if kind == "strs" then Strs else Syms(ns)
  {
    NoSlash(kind);
    var k := ListingKey(kind, ns).s;
    assert k[0] == ':' && k[1..] == Qualified(ns, kind);
    KindSplit(k, ns, kind);
    hide KindOf, Qualified;
    assert |k| > 3;
  }

  /** The form whose value the key is. */
  function AskedForm(kind: string, ns: string, x: string): Datum {
    if kind == "syms" then List([Name("quote"), Asked(kind, ns, x)]) else Asked(kind, ns, x)
  }

  lemma NameSpelled(own: string, x: string)
    requires Simple(x) && Simple(own)
    ensures var spelled := Qualified(own, x);
            Bare(spelled) == spelled && Local(spelled) == x && (Find(spelled, '/') == |spelled| <==> own == "")
  {
    FindSlash(x, "");
    if own != "" {
      FindSlash(own, x);
      var s := own + "/" + x;
      assert s[|own| + 1..] == x && s[0] == own[0];
    }
    hide Find;
  }

  /** A name listed plainly is looked up in the namespace of the listing, one
      with a namespace of its own in that. */
  lemma KeySpelled(kind: string, ns: string, own: string, x: string)
    requires Listing(kind, ns) && Simple(x) && Simple(own)
    ensures var k, spelled := ListingKey(kind, ns).s, Qualified(own, x);
            && !KindOf(k).NoKind? && Bare(spelled) == spelled && Local(spelled) == x
            && KeyForm(KindOf(k), spelled) == AskedForm(kind, if own == "" then ns else own, x)
  {
    KindSpelled(kind, ns);
    NameSpelled(own, x);
    hide KindOf, Find, Local, Bare, ListingKey, Simple;
    if own == "" && ns != "" { assert Qualified(ns, x) == ns + "/" + x; }
  }

  lemma AskedValue(L: Language, kind: string, ns: string, x: string, env: Scope, w: int)
    requires kind == "keys" || kind == "syms" || kind == "strs"
    ensures Eval(L, AskedForm(kind, ns, x), env, w) == Ok(Asked(kind, ns, x), w)
  {
  }

  function OneEntry(k: Datum, v: Datum): Datum { Table([Entry(k, v)]) }

  lemma EntryMatched(L: Language, k: Datum, p: Datum, v: Datum, env: Scope, w: int)
    requires k != OR
    ensures Match(L, OneEntry(k, p), v, env, w) == MatchEntry(L, Entry(k, p), L.asTable(v), map[], env, w)
  {
    var es := [Entry(k, p)];
    assert Defaults(es, 1, map[]) == Destructuring.Found(map[]);
    var m := MatchEntry(L, es[0], L.asTable(v), map[], env, w);
    if m.Bound? { assert MatchEntries(L, es, 1, L.asTable(v), map[], m.env, m.w) == m; }
    hide MatchEntry;
  }

  /** Names bound one after another. */
  function BoundTo(env: Scope, xs: seq<string>, vs: seq<Datum>): Scope
    requires |xs| == |vs|
    decreases |xs|
  {
    if xs == [] then env else BoundTo(env[xs[0] := vs[0]], xs[1..], vs[1..])
  }

  /** A name as it is listed: its namespace, if it has one of its own, and what
      it binds. */
  datatype Spelled = Spelled(own: string, x: string)

  function Listed(names: seq<Spelled>): seq<Datum> {
    seq(|names|, i requires 0 <= i < |names| => Name(Qualified(names[i].own, names[i].x)))
  }

  function Locals(names: seq<Spelled>): seq<string> { seq(|names|, i requires 0 <= i < |names| => names[i].x) }

  /** What the table has under the keyword, string or symbol of each name. */
  function Found(L: Language, v: Datum, kind: string, ns: string, names: seq<Spelled>): seq<Datum> {
    seq(|names|, i requires 0 <= i < |names| =>
      Under(L, v, Asked(kind, if names[i].own == "" then ns else names[i].own, names[i].x), Nothing))
  }

  lemma NextKey(L: Language, names: seq<Datum>, t: nat, k: Kind, m: Datum, v: Datum, name: string, x: string, form: Datum, key: Datum, env: Scope, w: int)
    requires t < |names| && !k.NoKind? && names[t] == Name(name) && Bare(name) == name && Local(name) == x && KeyForm(k, name) == form
    requires Eval(L, form, env, w) == Ok(key, w) && m == L.asTable(v)
    ensures MatchKeys(L, names, t, k, m, map[], env, w) == MatchKeys(L, names, t + 1, k, m, map[], env[x := Under(L, v, key, Nothing)], w)
  {
    hide KeyForm, Eval, Local, Bare;
  }

  lemma NameMatched(L: Language, kind: string, ns: string, names: seq<Spelled>, t: nat, v: Datum, env: Scope, w: int)
    requires Listing(kind, ns) && t < |names| && Simple(names[t].x) && Simple(names[t].own)
    ensures var k, m := KindOf(ListingKey(kind, ns).s), L.asTable(v);
            && !k.NoKind?
            && MatchKeys(L, Listed(names), t, k, m, map[], env, w) ==
                 MatchKeys(L, Listed(names), t + 1, k, m, map[], env[Locals(names)[t] := Found(L, v, kind, ns, names)[t]], w)
  {
    var own, x := names[t].own, names[t].x;
    var space := if own == "" then ns else own;
    KeySpelled(kind, ns, own, x);
    AskedValue(L, kind, space, x, env, w);
    hide KindOf, KeyForm, AskedForm, Asked, Eval, Qualified, Local, Bare, Listing, Simple, ListingKey, Under, MatchKeys;
    NextKey(L, Listed(names), t, KindOf(ListingKey(kind, ns).s), L.asTable(v), v, Qualified(own, x), x, AskedForm(kind, space, x), Asked(kind, space, x), env, w);
  }

  lemma {:induction false} NamesMatched(L: Language, kind: string, ns: string, names: seq<Spelled>, t: nat, v: Datum, env: Scope, w: int)
    requires Listing(kind, ns) && t <= |names| && forall n | n in names :: Simple(n.x) && Simple(n.own)
    ensures var k := KindOf(ListingKey(kind, ns).s);
            && !k.NoKind?
            && MatchKeys(L, Listed(names), t, k, L.asTable(v), map[], env, w) ==
                 Bound(BoundTo(env, Locals(names)[t..], Found(L, v, kind, ns, names)[t..]), w)
    decreases |names| - t
  {
    KindSpelled(kind, ns);
    hide KindOf, Listing, Simple, ListingKey, Asked, Under;
    if t < |names| {
      NameMatched(L, kind, ns, names, t, v, env, w);
      NamesMatched(L, kind, ns, names, t + 1, v, env[Locals(names)[t] := Found(L, v, kind, ns, names)[t]], w);
    }
  }

  /** `{:keys [a x/b ...]}`, `:strs`, `:syms` and the first and last of them in
      a namespace: each name is bound to what the table has under the keyword,
      the string or the symbol of that name, nil if it has nothing. */
  lemma ListedNames(L: Language, kind: string, ns: string, names: seq<Spelled>, v: Datum, env: Scope, w: int)
    requires Listing(kind, ns) && forall n | n in names :: Simple(n.x) && Simple(n.own)
    ensures Match(L, OneEntry(ListingKey(kind, ns), Vector(Listed(names))), v, env, w) ==
            Bound(BoundTo(env, Locals(names), Found(L, v, kind, ns, names)), w)
  {
    KindSpelled(kind, ns);
    EntryMatched(L, ListingKey(kind, ns), Vector(Listed(names)), v, env, w);
    NamesMatched(L, kind, ns, names, 0, v, env, w);
    assert Locals(names)[0..] == Locals(names) && Found(L, v, kind, ns, names)[0..] == Found(L, v, kind, ns, names);
    hide KindOf, Listing, Simple, ListingKey, Found, Locals, Match, MatchKeys, BoundTo, OneEntry;
  }

  /** `x` bound to what the table has under the key `o` gives, else to the
      value of `d`. */
  function WithDefault(L: Language, x: string, o: Outcome, d: Datum, v: Datum, env: Scope): Matched {
    match o
    case Raised(y, w) => Thrown(y, w)
    case Ok(k, w) =>
      match Eval(L, d, env, w)
      case Raised(y, w1) => Thrown(y, w1)
      case Ok(dv, w1) => Bound(env[x := Under(L, v, k, dv)], w1)
  }

  /** `{x key}`: what the table has under the value of an expression. */
  lemma KeyedName(L: Language, x: string, key: Datum, v: Datum, env: Scope, w: int)
    requires Simple(x)
    ensures Match(L, OneEntry(Name(x), key), v, env, w) ==
            WithDefault(L, x, Eval(L, key, env, w), Nothing, v, env)
  {
    EntryMatched(L, Name(x), key, v, env, w);
    hide Match, Eval;
  }

  /** `{:as m}`: the whole table. */
  lemma WholeTable(L: Language, m: string, v: Datum, env: Scope, w: int)
    requires Simple(m)
    ensures Match(L, OneEntry(Name(":as"), Name(m)), v, env, w) == Bound(env[m := L.asTable(v)], w)
  {
    EntryMatched(L, Name(":as"), Name(m), v, env, w);
    hide Match;
  }

  /** `{x key :or {x d}}`: the default is evaluated after the key, and bound when
      the table has nothing. */
  lemma DefaultedName(L: Language, x: string, key: Datum, d: Datum, v: Datum, env: Scope, w: int)
    requires Simple(x)
    ensures Match(L, Table([Entry(Name(x), key), Entry(Name(":or"), Table([Entry(Name(x), d)]))]), v, env, w) ==
            WithDefault(L, x, Eval(L, key, env, w), d, v, env)
  {
    var ors := [Entry(Name(x), d)];
    var es := [Entry(Name(x), key), Entry(OR, Table(ors))];
    var defaults := map[x := d];
    assert OrEntries(ors, 1, defaults) == Destructuring.Found(defaults);
    assert OrEntries(ors, 0, map[]) == Destructuring.Found(defaults);
    assert Defaults(es, 2, defaults) == Destructuring.Found(defaults);
    assert Defaults(es, 1, map[]) == Destructuring.Found(defaults);
    assert Defaults(es, 0, map[]) == Destructuring.Found(defaults);
    hide Defaults, Eval;
    var r := MatchEntry(L, es[0], L.asTable(v), defaults, env, w);
    if r.Bound? {
      assert MatchEntries(L, es, 2, L.asTable(v), defaults, r.env, r.w) == r;
      assert MatchEntries(L, es, 1, L.asTable(v), defaults, r.env, r.w) == r;
    }
  }

  // ---- vectors

  /** A name a vector pattern binds. */
  predicate Element(x: string) { x != "&" && (x == "" || x[0] != ':') }

  function Names(xs: seq<string>): seq<Datum> { seq(|xs|, i requires 0 <= i < |xs| => Name(xs[i])) }

  /** The first `n` elements, nil where there are none. */
  function Firsts(xs: seq<Datum>, n: nat): seq<Datum> { seq(n, i requires 0 <= i < n => if i < |xs| then xs[i] else Nothing) }

  /** What is left from the `n`-th on, nil if nothing is. */
  function Rest(xs: seq<Datum>, n: nat): Datum { if |xs| <= n then Nothing else List(xs[n..]) }

  /** The end of a vector pattern: nothing, or `& r`. */
  function Ending(rest: Option<string>): seq<Datum> { if rest.Some? then [Name("&"), Name(rest.value)] else [] }

  lemma {:induction false} ElementsBound(L: Language, names: seq<string>, rest: Option<string>, i: nat, v: Datum, xs: seq<Datum>, env: Scope, w: int)
    requires i <= |names| && (forall x | x in names :: Element(x)) && (rest.Some? ==> Element(rest.value))
    ensures MatchElements(L, Names(names) + Ending(rest), i, i, v, Some(xs), env, w) ==
            var env1 := BoundTo(env, names[i..], Firsts(xs, |names|)[i..]);
            Bound(if rest.Some? then env1[rest.value := Rest(xs, |names|)] else env1, w)
    decreases |names| - i
  {
    var items := Names(names) + Ending(rest);
    if i < |names| {
      assert names[i] in names && items[i] == Name(names[i]);
      assert items[i] != AMP && items[i] != AS;
      var vs := Firsts(xs, |names|);
      ElementsBound(L, names, rest, i + 1, v, xs, env[names[i] := vs[i]], w);
      assert vs[i..][1..] == vs[i + 1..] && names[i..][1..] == names[i + 1..];
    } else if rest.Some? {
      assert items[i] == AMP && items[i + 1] == Name(rest.value) && i + 2 == |items|;
      var env1 := env[rest.value := Rest(xs, |names|)];
      assert MatchElements(L, items, i + 2, i, v, Some(xs), env1, w) == Bound(env1, w);
    }
  }

  /** `[a b ...]` and `[a b ... & r]`: each name is bound to the element at its
      place, nil past the end, and `r` to the list of the elements left, nil if
      there are none. */
  lemma VectorNames(L: Language, names: seq<string>, rest: Option<string>, v: Datum, xs: seq<Datum>, env: Scope, w: int)
    requires (forall x | x in names :: Element(x)) && (rest.Some? ==> Element(rest.value))
    requires v == Vector(xs) || v == List(xs) || (v == Nothing && xs == [])
    ensures Match(L, Vector(Names(names) + Ending(rest)), v, env, w) ==
            var env1 := BoundTo(env, names, Firsts(xs, |names|));
            Bound(if rest.Some? then env1[rest.value := Rest(xs, |names|)] else env1, w)
  {
    ElementsBound(L, names, rest, 0, v, xs, env, w);
    var items := Names(names) + Ending(rest);
    if rest.Some? {
      assert items[|names|] == AMP;
    } else {
      forall i | 0 <= i < |items| ensures items[i] != AMP { assert names[i] in names && items[i] == Name(names[i]); }
      assert AMP !in items;
    }
    assert names[0..] == names && Firsts(xs, |names|)[0..] == Firsts(xs, |names|);
    hide MatchElements, Names, Ending;
  }

  // ---- the flat bindings

  function Apply(f: string, args: seq<Datum>): Datum { List([Name(f)] + args) }

  lemma FlatEntry(k: Datum, p: Datum, value: Datum, id: nat, m: string)
    requires k != OR && m == "map__" + Digits(id)
    ensures Destructure(OneEntry(k, p), value, id) ==
            Then([Pair(m, value), Pair(m, Apply("clojure.core/__destructure-map", [Name(m)]))], EntryPairs(Entry(k, p), m, map[], id + 1))
  {
    var es := [Entry(k, p)];
    assert Defaults(es, 1, map[]) == Destructuring.Found(map[]);
    hide EntryPairs, Digits;
    var r := EntryPairs(es[0], m, map[], id + 1);
    if r.Pairs? {
      assert Entries(es, 1, m, map[], r.next) == Pairs([], r.next);
      assert r.pairs + [] == r.pairs;
      assert Entries(es, 0, m, map[], id + 1) == r;
    }
  }

  lemma FlatKey(k: string, name: string, x: string, form: Datum, m: string, id: nat)
    requires IsKeyword(k) && Name(k) != OR && Name(k) != AS && !KindOf(k).NoKind?
    requires Bare(name) == name && Local(name) == x && KeyForm(KindOf(k), name) == form
    ensures EntryPairs(Entry(Name(k), Vector([Name(name)])), m, map[], id) ==
            Pairs([Pair(x, Apply("clojure.core/get", [Name(m), form]))], id)
  {
    var names := [Name(name)];
    hide KindOf, KeyForm, Local, Bare;
    assert KeyNames(names, 1, KindOf(k), m, map[], id) == Pairs([], id);
    assert GetForm(m, form, None) == Apply("clojure.core/get", [Name(m), form]);
  }

  /** `{:keys [x]}` and the like, flat. */
  lemma FlatListed(kind: string, ns: string, own: string, x: string, value: Datum, id: nat)
    requires Listing(kind, ns) && Simple(x) && Simple(own)
    ensures var m := "map__" + Digits(id);
            Destructure(OneEntry(ListingKey(kind, ns), Vector([Name(Qualified(own, x))])), value, id) ==
            Pairs([Pair(m, value), Pair(m, Apply("clojure.core/__destructure-map", [Name(m)])),
                   Pair(x, Apply("clojure.core/get", [Name(m), AskedForm(kind, if own == "" then ns else own, x)]))], id + 1)
  {
    var key, name, m, form := ListingKey(kind, ns).s, Qualified(own, x), "map__" + Digits(id), AskedForm(kind, if own == "" then ns else own, x);
    KindSpelled(kind, ns);
    KeySpelled(kind, ns, own, x);
    hide KindOf, KeyForm, AskedForm, Qualified, Local, Bare, Listing, Simple, ListingKey, Digits, Destructure, EntryPairs, OneEntry, Apply;
    FlatEntry(Name(key), Vector([Name(name)]), value, id, m);
    FlatKey(key, name, x, form, m, id + 1);
    hide *;
    var a, b, c := Pair(m, value), Pair(m, Apply("clojure.core/__destructure-map", [Name(m)])), Pair(x, Apply("clojure.core/get", [Name(m), form]));
    assert [a, b] + [c] == [a, b, c];
  }

  lemma FlatOne(x: string, value: Datum, id: nat)
    requires Element(x)
    ensures var vec := "vec__" + Digits(id);
            Destructure(Vector([Name(x)]), value, id) ==
            Pairs([Pair(vec, value), Pair(x, Apply("clojure.core/nth", [Name(vec), Number(0), Nothing]))], id + 1)
  {
    hide Digits;
    var vec, items := "vec__" + Digits(id), [Name(x)];
    assert items[0] != AMP && items[0] != AS && !IsKeyword(x);
    assert AMP !in items;
    assert Elements(items, 1, 1, false, vec, None, id + 1) == Pairs([], id + 1);
    assert Elements(items, 0, 0, false, vec, None, id + 1) ==
           Pairs([Pair(x, Apply("clojure.core/nth", [Name(vec), Number(0), Nothing]))], id + 1);
  }

  lemma FlatTwo(x: string, r: string, value: Datum, id: nat)
    requires Element(x) && Element(r)
    ensures var vec, sq, first := "vec__" + Digits(id), "seq__" + Digits(id + 1), "first__" + Digits(id + 2);
            Destructure(Vector([Name(x), Name("&"), Name(r)]), value, id) ==
            Pairs([Pair(vec, value), Pair(sq, Apply("clojure.core/seq", [Name(vec)])),
                   Pair(first, Apply("clojure.core/first", [Name(sq)])), Pair(sq, Apply("clojure.core/next", [Name(sq)])),
                   Pair(x, Name(first)), Pair(r, Name(sq))], id + 3)
  {
    hide Digits;
    var vec, sq, first := "vec__" + Digits(id), "seq__" + Digits(id + 1), "first__" + Digits(id + 2);
    var items := [Name(x), AMP, Name(r)];
    assert items[0] != AMP && items[0] != AS && !IsKeyword(x) && !IsKeyword(r) && items[1] == AMP;
    assert Elements(items, 3, 1, true, vec, Some(sq), id + 3) == Pairs([], id + 3);
    assert Elements(items, 1, 1, false, vec, Some(sq), id + 3) == Pairs([Pair(r, Name(sq))], id + 3);
    assert Elements(items, 0, 0, false, vec, Some(sq), id + 2) ==
           Pairs([Pair(first, Apply("clojure.core/first", [Name(sq)])), Pair(sq, Apply("clojure.core/next", [Name(sq)])),
                  Pair(x, Name(first)), Pair(r, Name(sq))], id + 3);
  }

  /** `[x]` and `[x & r]`, flat. */
  lemma FlatVector(x: string, r: string, value: Datum, id: nat)
    requires Element(x) && Element(r)
    ensures var vec := "vec__" + Digits(id);
            Destructure(Vector([Name(x)]), value, id) ==
            Pairs([Pair(vec, value), Pair(x, Apply("clojure.core/nth", [Name(vec), Number(0), Nothing]))], id + 1)
    ensures var vec, sq, first := "vec__" + Digits(id), "seq__" + Digits(id + 1), "first__" + Digits(id + 2);
            Destructure(Vector([Name(x), Name("&"), Name(r)]), value, id) ==
            Pairs([Pair(vec, value), Pair(sq, Apply("clojure.core/seq", [Name(vec)])),
                   Pair(first, Apply("clojure.core/first", [Name(sq)])), Pair(sq, Apply("clojure.core/next", [Name(sq)])),
                   Pair(x, Name(first)), Pair(r, Name(sq))], id + 3)
  {
    hide Digits;
    FlatOne(x, value, id);
    FlatTwo(x, r, value, id);
  }
}
