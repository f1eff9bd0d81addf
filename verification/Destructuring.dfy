/** Destructuring: the flat bindings a pattern becomes, and that they bind what
    the pattern means. */
module Destructuring {
  import opened Options
  import opened Forms

  datatype Pair = Pair(name: string, expr: Datum)

  datatype BindingError =
    | Unsupported(form: Datum)
    | MissingAfter(what: Datum)
    | OnlyAsAfterRest
    | OrNotMap(form: Datum)
    | OrKeyNotSymbol(form: Datum)
    | AsNotSymbol(form: Datum)
    | UnsupportedKey(key: Datum)
    | KeysNotVector(key: Datum)

  /** The pairs and the next id to generate a name from, or what is wrong. */
  datatype Flat = Pairs(pairs: seq<Pair>, next: nat) | Wrong(e: BindingError)

  const AMP := Name("&")
  const AS := Name(":as")
  const OR := Name(":or")

  function Call(f: string, args: seq<Datum>): Datum { List([Name(f)] + args) }

  function Then(before: seq<Pair>, r: Flat): Flat {
    match r case Pairs(ps, n) => Pairs(before + ps, n) case Wrong(e) => Wrong(e)
  }

  // ---- the rewrite

  function Destructure(p: Datum, value: Datum, id: nat): Flat
    decreases p, 0
  {
    match p
    case Name(s) => if IsKeyword(s) then Wrong(Unsupported(p)) else Pairs([Pair(s, value)], id)
    case Vector(items) =>
      var vec := Gen("vec__", id);
      if AMP in items then
        var rest := Gen("seq__", id + 1);
        Then([Pair(vec, value), Pair(rest, Call(SEQ, [Name(vec)]))], Elements(items, 0, 0, false, vec, Some(rest), id + 2))
      else Then([Pair(vec, value)], Elements(items, 0, 0, false, vec, None, id + 1))
    case Table(entries) =>
      var m := Gen("map__", id);
      (match Defaults(entries, 0, map[])
       case Err(e) => Wrong(e)
       case Found(defaults) =>
         Then([Pair(m, value), Pair(m, Call(AS_TABLE, [Name(m)]))], Entries(entries, 0, m, defaults, id + 1)))
    case _ => Wrong(Unsupported(p))
  }

  /** The items of a vector pattern from the `i`-th on. `rest` names what is
      left of the seq when the pattern has a `&`. */
  function Elements(items: seq<Datum>, i: nat, index: nat, seen: bool, vec: string, rest: Option<string>, id: nat): Flat
    requires i <= |items|
    decreases items, |items| - i
  {
    if i == |items| then Pairs([], id) else
    var b := items[i];
    if b == AMP || b == AS then
      if i + 1 >= |items| then Wrong(MissingAfter(b))
      else if b == AMP then
        if seen || rest.None? then Wrong(OnlyAsAfterRest) else
        match Destructure(items[i + 1], Name(rest.value), id)
        case Wrong(e) => Wrong(e)
        case Pairs(ps, n) => Then(ps, Elements(items, i + 2, index, true, vec, rest, n))
      else Destructure(items[i + 1], Name(vec), id)
    else if seen then Wrong(OnlyAsAfterRest)
    else if rest.Some? then
      var first := Gen("first__", id);
      match Destructure(b, Name(first), id + 1)
      case Wrong(e) => Wrong(e)
      case Pairs(ps, n) =>
        Then([Pair(first, Call(FIRST, [Name(rest.value)])), Pair(rest.value, Call(NEXT, [Name(rest.value)]))] + ps,
             Elements(items, i + 1, index + 1, seen, vec, rest, n))
    else
      match Destructure(b, Call(NTH, [Name(vec), Number(index), Nothing]), id)
      case Wrong(e) => Wrong(e)
      case Pairs(ps, n) => Then(ps, Elements(items, i + 1, index + 1, seen, vec, rest, n))
  }

  datatype Defaulted = Found(defaults: map<string, Datum>) | Err(e: BindingError)

  /** What the `:or` entries from the `j`-th on default, by local name. */
  function Defaults(entries: seq<Entry>, j: nat, found: map<string, Datum>): Defaulted
    requires j <= |entries|
    decreases |entries| - j
  {
    if j == |entries| then Found(found)
    else if entries[j].key != OR then Defaults(entries, j + 1, found)
    else if !entries[j].val.Table? then Err(OrNotMap(entries[j].val))
    else
      match OrEntries(entries[j].val.entries, 0, found)
      case Err(e) => Err(e)
      case Found(f) => Defaults(entries, j + 1, f)
  }

  function OrEntries(ors: seq<Entry>, t: nat, found: map<string, Datum>): Defaulted
    requires t <= |ors|
    decreases |ors| - t
  {
    if t == |ors| then Found(found)
    else if !ors[t].key.Name? then Err(OrKeyNotSymbol(ors[t].key))
    else OrEntries(ors, t + 1, found[ors[t].key.s := ors[t].val])
  }

  function DefaultOf(defaults: map<string, Datum>, local: string): Option<Datum> {
    if local in defaults then Some(defaults[local]) else None
  }

  /** `(get m key)` or `(get m key default)`. */
  function GetForm(m: string, key: Datum, default: Option<Datum>): Datum {
    Call(GET, [Name(m), key] + (if default.Some? then [default.value] else []))
  }

  /** What a `:keys`-like key asks for. */
  datatype Kind = Keys(ns: string) | Strs | Syms(ns: string) | NoKind

  function KindOf(key: string): Kind {
    var kw := Bare(key);
    var slash := Find(kw, '/');
    var kind, ns := if slash < |kw| then kw[slash + 1..] else kw, if slash < |kw| then kw[..slash] else "";
    if kind == "keys" then Keys(ns)
    else if kind == "syms" then Syms(ns)
    else if kind == "strs" && ns == "" then Strs
    else NoKind
  }

  /** The form a name listed under `kind` is looked up by. */
  function KeyForm(kind: Kind, spelled: string): Datum
    requires !kind.NoKind?
  {
    var ns := if kind.Strs? then "" else kind.ns;
    var full := if Find(spelled, '/') == |spelled| && ns != "" then ns + "/" + spelled else spelled;
    match kind
    case Keys(_) => Name(":" + full)
    case Strs => Text(Local(spelled))
    case _ => List([Name("quote"), Name(full)])
  }

  function KeyNames(names: seq<Datum>, t: nat, kind: Kind, m: string, defaults: map<string, Datum>, id: nat): Flat
    requires t <= |names| && !kind.NoKind?
    decreases |names| - t
  {
    if t == |names| then Pairs([], id)
    else if !names[t].Name? then Wrong(Unsupported(names[t]))
    else
      var spelled := Bare(names[t].s);
      var local := Local(spelled);
      Then([Pair(local, GetForm(m, KeyForm(kind, spelled), DefaultOf(defaults, local)))],
           KeyNames(names, t + 1, kind, m, defaults, id))
  }

  /** The entries of a map pattern from the `j`-th on. */
  function Entries(entries: seq<Entry>, j: nat, m: string, defaults: map<string, Datum>, id: nat): Flat
    requires j <= |entries|
    decreases entries, |entries| - j
  {
    if j == |entries| then Pairs([], id) else
    match EntryPairs(entries[j], m, defaults, id)
    case Wrong(e) => Wrong(e)
    case Pairs(ps, n) => Then(ps, Entries(entries, j + 1, m, defaults, n))
  }

  function EntryPairs(en: Entry, m: string, defaults: map<string, Datum>, id: nat): Flat
    decreases en
  {
    var k, v := en.key, en.val;
    if k == OR then Pairs([], id)
    else if k == AS then
      if v.Name? && !IsKeyword(v.s) then Pairs([Pair(v.s, Name(m))], id) else Wrong(AsNotSymbol(v))
    else if k.Name? && IsKeyword(k.s) then
      if KindOf(k.s).NoKind? then Wrong(UnsupportedKey(k))
      else if !v.Vector? then Wrong(KeysNotVector(k))
      else KeyNames(v.items, 0, KindOf(k.s), m, defaults, id)
    else if k.Name? then Pairs([Pair(k.s, GetForm(m, v, DefaultOf(defaults, k.s)))], id)
    else Destructure(k, GetForm(m, v, None), id)
  }

  // ---- what a pattern means

  /** The scope with the pattern's names bound, or what evaluating a key or a
      default, or taking the value apart, raised. */
  datatype Matched = Bound(env: Scope, w: int) | Thrown(x: Datum, w: int) | Malformed

  /** The element at `k`, nil past the end. */
  function Component(xs: seq<Datum>, k: nat): Datum { if k < |xs| then xs[k] else Nothing }

  /** The elements from the `k`-th on, nil if there are none. */
  function Remaining(xs: seq<Datum>, k: nat): Datum { if k < |xs| then List(xs[k..]) else Nothing }

  /** Each name in the pattern bound to the part of `v` it stands at. */
  function Match(L: Language, p: Datum, v: Datum, env: Scope, w: int): Matched
    decreases p, 0
  {
    match p
    case Name(s) => if IsKeyword(s) then Malformed else Bound(env[s := v], w)
    case Vector(items) =>
      if AMP in items then
        match Items(L, v)
        case None => Thrown(L.wrong(SEQ, v), w)
        case Some(xs) => MatchElements(L, items, 0, 0, v, Some(xs), env, w)
      else MatchElements(L, items, 0, 0, v, Indexed(L, v), env, w)
    case Table(entries) =>
      (match Defaults(entries, 0, map[])
       case Err(_) => Malformed
       case Found(defaults) => MatchEntries(L, entries, 0, L.asTable(v), defaults, env, w))
    case _ => Malformed
  }

  function MatchElements(L: Language, items: seq<Datum>, i: nat, index: nat, v: Datum, xs: Option<seq<Datum>>, env: Scope, w: int): Matched
    requires i <= |items|
    decreases items, |items| - i
  {
    if i == |items| then Bound(env, w)
    else if items[i] == AS then
      if i + 1 < |items| then Match(L, items[i + 1], v, env, w) else Malformed
    else if items[i] == AMP then
      if i + 1 < |items| && xs.Some? then
        match Match(L, items[i + 1], Remaining(xs.value, index), env, w)
        case Bound(env1, w1) => MatchElements(L, items, i + 2, index, v, xs, env1, w1)
        case m => m
      else Malformed
    else if xs.None? then Thrown(L.wrong(NTH, v), w)
    else
      match Match(L, items[i], Component(xs.value, index), env, w)
      case Bound(env1, w1) => MatchElements(L, items, i + 1, index + 1, v, xs, env1, w1)
      case m => m
  }

  /** What `m` has under a key: the default, evaluated first, if it has
      nothing. */
  function Lookup(L: Language, m: Datum, key: Datum, default: Option<Datum>, env: Scope, w: int): Outcome {
    match Eval(L, key, env, w)
    case Raised(x, w1) => Raised(x, w1)
    case Ok(k, w1) =>
      if default.None? then Ok(Looked(L, m, k, Nothing), w1) else
      match Eval(L, default.value, env, w1)
      case Raised(x, w2) => Raised(x, w2)
      case Ok(d, w2) => Ok(Looked(L, m, k, d), w2)
  }

  function BindLookup(L: Language, name: string, o: Outcome, env: Scope): Matched {
    match o case Ok(v, w) => Bound(env[name := v], w) case Raised(x, w) => Thrown(x, w)
  }

  function MatchKeys(L: Language, names: seq<Datum>, t: nat, kind: Kind, m: Datum, defaults: map<string, Datum>, env: Scope, w: int): Matched
    requires t <= |names| && !kind.NoKind?
    decreases |names| - t
  {
    if t == |names| then Bound(env, w)
    else if !names[t].Name? then Malformed
    else
      var spelled := Bare(names[t].s);
      var local := Local(spelled);
      match BindLookup(L, local, Lookup(L, m, KeyForm(kind, spelled), DefaultOf(defaults, local), env, w), env)
      case Bound(env1, w1) => MatchKeys(L, names, t + 1, kind, m, defaults, env1, w1)
      case r => r
  }

  function MatchEntry(L: Language, en: Entry, m: Datum, defaults: map<string, Datum>, env: Scope, w: int): Matched
    decreases en
  {
    var k, v := en.key, en.val;
    if k == OR then Bound(env, w)
    else if k == AS then if v.Name? && !IsKeyword(v.s) then Bound(env[v.s := m], w) else Malformed
    else if k.Name? && IsKeyword(k.s) then
      if KindOf(k.s).NoKind? || !v.Vector? then Malformed else MatchKeys(L, v.items, 0, KindOf(k.s), m, defaults, env, w)
    else if k.Name? then BindLookup(L, k.s, Lookup(L, m, v, DefaultOf(defaults, k.s), env, w), env)
    else
      match Lookup(L, m, v, None, env, w)
      case Raised(x, w1) => Thrown(x, w1)
      case Ok(part, w1) => Match(L, k, part, env, w1)
  }

  function MatchEntries(L: Language, entries: seq<Entry>, j: nat, m: Datum, defaults: map<string, Datum>, env: Scope, w: int): Matched
    requires j <= |entries|
    decreases entries, |entries| - j
  {
    if j == |entries| then Bound(env, w) else
    match MatchEntry(L, entries[j], m, defaults, env, w)
    case Bound(env1, w1) => MatchEntries(L, entries, j + 1, m, defaults, env1, w1)
    case r => r
  }

  /** The flat pairs as a sequential `let`. */
  function Run(L: Language, pairs: seq<Pair>, i: nat, env: Scope, w: int): Matched
    requires i <= |pairs|
    decreases |pairs| - i
  {
    if i == |pairs| then Bound(env, w) else
    match Eval(L, pairs[i].expr, env, w)
    case Raised(x, w1) => Thrown(x, w1)
    case Ok(v, w1) => Run(L, pairs, i + 1, env[pairs[i].name := v], w1)
  }
}
