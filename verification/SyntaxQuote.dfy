/** Syntax-quote: the forms a template is expanded to as it is read, and that
    they build the template with its unquotes filled in. */
module SyntaxQuote {
  import opened Options
  import opened Forms

  const UNQUOTE := Name("clojure.core/unquote")
  const SPLICE := Name("clojure.core/unquote-splicing")

  datatype ReadError = UnquoteArity | SpliceOutside

  /** The generated symbols of one syntax-quote, by spelling, and the next id. */
  datatype Gensyms = Gensyms(table: map<string, string>, next: nat)

  datatype Expansion = Expanded(form: Datum, g: Gensyms) | Refused(e: ReadError)
  datatype Expansions = ExpandedAll(forms: seq<Datum>, g: Gensyms) | RefusedAll(e: ReadError)

  /** `foo#`. */
  predicate IsAuto(s: string) { |s| > 1 && s[|s| - 1] == '#' && Find(s, '/') == |s| }

  const AUTO := "__auto__"

  /** The symbol `foo#` generates with this id: `foo__N__auto__`. */
  function AutoName(s: string, n: nat): string
    requires |s| > 0
  {
    s[..|s| - 1] + "__" + Digits(n) + AUTO
  }

  function Interned(g: Gensyms, s: string): Gensyms
    requires |s| > 0
  {
    if s in g.table then g else Gensyms(g.table[s := AutoName(s, g.next)], g.next + 1)
  }

  function Call(f: string, args: seq<Datum>): Datum { List([Name(f)] + args) }

  function Quoted(d: Datum): Datum { List([Name("quote"), d]) }

  /** The forms whose results make up a list, vector, map or set template. */
  function Parts(t: Datum): seq<Datum> {
    match t
    case List(xs) => xs
    case Vector(xs) => xs
    case Group(xs) => xs
    case Table(es) => Flattened(es)
    case _ => []
  }

  function Flattened(es: seq<Entry>): seq<Datum> {
    if es == [] then [] else [es[0].key, es[0].val] + Flattened(es[1..])
  }

  /** What the sequence of the parts is handed to; a list is the sequence. */
  function Builder(t: Datum): Option<string> {
    match t case Vector(_) => Some(VECTOR) case Table(_) => Some(HASH_MAP) case Group(_) => Some(HASH_SET) case _ => None
  }

  predicate Is(t: Datum, head: Datum) { t.List? && |t.items| == 2 && t.items[0] == head }

  /** How deep a template nests. */
  function Height(t: Datum): nat
    decreases t
  {
    match t
    case List(xs) => 1 + HeightAll(xs)
    case Vector(xs) => 1 + HeightAll(xs)
    case Group(xs) => 1 + HeightAll(xs)
    case Table(es) => 1 + HeightEntries(es)
    case _ => 0
  }

  function HeightAll(xs: seq<Datum>): nat
    decreases xs
  {
    if xs == [] then 0 else Max(Height(xs[0]), HeightAll(xs[1..]))
  }

  function HeightEntries(es: seq<Entry>): nat
    decreases es
  {
    if es == [] then 0 else Max(HeightOf(es[0]), HeightEntries(es[1..]))
  }

  function HeightOf(en: Entry): nat
    decreases en
  {
    Max(Height(en.key), Height(en.val))
  }

  function Max(a: nat, b: nat): nat { if a < b then b else a }

  lemma {:induction false} HeightItem(xs: seq<Datum>, i: nat)
    requires i < |xs|
    ensures Height(xs[i]) <= HeightAll(xs)
  {
    if i > 0 { HeightItem(xs[1..], i - 1); }
  }

  lemma {:induction false} HeightFlattened(es: seq<Entry>)
    ensures HeightAll(Flattened(es)) <= HeightEntries(es)
  {
    if es != [] {
      HeightFlattened(es[1..]);
      var f := Flattened(es);
      assert f[1..] == [es[0].val] + Flattened(es[1..]);
      assert f[1..][1..] == Flattened(es[1..]);
    }
  }

  lemma HeightParts(t: Datum)
    requires t.List? || t.Vector? || t.Group? || t.Table?
    ensures HeightAll(Parts(t)) < Height(t)
  {
    if t.Table? { HeightFlattened(t.entries); }
  }

  /** The template expanded, its symbols resolved by `resolve`. */
  function Expand(t: Datum, resolve: string -> string, g: Gensyms): Expansion
    decreases Height(t), 1, 0
  {
    match t
    case Nothing => Expanded(t, g)
    case Truth(_) => Expanded(t, g)
    case Number(_) => Expanded(t, g)
    case Text(_) => Expanded(t, g)
    case Name(s) =>
      if IsKeyword(s) then Expanded(t, g)
      else if IsAuto(s) then Expanded(Quoted(Name(Interned(g, s).table[s])), Interned(g, s))
      else Expanded(Quoted(Name(resolve(s))), g)
    case Opaque(_) => Expanded(Quoted(t), g)
    case List(xs) =>
      if xs == [] then Expanded(Call(LIST, []), g)
      else if xs[0] == UNQUOTE then if |xs| == 2 then Expanded(xs[1], g) else Refused(UnquoteArity)
      else if xs[0] == SPLICE then Refused(SpliceOutside)
      else ExpandSequence(t, resolve, g)
    case Vector(_) => ExpandSequence(t, resolve, g)
    case Group(_) => ExpandSequence(t, resolve, g)
    case Table(_) => ExpandSequence(t, resolve, g)
  }

  predicate Compound(t: Datum) { t.List? || t.Vector? || t.Group? || t.Table? }

  /** The pieces concatenated and made a seq, handed to the builder if the
      template is not a list. */
  function Assembled(t: Datum, pieces: seq<Datum>): Datum {
    var elements := Call(SEQ, [Call(CONCAT, pieces)]);
    match Builder(t) case None => elements case Some(b) => Call(APPLY, [Name(b), elements])
  }

  function ExpandSequence(t: Datum, resolve: string -> string, g: Gensyms): Expansion
    requires Compound(t)
    decreases Height(t), 0, |Parts(t)| + 1
  {
    HeightParts(t);
    match ExpandParts(Parts(t), 0, resolve, g)
    case RefusedAll(e) => Refused(e)
    case ExpandedAll(pieces, g1) => Expanded(Assembled(t, pieces), g1)
  }

  /** One piece per part: what is spliced as it is, all else in a list. */
  function ExpandParts(xs: seq<Datum>, i: nat, resolve: string -> string, g: Gensyms): Expansions
    requires i <= |xs|
    decreases HeightAll(xs) + 1, 0, |xs| - i
  {
    if i == |xs| then ExpandedAll([], g) else
    var r := ExpandPart(xs, i, resolve, g);
    match r
    case Refused(e) => RefusedAll(e)
    case Expanded(piece, g1) =>
      match ExpandParts(xs, i + 1, resolve, g1)
      case RefusedAll(e) => RefusedAll(e)
      case ExpandedAll(pieces, g2) => ExpandedAll([piece] + pieces, g2)
  }

  function ExpandPart(xs: seq<Datum>, i: nat, resolve: string -> string, g: Gensyms): Expansion
    requires i < |xs|
    decreases HeightAll(xs), 2, 0
  {
    HeightItem(xs, i);
    if Is(xs[i], SPLICE) then Expanded(xs[i].items[1], g)
    else if Is(xs[i], UNQUOTE) then Expanded(Call(LIST, [xs[i].items[1]]), g)
    else
      match Expand(xs[i], resolve, g)
      case Refused(e) => Refused(e)
      case Expanded(f, g1) => Expanded(Call(LIST, [f]), g1)
  }

  // ---- what a template means

  /** The symbol a template's symbol stands for, given the generated ones. */
  function Resolved(s: string, resolve: string -> string, table: map<string, string>): string {
    if IsAuto(s) then (if s in table then table[s] else s) else resolve(s)
  }

  /** The template with its unquotes evaluated in `env` and its splices spliced
      in. */
  function Fill(L: Language, t: Datum, resolve: string -> string, table: map<string, string>, env: Scope, w: int): Outcome
    decreases Height(t), 1, 0
  {
    match t
    case Name(s) => Ok(if IsKeyword(s) then t else Name(Resolved(s, resolve, table)), w)
    case List(xs) =>
      if Is(t, UNQUOTE) then Eval(L, xs[1], env, w)
      else if xs == [] then Ok(t, w)
      else FillSequence(L, t, resolve, table, env, w)
    case Vector(_) => FillSequence(L, t, resolve, table, env, w)
    case Group(_) => FillSequence(L, t, resolve, table, env, w)
    case Table(_) => FillSequence(L, t, resolve, table, env, w)
    case _ => Ok(t, w)
  }

  function FillSequence(L: Language, t: Datum, resolve: string -> string, table: map<string, string>, env: Scope, w: int): Outcome
    requires Compound(t)
    decreases Height(t), 0, |Parts(t)| + 1
  {
    HeightParts(t);
    match FillParts(L, Parts(t), 0, resolve, table, env, w)
    case Stopped(x, w1) => Raised(x, w1)
    case Oks(vs, w1) => Spliced(L, Parts(t), vs, Builder(t), w1)
  }

  /** The value of each part, what is to be spliced as one value still. */
  function FillParts(L: Language, xs: seq<Datum>, i: nat, resolve: string -> string, table: map<string, string>, env: Scope, w: int): Outcomes
    requires i <= |xs|
    decreases HeightAll(xs) + 1, 0, |xs| - i
  {
    if i == |xs| then Oks([], w) else
    HeightItem(xs, i);
    var o := if Is(xs[i], SPLICE) then Eval(L, xs[i].items[1], env, w) else Fill(L, xs[i], resolve, table, env, w);
    if o.Raised? then Stopped(o.x, o.w) else
    var rest := FillParts(L, xs, i + 1, resolve, table, env, o.w);
    if rest.Stopped? then rest else Oks([o.v] + rest.vs, rest.w)
  }

  /** The elements the parts contribute, in order. */
  function Contributed(L: Language, xs: seq<Datum>, vs: seq<Datum>): Answer {
    if xs == [] || vs == [] then Gives(List([])) else
    var ys := if Is(xs[0], SPLICE) then Items(L, vs[0]) else Some([vs[0]]);
    if ys.None? then Fails(L.wrong(CONCAT, vs[0])) else
    match Contributed(L, xs[1..], vs[1..])
    case Gives(List(zs)) => Gives(List(ys.value + zs))
    case a => a
  }

  /** A list of the elements, nil when there are none, or what is built of
      them. */
  function Spliced(L: Language, xs: seq<Datum>, vs: seq<Datum>, builder: Option<string>, w: int): Outcome {
    match Contributed(L, xs, vs)
    case Fails(x) => Raised(x, w)
    case Gives(elements) =>
      if !elements.List? then Raised(Nothing, w)
      else if builder.None? then Ok(SeqOf(elements.items), w)
      else match Build(L, builder.value, elements.items) case Gives(v) => Ok(v, w) case Fails(x) => Raised(x, w)
  }

  // ---- the expansion evaluates to the template filled in

  lemma {:induction false} EvalRest(L: Language, h: Datum, xs: seq<Datum>, i: nat, env: Scope, w: int)
    requires i <= |xs|
    ensures EvalAll(L, [h] + xs, 1 + i, env, w) == EvalAll(L, xs, i, env, w)
    decreases |xs| - i
  {
    if i < |xs| {
      assert ([h] + xs)[1 + i] == xs[i];
      match Eval(L, xs[i], env, w) {
        case Raised(_, _) =>
        case Ok(_, w1) => EvalRest(L, h, xs, i + 1, env, w1);
      }
    }
  }

  lemma EvalCall(L: Language, f: string, args: seq<Datum>, env: Scope, w: int)
    requires Core(f)
    ensures Eval(L, Call(f, args), env, w) ==
            match EvalAll(L, args, 0, env, w)
            case Stopped(x, w1) => Raised(x, w1)
            case Oks(vs, w1) => match Primitive(L, f, vs) case Gives(v) => Ok(v, w1) case Fails(x) => Raised(x, w1)
  {
    EvalRest(L, Name(f), args, 0, env, w);
    assert Call(f, args).items[0] == Name(f) != Name("quote");
    hide Primitive;
  }

  lemma EvalOne(L: Language, a: Datum, env: Scope, w: int)
    ensures EvalAll(L, [a], 0, env, w) == match Eval(L, a, env, w) case Raised(x, w1) => Stopped(x, w1) case Ok(v, w1) => Oks([v], w1)
  {
    match Eval(L, a, env, w)
    case Raised(_, _) =>
    case Ok(v, w1) => assert EvalAll(L, [a], 1, env, w1) == Oks([], w1);
  }

  /** What the pieces evaluate to: a part in a list of its own, or what is
      spliced. */
  function Wrapped(xs: seq<Datum>, vs: seq<Datum>): seq<Datum> {
    if xs == [] || vs == [] then [] else [if Is(xs[0], SPLICE) then vs[0] else List([vs[0]])] + Wrapped(xs[1..], vs[1..])
  }

  lemma {:induction false} JoinedWrapped(L: Language, xs: seq<Datum>, vs: seq<Datum>)
    ensures Joined(L, Wrapped(xs, vs)) == Contributed(L, xs, vs)
  {
    if xs != [] && vs != [] {
      var r := Wrapped(xs, vs);
      assert r[1..] == Wrapped(xs[1..], vs[1..]);
      JoinedWrapped(L, xs[1..], vs[1..]);
    }
  }

  lemma {:induction false} JoinedList(L: Language, xs: seq<Datum>)
    requires Joined(L, xs).Gives?
    ensures Joined(L, xs).v.List?
  {
    if xs != [] { JoinedList(L, xs[1..]); }
  }

  /** Every symbol generated so far is in `table`. */
  ghost predicate Covers(table: map<string, string>, g: Gensyms) {
    forall s | s in g.table :: s in table && table[s] == g.table[s]
  }

  lemma {:induction false} ExpandGrows(t: Datum, resolve: string -> string, g: Gensyms)
    requires Expand(t, resolve, g).Expanded?
    ensures Covers(Expand(t, resolve, g).g.table, g)
    decreases Height(t), 1, 0
  {
    if Recurses(t) {
      HeightParts(t);
      PartsGrow(Parts(t), 0, resolve, g);
    }
  }

  /** The templates whose parts are expanded in turn. */
  predicate Recurses(t: Datum) { Compound(t) && !(t.List? && (t.items == [] || t.items[0] == UNQUOTE || t.items[0] == SPLICE)) }

  lemma {:induction false} PartsGrow(xs: seq<Datum>, i: nat, resolve: string -> string, g: Gensyms)
    requires i <= |xs| && ExpandParts(xs, i, resolve, g).ExpandedAll?
    ensures Covers(ExpandParts(xs, i, resolve, g).g.table, g)
    decreases HeightAll(xs) + 1, 0, |xs| - i
  {
    if i < |xs| {
      HeightItem(xs, i);
      if !Is(xs[i], SPLICE) && !Is(xs[i], UNQUOTE) { ExpandGrows(xs[i], resolve, g); }
      PartsGrow(xs, i + 1, resolve, ExpandPart(xs, i, resolve, g).g);
    }
  }

  /** Evaluating the expansion is filling in the template: unquotes and splices
      evaluated once each, from left to right, symbols quoted as resolved or
      generated, and nothing else evaluated. */
  lemma {:induction false} ExpansionFills(L: Language, t: Datum, resolve: string -> string, g: Gensyms, table: map<string, string>, env: Scope, w: int)
    requires Expand(t, resolve, g).Expanded? && Covers(table, Expand(t, resolve, g).g)
    ensures Eval(L, Expand(t, resolve, g).form, env, w) == Fill(L, t, resolve, table, env, w)
    decreases Height(t), 1, 0
  {
    if Recurses(t) {
      HeightParts(t);
      var xs := Parts(t);
      PartsFill(L, xs, 0, resolve, g, table, env, w);
      SequenceFills(L, t, ExpandParts(xs, 0, resolve, g).forms, FillParts(L, xs, 0, resolve, table, env, w), env, w);
    } else if t == List([]) {
      EvalCall(L, LIST, [], env, w);
    }
  }

  /** The pieces concatenated, made a seq and handed to the builder. */
  lemma {:induction false} SequenceFills(L: Language, t: Datum, pieces: seq<Datum>, filled: Outcomes, env: Scope, w: int)
    requires EvalAll(L, pieces, 0, env, w) ==
             match filled case Stopped(x, w1) => Stopped(x, w1) case Oks(vs, w1) => Oks(Wrapped(Parts(t), vs), w1)
    ensures Eval(L, Assembled(t, pieces), env, w) ==
            match filled case Stopped(x, w1) => Raised(x, w1) case Oks(vs, w1) => Spliced(L, Parts(t), vs, Builder(t), w1)
  {
    ConcatFills(L, Parts(t), pieces, filled, env, w);
    hide Joined, Wrapped, Contributed;
    match Builder(t)
    case None =>
    case Some(b) => AppliedFills(L, b, Call(SEQ, [Call(CONCAT, pieces)]), env, w);
  }

  /** The builder applied to a seq. */
  lemma AppliedFills(L: Language, b: string, elements: Datum, env: Scope, w: int)
    requires Core(b)
    ensures Eval(L, Call(APPLY, [Name(b), elements]), env, w) ==
            match Eval(L, elements, env, w)
            case Raised(x, w1) => Raised(x, w1)
            case Ok(v, w1) =>
              match Items(L, v)
              case None => Raised(L.wrong(APPLY, v), w1)
              case Some(xs) => match Build(L, b, xs) case Gives(r) => Ok(r, w1) case Fails(x) => Raised(x, w1)
  {
    EvalCall(L, APPLY, [Name(b), elements], env, w);
    ApplyArgs(L, b, elements, env, w);
    hide Eval, EvalAll, Joined, Items;
  }

  lemma {:induction false} ConcatFills(L: Language, xs: seq<Datum>, pieces: seq<Datum>, filled: Outcomes, env: Scope, w: int)
    requires EvalAll(L, pieces, 0, env, w) ==
             match filled case Stopped(x, w1) => Stopped(x, w1) case Oks(vs, w1) => Oks(Wrapped(xs, vs), w1)
    ensures Eval(L, Call(SEQ, [Call(CONCAT, pieces)]), env, w) ==
            match filled case Stopped(x, w1) => Raised(x, w1) case Oks(vs, w1) => Spliced(L, xs, vs, None, w1)
  {
    hide Joined, Wrapped, Contributed;
    var joined := Call(CONCAT, pieces);
    EvalCall(L, CONCAT, pieces, env, w);
    EvalOne(L, joined, env, w);
    EvalCall(L, SEQ, [joined], env, w);
    if filled.Oks? {
      JoinedWrapped(L, xs, filled.vs);
      if Joined(L, Wrapped(xs, filled.vs)).Gives? { JoinedList(L, Wrapped(xs, filled.vs)); }
    }
  }

  lemma ApplyArgs(L: Language, f: string, a: Datum, env: Scope, w: int)
    requires Core(f)
    ensures EvalAll(L, [Name(f), a], 0, env, w) ==
            match Eval(L, a, env, w) case Raised(x, w1) => Stopped(x, w1) case Ok(v, w1) => Oks([Name(f), v], w1)
  {
    var xs := [Name(f), a];
    match Eval(L, a, env, w)
    case Raised(x, w1) => assert EvalAll(L, xs, 1, env, w) == Stopped(x, w1);
    case Ok(v, w1) =>
      assert EvalAll(L, xs, 2, env, w1) == Oks([], w1);
      assert EvalAll(L, xs, 1, env, w) == Oks([v], w1);
  }

  lemma {:induction false} PartsFill(L: Language, xs: seq<Datum>, i: nat, resolve: string -> string, g: Gensyms, table: map<string, string>, env: Scope, w: int)
    requires i <= |xs| && ExpandParts(xs, i, resolve, g).ExpandedAll? && Covers(table, ExpandParts(xs, i, resolve, g).g)
    ensures EvalAll(L, ExpandParts(xs, i, resolve, g).forms, 0, env, w) ==
            match FillParts(L, xs, i, resolve, table, env, w)
            case Stopped(x, w1) => Stopped(x, w1)
            case Oks(vs, w1) => Oks(Wrapped(xs[i..], vs), w1)
    decreases HeightAll(xs) + 1, 0, |xs| - i
  {
    hide Fill, Contributed, ExpandPart, Eval;
    if i < |xs| {
      HeightItem(xs, i);
      var part := ExpandPart(xs, i, resolve, g);
      var more := ExpandParts(xs, i + 1, resolve, part.g);
      PartsGrow(xs, i + 1, resolve, part.g);
      PartFills(L, xs, i, resolve, g, table, env, w);
      EvalOne(L, part.form, env, w);
      match Eval(L, part.form, env, w) {
        case Raised(_, _) =>
        case Ok(v, w1) =>
          PartsFill(L, xs, i + 1, resolve, part.g, table, env, w1);
          EvalRest(L, part.form, more.forms, 0, env, w1);
          assert xs[i..][1..] == xs[i + 1..];
      }
    }
  }

  lemma {:induction false} PartFills(L: Language, xs: seq<Datum>, i: nat, resolve: string -> string, g: Gensyms, table: map<string, string>, env: Scope, w: int)
    requires i < |xs| && ExpandPart(xs, i, resolve, g).Expanded? && Covers(table, ExpandPart(xs, i, resolve, g).g)
    ensures var piece := ExpandPart(xs, i, resolve, g).form;
            if Is(xs[i], SPLICE) then Eval(L, piece, env, w) == Eval(L, xs[i].items[1], env, w)
            else Eval(L, piece, env, w) ==
                 match Fill(L, xs[i], resolve, table, env, w) case Raised(x, w1) => Raised(x, w1) case Ok(v, w1) => Ok(List([v]), w1)
    decreases HeightAll(xs), 2, 0
  {
    HeightItem(xs, i);
    if Is(xs[i], SPLICE) {
    } else if Is(xs[i], UNQUOTE) {
      EvalCall(L, LIST, [xs[i].items[1]], env, w);
      EvalOne(L, xs[i].items[1], env, w);
    } else {
      var f := Expand(xs[i], resolve, g).form;
      ExpansionFills(L, xs[i], resolve, g, table, env, w);
      EvalCall(L, LIST, [f], env, w);
      EvalOne(L, f, env, w);
    }
  }

  // ---- generated symbols

  /** The id in a generated symbol. */
  function AutoId(s: string): nat { if |s| < |AUTO| then 0 else Ending(s[..|s| - |AUTO|]) }

  lemma AutoIdOf(s: string, n: nat)
    requires |s| > 0
    ensures AutoId(AutoName(s, n)) == n
  {
    var stem := s[..|s| - 1] + "__";
    var name := AutoName(s, n);
    assert name[..|name| - |AUTO|] == stem + Digits(n);
    EndingDigits(stem, n);
  }

  /** Each spelling has one symbol, generated with an id of its own from `lo`
      on. */
  ghost predicate Distinct(g: Gensyms, lo: nat) {
    && lo <= g.next
    && (forall s | s in g.table :: |s| > 0 && lo <= AutoId(g.table[s]) < g.next && g.table[s] == AutoName(s, AutoId(g.table[s])))
    && (forall s, t | s in g.table && t in g.table && s != t :: AutoId(g.table[s]) != AutoId(g.table[t]))
  }

  lemma InternedDistinct(g: Gensyms, lo: nat, s: string)
    requires Distinct(g, lo) && |s| > 0
    ensures Distinct(Interned(g, s), lo) && s in Interned(g, s).table
  {
    AutoIdOf(s, g.next);
    hide AutoId, AutoName;
  }

  lemma {:induction false} ExpandDistinct(t: Datum, resolve: string -> string, g: Gensyms, lo: nat)
    requires Distinct(g, lo) && Expand(t, resolve, g).Expanded?
    ensures Distinct(Expand(t, resolve, g).g, lo)
    decreases Height(t), 1, 0
  {
    hide Distinct, Interned;
    if t.Name? && !IsKeyword(t.s) && IsAuto(t.s) { InternedDistinct(g, lo, t.s); }
    if Recurses(t) {
      HeightParts(t);
      PartsDistinct(Parts(t), 0, resolve, g, lo);
    }
  }

  lemma {:induction false} PartsDistinct(xs: seq<Datum>, i: nat, resolve: string -> string, g: Gensyms, lo: nat)
    requires i <= |xs| && Distinct(g, lo) && ExpandParts(xs, i, resolve, g).ExpandedAll?
    ensures Distinct(ExpandParts(xs, i, resolve, g).g, lo)
    decreases HeightAll(xs) + 1, 0, |xs| - i
  {
    hide Distinct, Expand;
    if i < |xs| {
      HeightItem(xs, i);
      if !Is(xs[i], SPLICE) && !Is(xs[i], UNQUOTE) { ExpandDistinct(xs[i], resolve, g, lo); }
      PartsDistinct(xs, i + 1, resolve, ExpandPart(xs, i, resolve, g).g, lo);
    }
  }

  /** Two syntax-quotes, the second read after the first: their symbols differ,
      and within each so do those of different spellings. */
  lemma SymbolsDiffer(t: Datum, u: Datum, resolve: string -> string, lo: nat, hi: nat, a: string, b: string)
    requires var r := Expand(t, resolve, Gensyms(map[], lo)); r.Expanded? && r.g.next <= hi && a in r.g.table
    requires var r := Expand(u, resolve, Gensyms(map[], hi)); r.Expanded? && b in r.g.table
    ensures Expand(t, resolve, Gensyms(map[], lo)).g.table[a] != Expand(u, resolve, Gensyms(map[], hi)).g.table[b]
    ensures forall c | c in Expand(t, resolve, Gensyms(map[], lo)).g.table ::
              Expand(t, resolve, Gensyms(map[], lo)).g.table[c] == Expand(t, resolve, Gensyms(map[], lo)).g.table[a] <==> c == a
  {
    hide Expand, AutoId, AutoName;
    ExpandDistinct(t, resolve, Gensyms(map[], lo), lo);
    ExpandDistinct(u, resolve, Gensyms(map[], hi), hi);
  }

  // ---- the reader

  function Before(pieces: seq<Datum>, r: Expansions): Expansions {
    match r case ExpandedAll(more, g) => ExpandedAll(pieces + more, g) case RefusedAll(e) => RefusedAll(e)
  }

  lemma BeforeOne(pieces: seq<Datum>, x: Datum, r: Expansions)
    ensures Before(pieces, Before([x], r)) == Before(pieces + [x], r)
  {
    if r.ExpandedAll? { assert pieces + ([x] + r.forms) == pieces + [x] + r.forms; }
  }

  class Reader {
    /** The tables of the syntax-quotes being read, innermost last. */
    var gensyms: seq<map<string, string>>
    var nextId: nat

    constructor (n: nat)
      ensures gensyms == [] && nextId == n
    {
      gensyms, nextId := [], n;
    }

    function Innermost(): Gensyms
      requires |gensyms| > 0
      reads this
    {
      Gensyms(gensyms[|gensyms| - 1], nextId)
    }

    /** The expansion, the innermost table and the ids as it leaves them. */
    method SyntaxQuote(t: Datum, resolve: string -> string) returns (r: Expansion)
      requires |gensyms| > 0
      modifies this
      ensures |gensyms| == |old(gensyms)| && gensyms[..|gensyms| - 1] == old(gensyms)[..|gensyms| - 1]
      ensures match Expand(t, resolve, old(Innermost()))
              case Expanded(f, g) => r == Expanded(f, g) && Innermost() == g
              case Refused(e) => r == Refused(e)
      decreases Height(t), 1
    {
      if t.Nothing? || t.Truth? || t.Number? || t.Text? { return Expanded(t, Innermost()); }
      if t.Opaque? { return Expanded(Quoted(t), Innermost()); }
      if t.Name? {
        if IsKeyword(t.s) { return Expanded(t, Innermost()); }
        if !IsAuto(t.s) { return Expanded(Quoted(Name(resolve(t.s))), Innermost()); }
        var table := gensyms[|gensyms| - 1];
        if t.s !in table {
          table := table[t.s := AutoName(t.s, nextId)];
          nextId := nextId + 1;
          gensyms := gensyms[..|gensyms| - 1] + [table];
        }
        return Expanded(Quoted(Name(table[t.s])), Innermost());
      }
      if t == List([]) { return Expanded(Call(LIST, []), Innermost()); }
      if t.List? && t.items[0] == UNQUOTE {
        if |t.items| != 2 { return Refused(UnquoteArity); }
        return Expanded(t.items[1], Innermost());
      }
      if t.List? && t.items[0] == SPLICE { return Refused(SpliceOutside); }
      r := Sequence(t, resolve);
    }

    /** The parts of a template one after another. */
    method Sequence(t: Datum, resolve: string -> string) returns (r: Expansion)
      requires |gensyms| > 0 && Compound(t)
      modifies this
      ensures |gensyms| == |old(gensyms)| && gensyms[..|gensyms| - 1] == old(gensyms)[..|gensyms| - 1]
      ensures match ExpandSequence(t, resolve, old(Innermost()))
              case Expanded(f, g) => r == Expanded(f, g) && Innermost() == g
              case Refused(e) => r == Refused(e)
      decreases Height(t), 0
    {
      HeightParts(t);
      var xs := Parts(t);
      var pieces: seq<Datum> := [];
      ghost var all := ExpandParts(xs, 0, resolve, Innermost());
      for i := 0 to |xs|
        invariant |gensyms| == |old(gensyms)| && gensyms[..|gensyms| - 1] == old(gensyms)[..|gensyms| - 1]
        invariant all == Before(pieces, ExpandParts(xs, i, resolve, Innermost()))
      {
        HeightItem(xs, i);
        ghost var g := Innermost();
        ghost var r0 := ExpandPart(xs, i, resolve, g);
        if Is(xs[i], SPLICE) {
          pieces := pieces + [xs[i].items[1]];
        } else if Is(xs[i], UNQUOTE) {
          pieces := pieces + [Call(LIST, [xs[i].items[1]])];
        } else {
          var p := SyntaxQuote(xs[i], resolve);
          if p.Refused? { return p; }
          pieces := pieces + [Call(LIST, [p.form])];
        }
        BeforeOne(pieces[..|pieces| - 1], r0.form, ExpandParts(xs, i + 1, resolve, Innermost()));
        assert pieces == pieces[..|pieces| - 1] + [r0.form];
      }
      assert ExpandParts(xs, |xs|, resolve, Innermost()) == ExpandedAll([], Innermost());
      assert pieces + [] == pieces;
      return Expanded(Assembled(t, pieces), Innermost());
    }

    /** A backtick: a table of its own while the template is expanded. */
    method Backtick(t: Datum, resolve: string -> string) returns (r: Expansion)
      modifies this
      ensures gensyms == old(gensyms)
      ensures match Expand(t, resolve, Gensyms(map[], old(nextId)))
              case Expanded(f, g) => r == Expanded(f, g) && nextId == g.next
              case Refused(e) => r == Refused(e)
    {
      gensyms := gensyms + [map[]];
      r := SyntaxQuote(t, resolve);
      gensyms := gensyms[..|gensyms| - 1];
    }
  }
}
