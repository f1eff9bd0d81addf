/** What templates build, part by part. */
module Templates {
  import opened Options
  import opened Forms
  import opened SyntaxQuote

  /** `~@x`, as it is read. */
  predicate Splice(t: Datum) { t.List? && |t.items| == 2 && t.items[0] == Name("clojure.core/unquote-splicing") }

  /** `~x`, as it is read. */
  predicate Unquote(t: Datum) { t.List? && |t.items| == 2 && t.items[0] == Name("clojure.core/unquote") }

  /** Filled in one after another, from the world `ws[0]` on, the templates `ts`
      give `vs`. */
  ghost predicate FillsTo(L: Language, ts: seq<Datum>, resolve: string -> string, table: map<string, string>, env: Scope, vs: seq<Datum>, ws: seq<int>) {
    && |vs| == |ts| && |ws| == |ts| + 1
    && forall i | 0 <= i < |ts| :: !Splice(ts[i]) && Fill(L, ts[i], resolve, table, env, ws[i]) == Ok(vs[i], ws[i + 1])
  }

  lemma {:induction false} PartsGive(L: Language, ts: seq<Datum>, i: nat, resolve: string -> string, table: map<string, string>, env: Scope, vs: seq<Datum>, ws: seq<int>)
    requires i <= |ts| && FillsTo(L, ts, resolve, table, env, vs, ws)
    ensures FillParts(L, ts, i, resolve, table, env, ws[i]) == Oks(vs[i..], ws[|ts|])
    decreases |ts| - i
  {
    hide Fill;
    if i < |ts| {
      PartsGive(L, ts, i + 1, resolve, table, env, vs, ws);
      assert vs[i..] == [vs[i]] + vs[i + 1..];
      assert !Is(ts[i], SPLICE);
    }
  }

  lemma {:induction false} AllContributed(L: Language, ts: seq<Datum>, vs: seq<Datum>)
    requires |vs| == |ts| && forall i | 0 <= i < |ts| :: !Splice(ts[i])
    ensures Contributed(L, ts, vs) == Gives(List(vs))
    decreases |ts|
  {
    if ts != [] {
      assert !Splice(ts[0]) && !Is(ts[0], SPLICE);
      AllContributed(L, ts[1..], vs[1..]);
      assert [vs[0]] + vs[1..] == vs;
    }
  }

  /** What the values of the parts make up: a list, nil if it is empty, a
      vector, or what hash-map or hash-set build. */
  ghost predicate Makes(L: Language, t: Datum, vs: seq<Datum>, o: Outcome, w: int) {
    match t
    case List(_) => o == Ok(if vs == [] then Nothing else List(vs), w)
    case Vector(_) => o == Ok(Vector(vs), w)
    case Table(_) => o == Answered(L.build("clojure.core/hash-map", vs), w)
    case Group(_) => o == Answered(L.build("clojure.core/hash-set", vs), w)
    case _ => false
  }

  function Answered(a: Answer, w: int): Outcome { match a case Gives(v) => Ok(v, w) case Fails(x) => Raised(x, w) }

  lemma SequenceMade(L: Language, t: Datum, ts: seq<Datum>, resolve: string -> string, table: map<string, string>, env: Scope, vs: seq<Datum>, ws: seq<int>)
    requires Compound(t) && Parts(t) == ts && FillsTo(L, ts, resolve, table, env, vs, ws)
    ensures Makes(L, t, vs, FillSequence(L, t, resolve, table, env, ws[0]), ws[|ts|])
  {
    PartsGive(L, ts, 0, resolve, table, env, vs, ws);
    AllContributed(L, ts, vs);
    assert vs[0..] == vs;
    hide FillParts, Contributed, FillsTo;
  }

  /** A list with elements that is no `~x` or `~@x`, a vector or a set: its
      elements, filled in, in their order. The expansion gives the same. */
  lemma ElementsInOrder(L: Language, t: Datum, ts: seq<Datum>, resolve: string -> string, g: Gensyms, table: map<string, string>, env: Scope, vs: seq<Datum>, ws: seq<int>)
    requires t == List(ts) || t == Vector(ts) || t == Group(ts)
    requires t.List? ==> ts != [] && ts[0] != Name("clojure.core/unquote") && ts[0] != Name("clojure.core/unquote-splicing")
    requires FillsTo(L, ts, resolve, table, env, vs, ws)
    ensures Makes(L, t, vs, Fill(L, t, resolve, table, env, ws[0]), ws[|ts|])
    ensures Expand(t, resolve, g).Expanded? && Covers(table, Expand(t, resolve, g).g) ==>
              Makes(L, t, vs, Eval(L, Expand(t, resolve, g).form, env, ws[0]), ws[|ts|])
  {
    SequenceMade(L, t, ts, resolve, table, env, vs, ws);
    FillIsSequence(L, t, resolve, table, env, ws[0]);
    hide Expand, Fill, FillSequence, FillsTo;
    if Expand(t, resolve, g).Expanded? && Covers(table, Expand(t, resolve, g).g) {
      ExpansionFills(L, t, resolve, g, table, env, ws[0]);
    }
  }

  lemma FillIsSequence(L: Language, t: Datum, resolve: string -> string, table: map<string, string>, env: Scope, w: int)
    requires Compound(t) && (t.List? ==> t.items != [] && t.items[0] != UNQUOTE)
    ensures Fill(L, t, resolve, table, env, w) == FillSequence(L, t, resolve, table, env, w)
  {
  }

  lemma {:induction false} EntriesFlat(es: seq<Entry>)
    ensures |Flattened(es)| == 2 * |es|
    ensures forall i | 0 <= i < |es| :: Flattened(es)[2 * i] == es[i].key && Flattened(es)[2 * i + 1] == es[i].val
    decreases |es|
  {
    if es != [] {
      EntriesFlat(es[1..]);
      var f, rest := Flattened(es), Flattened(es[1..]);
      forall i | 0 <= i < |es| ensures f[2 * i] == es[i].key && f[2 * i + 1] == es[i].val {
        if i > 0 {
          assert f[2 * i] == rest[2 * (i - 1)] && f[2 * i + 1] == rest[2 * (i - 1) + 1];
        }
      }
    }
  }

  /** A map: key and value of each entry, the key first, filled in in their
      order, and what hash-map builds of them. `kvs` are these values, `ws` the
      worlds between. The expansion gives the same. */
  lemma EntriesInOrder(L: Language, es: seq<Entry>, resolve: string -> string, g: Gensyms, table: map<string, string>, env: Scope, kvs: seq<Datum>, ws: seq<int>)
    requires |kvs| == 2 * |es| && |ws| == 2 * |es| + 1
    requires forall i | 0 <= i < |es| ::
               && !Splice(es[i].key) && Fill(L, es[i].key, resolve, table, env, ws[2 * i]) == Ok(kvs[2 * i], ws[2 * i + 1])
               && !Splice(es[i].val) && Fill(L, es[i].val, resolve, table, env, ws[2 * i + 1]) == Ok(kvs[2 * i + 1], ws[2 * i + 2])
    ensures Fill(L, Table(es), resolve, table, env, ws[0]) == Answered(L.build("clojure.core/hash-map", kvs), ws[2 * |es|])
    ensures Expand(Table(es), resolve, g).Expanded? && Covers(table, Expand(Table(es), resolve, g).g) ==>
              Eval(L, Expand(Table(es), resolve, g).form, env, ws[0]) == Answered(L.build("clojure.core/hash-map", kvs), ws[2 * |es|])
  {
    var t, ts := Table(es), Flattened(es);
    EntriesFlat(es);
    hide Expand, Fill, FillSequence, Flattened;
    forall j | 0 <= j < |ts| ensures !Splice(ts[j]) && Fill(L, ts[j], resolve, table, env, ws[j]) == Ok(kvs[j], ws[j + 1]) {
      var i := j / 2;
      assert es[i].key == ts[2 * i] && es[i].val == ts[2 * i + 1];
      assert j == 2 * i || j == 2 * i + 1;
    }
    SequenceMade(L, t, ts, resolve, table, env, kvs, ws);
    FillIsSequence(L, t, resolve, table, env, ws[0]);
    if Expand(t, resolve, g).Expanded? && Covers(table, Expand(t, resolve, g).g) {
      ExpansionFills(L, t, resolve, g, table, env, ws[0]);
    }
  }

  /** `~x` is replaced by the value of `x`, a vector's `~@x` by the elements of
      its value. */
  lemma UnquotesFilled(L: Language, x: Datum, resolve: string -> string, g: Gensyms, table: map<string, string>, env: Scope, w: int)
    ensures var t := List([Name("clojure.core/unquote"), x]);
            Expand(t, resolve, g) == Expanded(x, g) && Fill(L, t, resolve, table, env, w) == Eval(L, x, env, w)
    ensures var t := Vector([List([Name("clojure.core/unquote-splicing"), x])]);
            forall xs, w1 | Eval(L, x, env, w) == Ok(List(xs), w1) :: Fill(L, t, resolve, table, env, w) == Ok(Vector(xs), w1)
  {
    var u, s := List([UNQUOTE, x]), [List([SPLICE, x])];
    assert u.items[0] == UNQUOTE;
    assert Is(s[0], SPLICE);
    forall xs, w1 | Eval(L, x, env, w) == Ok(List(xs), w1)
      ensures Fill(L, Vector(s), resolve, table, env, w) == Ok(Vector(xs), w1)
    {
      assert FillParts(L, s, 1, resolve, table, env, w1) == Oks([], w1);
      assert FillParts(L, s, 0, resolve, table, env, w) == Oks([List(xs)], w1);
      assert Contributed(L, s[1..], [List(xs)][1..]) == Gives(List([]));
      assert Contributed(L, s, [List(xs)]) == Gives(List(xs));
    }
  }

  function Applied(f: string, args: seq<Datum>): Datum { List([Name(f)] + args) }

  /** `(clojure.core/seq (clojure.core/concat ...))`. */
  function Concatenated(pieces: seq<Datum>): Datum {
    Applied("clojure.core/seq", [Applied("clojure.core/concat", pieces)])
  }

  /** The expansions of an empty list and of templates with one element, or a map
      with one key, form by form. */
  lemma OneExpanded(x: Datum, y: Datum, resolve: string -> string, g: Gensyms, f: Datum, g1: Gensyms, h: Datum, g2: Gensyms)
    requires !Splice(x) && !Unquote(x) && Expand(x, resolve, g) == Expanded(f, g1)
    requires !Splice(y) && !Unquote(y) && Expand(y, resolve, g1) == Expanded(h, g2)
    ensures Expand(List([]), resolve, g) == Expanded(Applied("clojure.core/list", []), g)
    ensures var one := Concatenated([Applied("clojure.core/list", [f])]);
            && (x != Name("clojure.core/unquote") && x != Name("clojure.core/unquote-splicing") ==> Expand(List([x]), resolve, g) == Expanded(one, g1))
            && Expand(Vector([x]), resolve, g) == Expanded(Applied("clojure.core/apply", [Name("clojure.core/vector"), one]), g1)
            && Expand(Group([x]), resolve, g) == Expanded(Applied("clojure.core/apply", [Name("clojure.core/hash-set"), one]), g1)
    ensures var two := Concatenated([Applied("clojure.core/list", [f]), Applied("clojure.core/list", [h])]);
            Expand(Table([Entry(x, y)]), resolve, g) == Expanded(Applied("clojure.core/apply", [Name("clojure.core/hash-map"), two]), g2)
  {
    PiecesOf(x, y, resolve, g, f, g1, h, g2);
    assert Flattened([Entry(x, y)]) == [x, y];
    hide ExpandParts;
  }

  lemma PiecesOf(x: Datum, y: Datum, resolve: string -> string, g: Gensyms, f: Datum, g1: Gensyms, h: Datum, g2: Gensyms)
    requires !Splice(x) && !Unquote(x) && Expand(x, resolve, g) == Expanded(f, g1)
    requires !Splice(y) && !Unquote(y) && Expand(y, resolve, g1) == Expanded(h, g2)
    ensures ExpandParts([x], 0, resolve, g) == ExpandedAll([Applied("clojure.core/list", [f])], g1)
    ensures ExpandParts([x, y], 0, resolve, g) == ExpandedAll([Applied("clojure.core/list", [f]), Applied("clojure.core/list", [h])], g2)
  {
    hide Expand;
    assert ExpandParts([x], 1, resolve, g1) == ExpandedAll([], g1);
    assert ExpandParts([x, y], 2, resolve, g2) == ExpandedAll([], g2);
    assert ExpandPart([x, y], 1, resolve, g1) == Expanded(Applied("clojure.core/list", [h]), g2);
    assert ExpandParts([x, y], 1, resolve, g1) == ExpandedAll([Applied("clojure.core/list", [h])], g2);
    assert ExpandPart([x, y], 0, resolve, g) == Expanded(Applied("clojure.core/list", [f]), g1);
  }

  /** A symbol is quoted as resolved; `foo#` as the symbol generated for it, the
      first time with the next id. */
  lemma SymbolsQuoted(s: string, resolve: string -> string, g: Gensyms)
    requires s != "" && s[0] != ':'
    ensures s[|s| - 1] != '#' ==> Expand(Name(s), resolve, g) == Expanded(List([Name("quote"), Name(resolve(s))]), g)
    ensures '/' in s ==> Expand(Name(s), resolve, g) == Expanded(List([Name("quote"), Name(resolve(s))]), g)
    ensures s == "#" ==> Expand(Name(s), resolve, g) == Expanded(List([Name("quote"), Name(resolve(s))]), g)
    ensures '/' !in s && s + "#" !in g.table ==>
              var auto := s + "__" + Digits(g.next) + "__auto__";
              Expand(Name(s + "#"), resolve, g) == Expanded(List([Name("quote"), Name(auto)]), Gensyms(g.table[s + "#" := auto], g.next + 1))
    ensures '/' !in s && s + "#" in g.table ==>
              Expand(Name(s + "#"), resolve, g) == Expanded(List([Name("quote"), Name(g.table[s + "#"])]), g)
  {
    var a := s + "#";
    assert a[..|a| - 1] == s;
    FindIn(s, '/');
    FindIn(a, '/');
    hide Digits, Find;
  }

  lemma {:induction false} FindIn(s: string, c: char)
    ensures Find(s, c) == |s| <==> c !in s
  {
    if s != [] { FindIn(s[1..], c); }
  }
}
