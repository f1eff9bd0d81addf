/** The compiler's destructuring as it runs: pairs pushed onto a vector, names
    generated from a counter. */
module Rewriter {
  import opened Options
  import opened Forms
  import opened Destructuring

  lemma ThenBoth(a: seq<Pair>, b: seq<Pair>, r: Flat)
    ensures Then(a, Then(b, r)) == Then(a + b, r)
  {
    if r.Pairs? { assert a + (b + r.pairs) == a + b + r.pairs; }
  }

  /** Pairs pushed after `done`, or nothing more, or what is wrong. */
  lemma ThenMore(before: seq<Pair>, done: seq<Pair>, r: Flat)
    ensures match r
            case Wrong(e) => Then(done, r) == Wrong(e)
            case Pairs(ps, n) => Then(done, r) == Pairs(done + ps, n) && before + done + ps == before + (done + ps)
  {
  }

  lemma NothingBefore(r: Flat)
    ensures Then([], r) == r
  {
    if r.Pairs? { assert [] + r.pairs == r.pairs; }
  }

  /** The pairs of one item of a vector pattern. */
  function OneElement(b: Datum, index: nat, vec: string, rest: Option<string>, id: nat): Flat {
    if rest.Some? then
      var first := Gen("first__", id);
      Then([Pair(first, Call(FIRST, [Name(rest.value)])), Pair(rest.value, Call(NEXT, [Name(rest.value)]))],
           Destructuring.Destructure(b, Name(first), id + 1))
    else Destructuring.Destructure(b, Call(NTH, [Name(vec), Number(index), Nothing]), id)
  }

  lemma ElementsOne(items: seq<Datum>, i: nat, index: nat, vec: string, rest: Option<string>, id: nat)
    requires i < |items| && items[i] != AMP && items[i] != AS
    ensures Elements(items, i, index, false, vec, rest, id) ==
            match OneElement(items[i], index, vec, rest, id)
            case Wrong(e) => Wrong(e)
            case Pairs(ps, n) => Then(ps, Elements(items, i + 1, index + 1, false, vec, rest, n))
  {
    hide Gen, Destructuring.Destructure;
  }

  lemma ElementsRest(items: seq<Datum>, i: nat, index: nat, vec: string, rest: string, id: nat)
    requires i + 1 < |items| && items[i] == AMP
    ensures Elements(items, i, index, false, vec, Some(rest), id) ==
            match Destructuring.Destructure(items[i + 1], Name(rest), id)
            case Wrong(e) => Wrong(e)
            case Pairs(ps, n) => Then(ps, Elements(items, i + 2, index, true, vec, Some(rest), n))
  {
    hide Gen, Destructuring.Destructure;
  }

  /** Where the items of a vector pattern end. */
  lemma ElementsStop(items: seq<Datum>, i: nat, index: nat, seen: bool, vec: string, rest: Option<string>, id: nat)
    requires i <= |items|
    ensures i == |items| ==> Elements(items, i, index, seen, vec, rest, id) == Pairs([], id)
    ensures i < |items| && (items[i] == AMP || items[i] == AS) && i + 1 == |items| ==>
              Elements(items, i, index, seen, vec, rest, id) == Wrong(MissingAfter(items[i]))
    ensures i + 1 < |items| && items[i] == AMP && (seen || rest.None?) ==>
              Elements(items, i, index, seen, vec, rest, id) == Wrong(OnlyAsAfterRest)
    ensures i + 1 < |items| && items[i] == AS ==>
              Elements(items, i, index, seen, vec, rest, id) == Destructuring.Destructure(items[i + 1], Name(vec), id)
    ensures i < |items| && items[i] != AMP && items[i] != AS && seen ==>
              Elements(items, i, index, seen, vec, rest, id) == Wrong(OnlyAsAfterRest)
  {
    hide Gen, Destructuring.Destructure;
  }

  class Destructurer {
    var pairs: seq<Pair>
    var nextId: nat

    constructor (id: nat)
      ensures pairs == [] && nextId == id
    {
      pairs, nextId := [], id;
    }

    method Push(name: string, expr: Datum)
      modifies this
      ensures pairs == old(pairs) + [Pair(name, expr)] && nextId == old(nextId)
    {
      pairs := pairs + [Pair(name, expr)];
    }

    method Fresh(prefix: string) returns (name: string)
      modifies this
      ensures name == Gen(prefix, old(nextId)) && nextId == old(nextId) + 1 && pairs == old(pairs)
    {
      name := Gen(prefix, nextId);
      nextId := nextId + 1;
    }

    /** What `r` says was pushed, or what was wrong. */
    ghost predicate Did(r: Flat, before: seq<Pair>, e: Option<BindingError>)
      reads this
    {
      match r case Pairs(ps, n) => e == None && pairs == before + ps && nextId == n case Wrong(x) => e == Some(x)
    }

    method Destructure(p: Datum, value: Datum) returns (e: Option<BindingError>)
      modifies this
      ensures Did(Destructuring.Destructure(p, value, old(nextId)), old(pairs), e)
      decreases p, 1
    {
      match p {
        case Name(s) =>
          if IsKeyword(s) { return Some(Unsupported(p)); }
          Push(s, value);
          return None;
        case Vector(items) => e := DestructureVector(items, value);
        case Table(entries) => e := DestructureTable(entries, value);
        case _ => return Some(Unsupported(p));
      }
    }

    method DestructureVector(items: seq<Datum>, value: Datum) returns (e: Option<BindingError>)
      modifies this
      ensures Did(Destructuring.Destructure(Vector(items), value, old(nextId)), old(pairs), e)
      decreases items, |items| + 1
    {
      hide Gen, Elements;
      var hasRest := AMP in items;
      var vec := Fresh("vec__");
      Push(vec, value);
      var rest: Option<string> := None;
      if hasRest {
        var s := Fresh("seq__");
        rest := Some(s);
        Push(s, Call(SEQ, [Name(vec)]));
      }
      e := DestructureItems(items, vec, rest);
    }

    method DestructureItems(items: seq<Datum>, vec: string, rest: Option<string>) returns (e: Option<BindingError>)
      modifies this
      ensures Did(Elements(items, 0, 0, false, vec, rest, old(nextId)), old(pairs), e)
      decreases items, |items|
    {
      hide Gen, Destructuring.Destructure, OneElement, Elements, Then;
      ghost var all := Elements(items, 0, 0, false, vec, rest, nextId);
      ghost var before := pairs;
      ghost var done: seq<Pair> := [];
      NothingBefore(all);
      var seen, index, i := false, 0, 0;
      while i < |items|
        invariant 0 <= i <= |items| && index >= 0
        invariant pairs == before + done
        invariant all == Then(done, Elements(items, i, index, seen, vec, rest, nextId))
        decreases |items| - i
      {
        var b := items[i];
        ElementsStop(items, i, index, seen, vec, rest, nextId);
        ThenMore(before, done, Elements(items, i, index, seen, vec, rest, nextId));
        if b == AMP || b == AS {
          if i + 1 >= |items| { return Some(MissingAfter(b)); }
          if b == AMP {
            if seen || rest.None? { return Some(OnlyAsAfterRest); }
            ghost var d := Destructuring.Destructure(items[i + 1], Name(rest.value), nextId);
            ElementsRest(items, i, index, vec, rest.value, nextId);
            ThenMore(before, done, d);
            e := Destructure(items[i + 1], Name(rest.value));
            if e.Some? { return; }
            seen := true;
            ThenBoth(done, d.pairs, Elements(items, i + 2, index, true, vec, rest, nextId));
            done := done + d.pairs;
            i := i + 2;
            continue;
          }
          e := Destructure(items[i + 1], Name(vec));
          return;
        }
        if seen { return Some(OnlyAsAfterRest); }
        ghost var d := OneElement(b, index, vec, rest, nextId);
        ElementsOne(items, i, index, vec, rest, nextId);
        ThenMore(before, done, d);
        e := DestructureElement(b, index, vec, rest);
        if e.Some? { return; }
        ThenBoth(done, d.pairs, Elements(items, i + 1, index + 1, seen, vec, rest, nextId));
        done := done + d.pairs;
        index := index + 1;
        i := i + 1;
      }
      ElementsStop(items, i, index, seen, vec, rest, nextId);
      ThenMore(before, done, Pairs([], nextId));
      assert done + [] == done;
      e := None;
    }

    method DestructureElement(b: Datum, index: nat, vec: string, rest: Option<string>) returns (e: Option<BindingError>)
      modifies this
      ensures Did(OneElement(b, index, vec, rest, old(nextId)), old(pairs), e)
      decreases b, 2
    {
      if rest.None? {
        e := Destructure(b, Call(NTH, [Name(vec), Number(index), Nothing]));
        return;
      }
      var first := Fresh("first__");
      Push(first, Call(FIRST, [Name(rest.value)]));
      Push(rest.value, Call(NEXT, [Name(rest.value)]));
      ghost var before := pairs;
      e := Destructure(b, Name(first));
      assert e.None? ==> pairs == before + pairs[|before|..];
    }

    method DestructureTable(entries: seq<Entry>, value: Datum) returns (e: Option<BindingError>)
      modifies this
      ensures Did(Destructuring.Destructure(Table(entries), value, old(nextId)), old(pairs), e)
      decreases entries, |entries| + 1
    {
      hide Gen, Entries, Defaults;
      var m := Fresh("map__");
      Push(m, value);
      Push(m, Call(AS_TABLE, [Name(m)]));
      var defaults;
      e, defaults := CollectDefaults(entries);
      if e.Some? { return; }
      e := DestructureEntries(entries, m, defaults);
    }

    method DestructureEntries(entries: seq<Entry>, m: string, defaults: map<string, Datum>) returns (e: Option<BindingError>)
      modifies this
      ensures Did(Entries(entries, 0, m, defaults, old(nextId)), old(pairs), e)
      decreases entries, |entries|
    {
      hide Gen, EntryPairs;
      ghost var all := Entries(entries, 0, m, defaults, nextId);
      ghost var before := pairs;
      ghost var done: seq<Pair> := [];
      for j := 0 to |entries|
        invariant pairs == before + done
        invariant all == Then(done, Entries(entries, j, m, defaults, nextId))
      {
        ghost var d := EntryPairs(entries[j], m, defaults, nextId);
        e := DestructureEntry(entries[j], m, defaults);
        if e.Some? { return; }
        ThenBoth(done, d.pairs, Entries(entries, j + 1, m, defaults, nextId));
        ThenMore(before, done, d);
        done := done + d.pairs;
      }
      e := None;
    }

    method CollectDefaults(entries: seq<Entry>) returns (e: Option<BindingError>, defaults: map<string, Datum>)
      ensures match Defaults(entries, 0, map[]) case Found(d) => e == None && defaults == d case Err(x) => e == Some(x)
    {
      defaults := map[];
      for j := 0 to |entries|
        invariant Defaults(entries, 0, map[]) == Defaults(entries, j, defaults)
      {
        if entries[j].key != OR { continue; }
        if !entries[j].val.Table? { return Some(OrNotMap(entries[j].val)), defaults; }
        var ors := entries[j].val.entries;
        ghost var found := defaults;
        for t := 0 to |ors|
          invariant OrEntries(ors, 0, found) == OrEntries(ors, t, defaults)
        {
          if !ors[t].key.Name? { return Some(OrKeyNotSymbol(ors[t].key)), defaults; }
          defaults := defaults[ors[t].key.s := ors[t].val];
        }
      }
      e := None;
    }

    method DestructureEntry(en: Entry, m: string, defaults: map<string, Datum>) returns (e: Option<BindingError>)
      modifies this
      ensures Did(EntryPairs(en, m, defaults, old(nextId)), old(pairs), e)
      decreases en
    {
      var k, v := en.key, en.val;
      if k == OR { return None; }
      if k == AS {
        if !v.Name? || IsKeyword(v.s) { return Some(AsNotSymbol(v)); }
        Push(v.s, Name(m));
        return None;
      }
      if k.Name? && IsKeyword(k.s) {
        var kind := KindOf(k.s);
        if kind.NoKind? { return Some(UnsupportedKey(k)); }
        if !v.Vector? { return Some(KeysNotVector(k)); }
        e := BindKeys(v.items, kind, m, defaults);
        return;
      }
      if k.Name? {
        Push(k.s, GetForm(m, v, DefaultOf(defaults, k.s)));
        return None;
      }
      e := Destructure(k, GetForm(m, v, None));
    }

    method BindKeys(names: seq<Datum>, kind: Kind, m: string, defaults: map<string, Datum>) returns (e: Option<BindingError>)
      requires !kind.NoKind?
      modifies this
      ensures Did(KeyNames(names, 0, kind, m, defaults, old(nextId)), old(pairs), e)
    {
      ghost var all, before := KeyNames(names, 0, kind, m, defaults, nextId), pairs;
      ghost var done: seq<Pair> := [];
      for t := 0 to |names|
        invariant pairs == before + done && nextId == old(nextId)
        invariant all == Then(done, KeyNames(names, t, kind, m, defaults, nextId))
      {
        if !names[t].Name? { return Some(Unsupported(names[t])); }
        var spelled := Bare(names[t].s);
        var local := Local(spelled);
        var form := GetForm(m, KeyForm(kind, spelled), DefaultOf(defaults, local));
        Push(local, form);
        ThenBoth(done, [Pair(local, form)], KeyNames(names, t + 1, kind, m, defaults, nextId));
        done := done + [Pair(local, form)];
      }
      e := None;
    }
  }
}
