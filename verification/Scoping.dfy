/** How compiling a form changes the scopes: it only adds captures. */
module Scoping {
  import opened Bytecode
  import opened Codegen

  /** `x` is a local of some active scope. */
  predicate Bound(sc: Scopes, x: string) {
    sc.Inner? && (x in sc.top.names || Bound(sc.outer, x))
  }

  /** Two names never share a slot; captures come in slot order, each reading
      the slot its name has in the scope around. */
  ghost predicate WellFormed(sc: Scopes) {
    sc.Inner? ==>
      && WellFormed(sc.outer)
      && (forall x | x in sc.top.names :: sc.top.names[x] < sc.top.nextSlot)
      && (forall x, y | x in sc.top.names && y in sc.top.names && sc.top.names[x] == sc.top.names[y] :: x == y)
      && (forall i | 0 <= i < |sc.top.captures| :: CaptureOk(sc.top.captures[i], sc))
      && (forall i, j | 0 <= i < j < |sc.top.captures| :: sc.top.captures[i].localSlot < sc.top.captures[j].localSlot)
  }

  predicate CaptureOk(c: Capture, sc: Scopes)
    requires sc.Inner?
  {
    && c.localSlot < sc.top.nextSlot
    && sc.outer.Inner? && c.name in sc.outer.top.names && sc.outer.top.names[c.name] == c.parentSlot
  }

  /** `b` has the slots and captures of `a`, and possibly later ones. */
  ghost predicate Extends(a: Scope, b: Scope) {
    && a.nextSlot <= b.nextSlot
    && a.captures <= b.captures
    && (forall i | |a.captures| <= i < |b.captures| :: a.nextSlot <= b.captures[i].localSlot < b.nextSlot)
  }

  /** The names `b` adds to those of `a` are captures. */
  ghost predicate NamesGrow(a: Scope, b: Scope)
    requires |a.captures| <= |b.captures|
  {
    && (forall x | x in a.names :: x in b.names && b.names[x] == a.names[x])
    && (forall x | x in b.names && x !in a.names :: CapturedAfter(x, |a.captures|, b))
  }

  ghost predicate CapturedAfter(x: string, n: nat, b: Scope)
    requires x in b.names
  {
    exists i :: n <= i < |b.captures| && b.captures[i].name == x && b.captures[i].localSlot == b.names[x]
  }

  ghost predicate Grows(a: Scopes, b: Scopes) {
    if a.NoScope? then b.NoScope? else
    b.Inner? && Extends(a.top, b.top) && NamesGrow(a.top, b.top) && Grows(a.outer, b.outer)
  }

  lemma {:induction false} GrowsSelf(a: Scopes)
    ensures Grows(a, a)
  {
    if a.Inner? { GrowsSelf(a.outer); }
  }

  lemma ExtendsTrans(a: Scope, b: Scope, c: Scope)
    requires Extends(a, b) && Extends(b, c)
    ensures Extends(a, c)
  {
    forall i | |a.captures| <= i < |c.captures|
      ensures a.nextSlot <= c.captures[i].localSlot < c.nextSlot
    {
      if i < |b.captures| { assert c.captures[i] == b.captures[i]; }
    }
  }

  lemma {:induction false} GrowsTrans(a: Scopes, b: Scopes, c: Scopes)
    requires Grows(a, b) && Grows(b, c)
    ensures Grows(a, c)
  {
    if a.Inner? {
      GrowsTrans(a.outer, b.outer, c.outer);
      ExtendsTrans(a.top, b.top, c.top);
      forall x | x in c.top.names && x !in a.top.names
        ensures CapturedAfter(x, |a.top.captures|, c.top)
      {
        if x in b.top.names {
          var i :| |a.top.captures| <= i < |b.top.captures| && b.top.captures[i].name == x
                   && b.top.captures[i].localSlot == b.top.names[x];
          assert c.top.captures[i] == b.top.captures[i];
        }
      }
    }
  }

  lemma {:induction false} GrowsBound(a: Scopes, b: Scopes, x: string)
    requires Grows(a, b) && WellFormed(b)
    ensures Bound(a, x) <==> Bound(b, x)
  {
    if a.Inner? {
      GrowsBound(a.outer, b.outer, x);
      if x in b.top.names && x !in a.top.names {
        assert CapturedAfter(x, |a.top.captures|, b.top);
        var i :| |a.top.captures| <= i < |b.top.captures| && b.top.captures[i].name == x;
        assert CaptureOk(b.top.captures[i], b);
      }
    }
  }

  lemma {:induction false} ResolveBound(x: string, sc: Scopes)
    ensures Resolve(x, sc).Local? <==> Bound(sc, x)
  {
    if sc.Inner? { ResolveBound(x, sc.outer); }
  }

  lemma {:induction false} ResolveGrows(x: string, sc: Scopes)
    requires WellFormed(sc)
    ensures match Resolve(x, sc)
            case NotLocal => !Bound(sc, x)
            case Local(slot, sc1) =>
              && WellFormed(sc1) && Grows(sc, sc1)
              && x in sc1.top.names && sc1.top.names[x] == slot
  {
    ResolveBound(x, sc);
    if sc.Inner? {
      if x in sc.top.names {
        GrowsSelf(sc);
      } else {
        ResolveGrows(x, sc.outer);
        if Resolve(x, sc.outer).Local? {
          var sc1 := Resolve(x, sc).sc;
          assert sc1.top.captures[|sc.top.captures|].name == x;
          assert CapturedAfter(x, |sc.top.captures|, sc1.top);
          forall i | 0 <= i < |sc1.top.captures|
            ensures CaptureOk(sc1.top.captures[i], sc1)
          {
            if i < |sc.top.captures| { assert CaptureOk(sc.top.captures[i], sc); }
          }
          assert forall i | 0 <= i < |sc.top.captures| :: CaptureOk(sc.top.captures[i], sc);
        }
      }
    }
  }

  /** No name has `slot`. */
  ghost predicate Unnamed(slot: nat, top: Scope) {
    forall x | x in top.names :: top.names[x] != slot
  }

  /** `c1` is `c` with `x` naming a slot no name of `c` has: compiling in `c1`
      and giving `x` back its meaning is compiling in `c`. */
  lemma RestoreGrows(c: Scopes, c1: Scopes, x: string, d: Scopes)
    requires c.Inner? && c1.Inner? && c1.outer == c.outer
    requires x in c1.top.names && Unnamed(c1.top.names[x], c.top) && c1.top.names[x] < c1.top.nextSlot
    requires c1.top.names == c.top.names[x := c1.top.names[x]]
    requires c1.top.captures == c.top.captures && c.top.nextSlot <= c1.top.nextSlot
    requires WellFormed(c) && WellFormed(d) && Grows(c1, d)
    ensures WellFormed(Restore(d, x, c)) && Grows(c, Restore(d, x, c))
  {
    var r := Restore(d, x, c);
    forall y | y in r.top.names && y !in c.top.names
      ensures CapturedAfter(y, |c.top.captures|, r.top)
    {
      assert y != x && y in d.top.names && y !in c1.top.names;
      assert CapturedAfter(y, |c1.top.captures|, d.top);
    }
    forall y | y in c.top.names
      ensures y in r.top.names && r.top.names[y] == c.top.names[y]
    {
      if y != x { assert y in c1.top.names; }
    }
    forall y, z | y in r.top.names && z in r.top.names && r.top.names[y] == r.top.names[z]
      ensures y == z
    {
      RestoreInjective(c, c1, x, d, y, z);
    }
    forall i | 0 <= i < |r.top.captures| ensures CaptureOk(r.top.captures[i], r) {
      assert CaptureOk(d.top.captures[i], d);
    }
  }

  lemma RestoreInjective(c: Scopes, c1: Scopes, x: string, d: Scopes, y: string, z: string)
    requires c.Inner? && c1.Inner?
    requires x in c1.top.names && Unnamed(c1.top.names[x], c.top)
    requires c1.top.names == c.top.names[x := c1.top.names[x]] && c.top.nextSlot <= c1.top.nextSlot
    requires WellFormed(c) && WellFormed(d) && Grows(c1, d)
    requires var r := Restore(d, x, c).top.names; y in r && z in r && r[y] == r[z]
    ensures y == z
  {
    var r := Restore(d, x, c).top.names;
    if y != x && z != x {
      assert y in d.top.names && z in d.top.names;
    } else if y == x && z != x {
      RestoredApart(c, c1, x, d, z);
    } else if z == x && y != x {
      RestoredApart(c, c1, x, d, y);
    }
  }

  lemma RestoredApart(c: Scopes, c1: Scopes, x: string, d: Scopes, z: string)
    requires c.Inner? && c1.Inner?
    requires x in c1.top.names
    requires c1.top.names == c.top.names[x := c1.top.names[x]] && c.top.nextSlot <= c1.top.nextSlot
    requires WellFormed(c) && WellFormed(d) && Grows(c1, d)
    requires x in c.top.names && z != x && z in d.top.names
    ensures d.top.names[z] != c.top.names[x]
  {
    if z in c1.top.names {
      assert z in c.top.names && d.top.names[z] == c.top.names[z];
    } else {
      assert CapturedAfter(z, |c1.top.captures|, d.top);
    }
  }

  lemma BindGrows(c: Scopes, x: string, d: Scopes)
    requires c.Inner? && WellFormed(c) && WellFormed(d) && Grows(Bind(c, x), d)
    ensures WellFormed(Restore(d, x, c)) && Grows(c, Restore(d, x, c))
  {
    RestoreGrows(c, Bind(c, x), x, d);
  }

  lemma BindGrowsFrom(a: Scopes, c: Scopes, x: string, d: Scopes)
    requires Grows(a, c)
    requires c.Inner? && WellFormed(c) && WellFormed(d) && Grows(Bind(c, x), d)
    ensures WellFormed(Restore(d, x, c)) && Grows(a, Restore(d, x, c))
  {
    BindGrows(c, x, d);
    GrowsTrans(a, c, Restore(d, x, c));
  }

  lemma BindWellFormed(c: Scopes, x: string)
    requires c.Inner? && WellFormed(c)
    ensures WellFormed(Bind(c, x))
  {
    var b := Bind(c, x);
    forall i | 0 <= i < |b.top.captures| ensures CaptureOk(b.top.captures[i], b) {
      assert CaptureOk(c.top.captures[i], c);
    }
  }

  lemma ReserveGrows(c: Scopes)
    requires c.Inner? && WellFormed(c)
    ensures WellFormed(Reserve(c)) && Grows(c, Reserve(c)) && Unnamed(c.top.nextSlot, Reserve(c).top)
  {
    var b := Reserve(c);
    forall i | 0 <= i < |b.top.captures| ensures CaptureOk(b.top.captures[i], b) {
      assert CaptureOk(c.top.captures[i], c);
    }
    GrowsSelf(c.outer);
  }

  lemma ReserveGrowsFrom(a: Scopes, c: Scopes, d: Scopes)
    requires c.Inner? && WellFormed(c) && Grows(a, c) && Grows(Reserve(c), d)
    ensures Grows(a, d)
  {
    ReserveGrows(c);
    GrowsTrans(a, c, Reserve(c));
    GrowsTrans(a, Reserve(c), d);
  }

  lemma AliasWellFormed(c: Scopes, x: string, slot: nat)
    requires c.Inner? && WellFormed(c) && slot < c.top.nextSlot && Unnamed(slot, c.top)
    ensures WellFormed(Alias(c, x, slot))
  {
    var b := Alias(c, x, slot);
    forall i | 0 <= i < |b.top.captures| ensures CaptureOk(b.top.captures[i], b) {
      assert CaptureOk(c.top.captures[i], c);
    }
  }

  lemma {:induction false} ParamNamesFacts(params: seq<string>, n: nat)
    requires n <= |params|
    ensures forall x | x in ParamNames(params, n) :: ParamNames(params, n)[x] < n
    ensures forall x | x in ParamNames(params, n) :: params[ParamNames(params, n)[x]] == x
    ensures forall i | 0 <= i < n :: params[i] in ParamNames(params, n)
  {
    if n > 0 { ParamNamesFacts(params, n - 1); }
  }

  lemma ParamScopeWellFormed(params: seq<string>, outer: Scopes)
    requires WellFormed(outer)
    ensures WellFormed(Inner(ParamScope(params), outer))
  {
    ParamNamesFacts(params, |params|);
  }

  ghost predicate NotCapture(slot: nat, fin: Scope) {
    forall i | 0 <= i < |fin.captures| :: fin.captures[i].localSlot != slot
  }

  /** The slot `Bind` or `Reserve` takes is no capture's. */
  lemma FreshSlot(sc: Scopes, top1: Scope, fin: Scope)
    requires sc.Inner? && WellFormed(sc) && Extends(top1, fin)
    requires top1.captures == sc.top.captures && top1.nextSlot == sc.top.nextSlot + 1
    ensures sc.top.nextSlot < fin.nextSlot && NotCapture(sc.top.nextSlot, fin)
  {
    forall i | 0 <= i < |fin.captures| ensures fin.captures[i].localSlot != sc.top.nextSlot {
      if i < |sc.top.captures| {
        assert fin.captures[i] == sc.top.captures[i];
        assert CaptureOk(sc.top.captures[i], sc);
      }
    }
  }
}
