/** What locals clearing relies on: where each slot is dead. */
module Clearing {
  import opened Bytecode
  import opened Codegen
  import opened Layout
  import opened LayoutProof
  import opened LastReads

  /** Where `s` is first stored, or -1 for a parameter. */
  function Birth(code: seq<Instr>, arity: nat, s: nat): int {
    if s < arity then -1 else FirstStore(code, s, 0)
  }

  function FirstStore(code: seq<Instr>, s: nat, i: nat): nat
    decreases |code| - i
  {
    if i >= |code| || code[i] == StoreLocal(s) then i else FirstStore(code, s, i + 1)
  }

  lemma {:induction false} FirstStoreIs(code: seq<Instr>, s: nat, i: nat, st: nat)
    requires i <= st && Stores(code, st, s) && forall j | i <= j < st :: !Stores(code, j, s)
    ensures FirstStore(code, s, i) == st
    decreases |code| - i
  {
    if i < st {
      assert !Stores(code, i, s);
      FirstStoreIs(code, s, i + 1, st);
    }
  }

  function Whole(m: Module, n1: nat): Part
    requires |m.code| > 0
  {
    Part(0, |m.code| - 1, m.arity, if n1 >= m.arity then n1 else m.arity)
  }

  /** Between a recur's store of `s` and its jump: `s` holds its next value. */
  ghost predicate Fresh(m: Module, s: nat, i: nat) {
    |m.code| > 0 && exists a: nat, j: nat, q: nat :: Run(m.code, Whole(m, 0), a, j) && a <= q < i <= j && Stores(m.code, q, s)
  }

  /** The read at `p` is the only one of `s`. */
  ghost predicate ReadAt(m: Module, s: nat, p: nat) {
    Eligible(m.code, m.arity, m.captures, p) && m.code[p] == PushLocal(s)
  }

  /** At `i` the value of slot `s` will not be read: it is stored first. */
  ghost predicate Dead(m: Module, s: nat, i: nat) {
    exists p: nat :: ReadAt(m, s, p) && (i <= Birth(m.code, m.arity, s) || p < i) && !Fresh(m, s, i)
  }

  /** `m`'s code laid out, with the handlers active at each place. */
  ghost predicate LaidWith(m: Module, H: Active) {
    exists n1: nat, fin: Scope, named: set<nat>, Ex: Active :: LaidAs(m, n1, fin, named, H, Ex)
  }

  ghost predicate LaidAs(m: Module, n1: nat, fin: Scope, named: set<nat>, H: Active, Ex: Active) {
    && |m.code| > 0 && m.code[|m.code| - 1] == Return && fin.captures == m.captures
    && Fits(m.code, fin, Part(0, |m.code| - 1, m.arity, n1), NoTarget, SlotSet(Upto(m.arity)), named, Ends([], [], |m.code| - 1, []), H, Ex)
  }

  lemma LaidHas(m: Module)
    requires Laid(m)
    ensures exists H: Active :: LaidWith(m, H)
  {
    var n1: nat, fin: Scope, named: set<nat> :| LaidIn(m, n1, fin, named);
    var H: Active, Ex: Active :| Fits(m.code, fin, Part(0, |m.code| - 1, m.arity, n1), NoTarget, SlotSet(Upto(m.arity)), named,
                                      Ends([], [], |m.code| - 1, []), H, Ex);
    hide Fits;
    assert LaidAs(m, n1, fin, named, H, Ex);
    assert LaidWith(m, H);
  }

  ghost function HandlersOf(m: Module): Active
    requires Laid(m)
  {
    LaidHas(m);
    var H: Active :| LaidWith(m, H);
    H
  }

  /** The whole body as a part. */
  ghost predicate Body(m: Module, p: Part, fin: Scope, named: set<nat>, H: Active) {
    && |m.code| > 0 && m.code[|m.code| - 1] == Return && fin.captures == m.captures
    && p.lo == 0 && p.hi == |m.code| - 1 && p.n == m.arity
    && Tidy(m.code, fin, p, NoTarget, SlotSet(Upto(m.arity)), named, H, map[]) && H[0] == [] && H[p.hi] == []
  }

  lemma BodyOf(m: Module) returns (p: Part, fin: Scope, named: set<nat>)
    requires Laid(m)
    ensures Body(m, p, fin, named, HandlersOf(m))
  {
    var H := HandlersOf(m);
    LaidHas(m);
    assert LaidWith(m, H);
    var n1: nat, f: Scope, n: set<nat>, Ex: Active :| LaidAs(m, n1, f, n, H, Ex);
    p, fin, named := Part(0, |m.code| - 1, m.arity, n1), f, n;
    assert Ex == map[] by { NoExits(m.code, p, H, Ex); }
  }

  lemma NoExits(C: seq<Instr>, p: Part, H: Active, Ex: Active)
    requires Within(C, p) && Over(p, H) && Moves(C, p, H, Ex) && forall x: nat | x in Ex :: x == p.hi
    ensures Ex == map[]
  {
  }

  /** The life of `s`: it is read inside (st, he); control enters from `st`, or
      by a jump back that rebinds it, or within a loop that never stores it. */
  ghost predicate Life(m: Module, p: Part, s: nat, st: int, he: int)
    requires Within(m.code, p)
  {
    && (forall i | p.lo <= i < p.hi && m.code[i] == PushLocal(s) :: st < i < he)
    && (forall i: nat, t: nat | p.lo <= i < p.hi && i < st && Forward(m.code, i, t) :: t <= st || t >= he)
    && (forall j: nat | p.lo <= j < p.hi && m.code[j].JumpBack? ::
          Back(m.code, j) <= st || Back(m.code, j) >= he || Rebinds(m.code, p, j, s) || NoStore(m.code, Back(m.code, j), j, s))
    && (st >= 0 ==> Stores(m.code, st, s))
  }

  lemma LifeOf(m: Module, p: Part, fin: Scope, named: set<nat>, H: Active, s: nat, r: nat) returns (he: int)
    requires Body(m, p, fin, named, H) && ReadAt(m, s, r)
    ensures Within(m.code, p) && Life(m, p, s, Birth(m.code, m.arity, s), he)
  {
    if s < m.arity {
      he := |m.code|;
      hide Forward, Rebinds;
      forall j: nat | p.lo <= j < p.hi && m.code[j].JumpBack?
        ensures Rebinds(m.code, p, j, s) || NoStore(m.code, Back(m.code, j), j, s)
      { assert BackOk(m.code, p, NoTarget, H, j); }
    } else {
      var q: nat :| 0 <= q <= |m.code| - 1 && Stores(m.code, q, s);
      hide Forward, Rebinds, Eligible;
      var st: nat, h: nat :| Span(m.code, p, s, st, h);
      FirstStoreIs(m.code, s, 0, st);
      he := h;
    }
  }

  lemma FreshRun(m: Module, p: Part, fin: Scope, named: set<nat>, H: Active, s: nat, j: nat)
    requires Body(m, p, fin, named, H) && j < |m.code| && Rebinds(m.code, p, j, s)
    ensures Fresh(m, s, j)
  {
    hide Forward;
    var a: nat, q: nat :| Run(m.code, p, a, j) && a <= q < j && Stores(m.code, q, s);
    assert Run(m.code, Whole(m, 0), a, j);
  }

  /** Jumps do not land among a recur's stores; going on there stays there. */
  lemma FreshFrom(m: Module, s: nat, i: nat, t: nat)
    requires Fresh(m, s, t) && i < |m.code| - 1
    requires Forward(m.code, i, t) || (m.code[i].JumpBack? && Back(m.code, i) == t)
    ensures Stores(m.code, i, s) || Fresh(m, s, i)
  {
    var a: nat, j: nat, q: nat :| Run(m.code, Whole(m, 0), a, j) && a <= q < t <= j && Stores(m.code, q, s);
    assert Sealed(m.code, Whole(m, 0), a, j);
    hide Forward;
    if !m.code[i].JumpBack? { assert t == i + 1; }
  }

  lemma Goes(m: Module, p: Part, fin: Scope, named: set<nat>, H: Active, i: nat, t: nat)
    requires Body(m, p, fin, named, H) && i < p.hi && Forward(m.code, i, t)
    ensures i < t <= p.hi && i in H && t in H && H[t] == ActiveAt(m.code, i, t, H[i])
    ensures m.code[i].TryEnd? ==> |H[i]| > 0
  {
    hide Forward;
    assert MoveOk(m.code, p, H, map[], i, t);
  }

  lemma GoesBack(m: Module, p: Part, fin: Scope, named: set<nat>, H: Active, j: nat)
    requires Body(m, p, fin, named, H) && j < p.hi && m.code[j].JumpBack?
    ensures 0 <= Back(m.code, j) <= j && j in H && Back(m.code, j) in H && H[Back(m.code, j)] == H[j]
  {
    assert BackOk(m.code, p, NoTarget, H, j);
  }

  /** A slot that is dead stays so until it is stored. */
  lemma DeadGoes(m: Module, p: Part, fin: Scope, named: set<nat>, H: Active, s: nat, i: nat, t: nat)
    requires Body(m, p, fin, named, H) && i < p.hi && Dead(m, s, i) && !Stores(m.code, i, s)
    requires Forward(m.code, i, t)
    ensures Dead(m, s, t)
  {
    hide Forward, Eligible;
    var r: nat :| ReadAt(m, s, r) && (i <= Birth(m.code, m.arity, s) || r < i) && !Fresh(m, s, i);
    var he := LifeOf(m, p, fin, named, H, s, r);
    var st := Birth(m.code, m.arity, s);
    Goes(m, p, fin, named, H, i, t);
    if Fresh(m, s, t) { FreshFrom(m, s, i, t); }
    ReadInside(m, p, fin, named, H, s, r);
    assert t <= st || r < t;
  }

  lemma ReadInside(m: Module, p: Part, fin: Scope, named: set<nat>, H: Active, s: nat, r: nat)
    requires Body(m, p, fin, named, H) && ReadAt(m, s, r)
    ensures r < p.hi
  {
  }

  lemma DeadGoesBack(m: Module, p: Part, fin: Scope, named: set<nat>, H: Active, s: nat, j: nat)
    requires Body(m, p, fin, named, H) && j < p.hi && Dead(m, s, j) && m.code[j].JumpBack?
    ensures 0 <= Back(m.code, j) && Dead(m, s, Back(m.code, j))
  {
    hide Forward;
    var r: nat :| ReadAt(m, s, r) && (j <= Birth(m.code, m.arity, s) || r < j) && !Fresh(m, s, j);
    var he := LifeOf(m, p, fin, named, H, s, r);
    GoesBack(m, p, fin, named, H, j);
    ReadInside(m, p, fin, named, H, s, r);
    var t: nat := Back(m.code, j);
    if Fresh(m, s, t) { FreshFrom(m, s, j, t); }
    if Rebinds(m.code, p, j, s) { FreshRun(m, p, fin, named, H, s, j); }
    if r < j && t <= r { LoopStores(m, s, r, j); }
  }

  /** A loop around an eligible read stores its slot. */
  lemma LoopStores(m: Module, s: nat, r: nat, j: nat)
    requires ReadAt(m, s, r) && j < |m.code| && LoopOver(m.code, j, r)
    ensures !NoStore(m.code, Back(m.code, j), j, s)
  {
    assert StoredIn(m.code, Back(m.code, j), j, s);
  }

  /** The handler active at `i`, its code, and the handlers active there. */
  lemma HandlerAt(m: Module, p: Part, fin: Scope, named: set<nat>, H: Active, i: nat)
    requires Body(m, p, fin, named, H) && i <= p.hi && i in H && |H[i]| > 0
    ensures var b := H[i][|H[i]| - 1];
            && b < i && m.code[b].TryBegin? && i < b + 1 + m.code[b].off <= p.hi
            && b + 1 + m.code[b].off in H && H[b + 1 + m.code[b].off] == H[i][..|H[i]| - 1]
  {
    var b := H[i][|H[i]| - 1];
    assert GuardOk(m.code, p, H, i, |H[i]| - 1);
    Goes(m, p, fin, named, H, b, b + 1 + m.code[b].off);
  }

  /** Where an exception takes a frame, what is dead is still dead. */
  lemma DeadCaught(m: Module, p: Part, fin: Scope, named: set<nat>, H: Active, s: nat, i: nat, b: nat)
    requires Body(m, p, fin, named, H) && i <= p.hi && i in H && |H[i]| > 0 && b == H[i][|H[i]| - 1] && Dead(m, s, i)
    ensures b < i && m.code[b].TryBegin? && i < b + 1 + m.code[b].off && Dead(m, s, b + 1 + m.code[b].off)
  {
    hide Eligible;
    assert GuardOk(m.code, p, H, i, |H[i]| - 1);
    var t := b + 1 + m.code[b].off;
    assert Forward(m.code, b, t);
    NotFreshAfterJump(m, s, b, t);
    hide Forward;
    var r: nat :| ReadAt(m, s, r) && (i <= Birth(m.code, m.arity, s) || r < i) && !Fresh(m, s, i);
    var he := LifeOf(m, p, fin, named, H, s, r);
    ReadInside(m, p, fin, named, H, s, r);
  }

  lemma NotFreshAfterJump(m: Module, s: nat, b: nat, t: nat)
    requires b < |m.code| - 1 && Forward(m.code, b, t) && t > b + 1
    ensures !Fresh(m, s, t)
  {
    forall a: nat, j: nat | Run(m.code, Whole(m, 0), a, j) ensures !(a < t <= j) {
      assert Sealed(m.code, Whole(m, 0), a, j);
    }
  }

  /** A cleared slot is dead from there on. */
  lemma DeadOnce(m: Module, p: Part, fin: Scope, named: set<nat>, H: Active, s: nat, i: nat)
    requires Body(m, p, fin, named, H) && i < p.hi && ReadAt(m, s, i)
    ensures Dead(m, s, i + 1)
  {
    hide Eligible;
    forall a: nat, j: nat | Run(m.code, Whole(m, 0), a, j) ensures !(a <= i < j) {}
    assert i < i + 1;
  }

  /** A slot about to be read is not dead. */
  lemma ReadLive(m: Module, p: Part, fin: Scope, named: set<nat>, H: Active, s: nat, i: nat)
    requires Body(m, p, fin, named, H) && i < p.hi && m.code[i] == PushLocal(s)
    ensures !Dead(m, s, i)
  {
    hide Forward;
    if exists r: nat :: ReadAt(m, s, r) {
      var r: nat :| ReadAt(m, s, r);
      var he := LifeOf(m, p, fin, named, H, s, r);
      assert Birth(m.code, m.arity, s) < i;
    }
  }

  /** Only `PushLocal` reads a slot that can be dead. */
  lemma RethrowLive(m: Module, s: nat, i: nat, j: nat)
    requires j < |m.code| && m.code[j] == Rethrow(s)
    ensures !Dead(m, s, i)
  {
  }
}
