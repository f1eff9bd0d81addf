/** Lists built in the caller's context: what the builder returns, and that no
    element is lost on the way. */
module ListBuilding {
  import opened Options
  import opened Rooting
  import opened RootingProof
  import opened RootingSafety
  import opened RootingRuns
  import opened RootingReturn

  const MAX_PENDING: nat := 5

  /** The elements of the list in the `p`-th scope's first slot. */
  function Folded(s: State, p: nat): seq<Obj>
    requires SlotsAt(s, p) && |s.contents| == |s.scopes|
  {
    match Get(s, p, 0) case None => [] case Some(acc) => if acc in s.heap then s.heap[acc].elems else []
  }

  /** The `n` elements parked behind it. */
  function Parked(s: State, p: nat, n: nat): seq<Obj>
    requires SlotsAt(s, p) && |s.contents| == |s.scopes|
  {
    seq(n, i requires 0 <= i < n => match Get(s, p, 1 + i) case Some(v) => v case None => 0)
  }

  /** What has been pushed. */
  function Built(s: State, p: nat, pending: nat): seq<Obj>
    requires SlotsAt(s, p) && |s.contents| == |s.scopes|
  {
    Folded(s, p) + Parked(s, p, pending)
  }

  /** A builder's CallerSlots is the `p`-th scope; the list in its first slot
      is anchored outside it, or will be by `ret`. */
  ghost predicate Rooted(s: State, p: nat) {
    && Inv(s) && SlotsAt(s, p) && s.scopes[p].n == 1 + MAX_PENDING && Started(s, p)
    && (Get(s, p, 0).Some? ==> Anchored(s, p, Get(s, p, 0).value) || Submitted(s, p))
  }

  /** A builder with `pending` elements parked, behind which its slots are
      clear. */
  ghost predicate Building(s: State, p: nat, pending: nat) {
    && Rooted(s, p) && pending <= MAX_PENDING && (s.scopes[p].place.Untraced? ==> pending == 0)
    && (forall i | 1 <= i <= pending :: Get(s, p, i).Some?)
    && (forall i | pending < i <= MAX_PENDING :: Get(s, p, i) == None)
  }

  /** A value in a slot is kept. */
  lemma SlotKept(s: State, p: nat, i: nat)
    requires Inv(s) && SlotsAt(s, p) && i < s.scopes[p].n && Get(s, p, i).Some?
    ensures Kept(s, Get(s, p, i).value) && Get(s, p, i).value in s.heap
  {
    var v := Get(s, p, i).value;
    if s.scopes[p].place.Traced? {
      assert Some(v) in s.windows[WindowAt(s, p)].slots;
      assert Root(s, v);
      RootKept(s, v);
    } else {
      assert Some(v) in s.contents[p];
      AnchoredKept(s, p, v);
    }
    KeptInHeap(s, v);
  }

  lemma HeapStays(s: State, a: Action)
    requires |s.contents| == |s.scopes| > 0 && !a.Allocate? && !a.Collect?
    ensures Apply(s, a).heap == s.heap
  {
    hide Calls, NoLocals, Live;
  }

  /** A kept cell stays what it is. */
  lemma CellStays(s: State, a: Action, v: Obj)
    requires |s.contents| == |s.scopes| > 0 && Sound(s) && Enabled(s, a) && Kept(s, v)
    ensures v in s.heap && v in Apply(s, a).heap && Apply(s, a).heap[v] == s.heap[v]
  {
    KeptInHeap(s, v);
    hide Kept, Anchored, Live, NoLocals, Calls, Sound, Store, LeaveScope;
    if !a.Allocate? && !a.Collect? { HeapStays(s, a); }
  }

  lemma GetsStay(s: State, a: Action, p: nat)
    requires Inv(s) && SlotsAt(s, p) && s.scopes[p].n == 1 + MAX_PENDING && Started(s, p)
    requires Enabled(s, a) && p < |Apply(s, a).scopes| && !((a.Put? || a.Pin?) && a.p == p)
    ensures var t := Apply(s, a);
            && Inv(t) && SlotsAt(t, p) && t.scopes[p] == s.scopes[p] && Started(t, p)
            && (forall i | 0 <= i <= MAX_PENDING :: Get(t, p, i) == Get(s, p, i))
  {
    var t := Apply(s, a);
    StepInv(s, a);
    PrefixStays(s, a, p);
    StartedStays(s, a, p);
    hide Inv, Enabled, Apply, Started, Submitted, Reached, Kept, Anchored, Sound, Get;
    forall i | 0 <= i <= MAX_PENDING ensures Get(t, p, i) == Get(s, p, i) { SlotStays(s, a, p, i); }
  }

  /** A value anchored outside the builder stays so, or a submission is on
      record. */
  lemma AnchorStays(s: State, a: Action, p: nat, v: Obj)
    requires Inv(s) && SlotsAt(s, p) && Started(s, p) && Enabled(s, a) && p < |Apply(s, a).scopes|
    requires Anchored(s, p, v) || Submitted(s, p)
    ensures var t := Apply(s, a); Inv(t) && SlotsAt(t, p) && (Anchored(t, p, v) || Submitted(t, p))
  {
    StepInv(s, a);
    StartedStays(s, a, p);
    InvParts(s);
    hide Inv, Enabled, Apply, Started, Submitted, Reached, Anchored, Sound, Extends;
    if Anchored(s, p, v) && !Reached(s, a, p) {
      StepExtends(s, a, p);
      ExtendsAnchored(s, Apply(s, a), p, v);
    }
  }

  lemma FoldedStays(s: State, t: State, p: nat)
    requires SlotsAt(s, p) && |s.contents| == |s.scopes| && SlotsAt(t, p) && |t.contents| == |t.scopes|
    requires Get(t, p, 0) == Get(s, p, 0)
    requires Get(s, p, 0).Some? ==> var acc := Get(s, p, 0).value; acc in s.heap && acc in t.heap && t.heap[acc] == s.heap[acc]
    ensures Folded(t, p) == Folded(s, p)
  {
    hide Get;
  }

  lemma ParkedStays(s: State, t: State, p: nat, n: nat)
    requires SlotsAt(s, p) && |s.contents| == |s.scopes| && SlotsAt(t, p) && |t.contents| == |t.scopes|
    requires forall i | 1 <= i <= n :: Get(t, p, i) == Get(s, p, i)
    ensures Parked(t, p, n) == Parked(s, p, n)
  {
    hide Get;
  }

  lemma RootedStays(s: State, a: Action, p: nat)
    requires Rooted(s, p) && Enabled(s, a) && p < |Apply(s, a).scopes|
    requires !((a.Put? || a.Pin?) && a.p == p)
    ensures Rooted(Apply(s, a), p) && Folded(Apply(s, a), p) == Folded(s, p)
    ensures forall i | 0 <= i <= MAX_PENDING :: Get(Apply(s, a), p, i) == Get(s, p, i)
  {
    var t := Apply(s, a);
    GetsStay(s, a, p);
    InvParts(s);
    InvParts(t);
    hide Inv, Enabled, Apply, Started, Submitted, Kept, Anchored, Sound, Get, Folded;
    if Get(s, p, 0).Some? {
      var acc := Get(s, p, 0).value;
      SlotKept(s, p, 0);
      CellStays(s, a, acc);
      AnchorStays(s, a, p, acc);
    }
    FoldedStays(s, t, p);
  }

  /** Whatever else runs between two calls of a builder leaves its elements and
      their order alone. */
  lemma BuilderStays(s: State, a: Action, p: nat, pending: nat)
    requires Building(s, p, pending) && Enabled(s, a) && p < |Apply(s, a).scopes|
    requires !((a.Put? || a.Pin?) && a.p == p)
    ensures Building(Apply(s, a), p, pending) && Built(Apply(s, a), p, pending) == Built(s, p, pending)
  {
    RootedStays(s, a, p);
    GetsStay(s, a, p);
    hide Inv, Enabled, Apply, Started, Submitted, Kept, Anchored, Sound, Get, Folded, Parked, Rooted;
    RootedParts(s, p);
    RootedParts(Apply(s, a), p);
    ParkedStays(s, Apply(s, a), p, pending);
  }

  lemma RootedParts(s: State, p: nat)
    requires Rooted(s, p)
    ensures Inv(s) && SlotsAt(s, p) && |s.contents| == |s.scopes| && s.scopes[p].n == 1 + MAX_PENDING && Started(s, p)
  {
  }

  /** Every element pushed is kept, parked or folded. */
  lemma ElementsKept(s: State, p: nat, n: nat)
    requires Building(s, p, n)
    ensures forall e | e in Built(s, p, n) :: Kept(s, e) && e in s.heap
  {
    RootedParts(s, p);
    ParkedKept(s, p, n);
    forall e | e in Built(s, p, n) ensures Kept(s, e) && e in s.heap {
      if e in Folded(s, p) {
        SlotKept(s, p, 0);
        ElementKept(s, Get(s, p, 0).value, e);
      }
      KeptInHeap(s, e);
    }
    hide Inv, Kept, Started, Get;
  }

  lemma ElementKept(s: State, o: Obj, e: Obj)
    requires Inv(s) && Kept(s, o) && o in s.heap && e in s.heap[o].elems
    ensures Kept(s, e)
  {
    var r :| Root(s, r) && Holds(s, r, o);
    assert e in s.heap[o].holds;
    assert Holds(s, r, e);
    hide Shape;
  }

  // ---- the builder's own steps

  /** A slot of the builder is set. */
  lemma SlotSet(s: State, p: nat, i: nat, value: Option<Obj>)
    requires Inv(s) && SlotsAt(s, p) && s.scopes[p].n == 1 + MAX_PENDING && Started(s, p) && i <= MAX_PENDING
    requires Enabled(s, Put(p, i, value))
    ensures var t := Apply(s, Put(p, i, value));
            && Inv(t) && SlotsAt(t, p) && t.scopes == s.scopes && t.heap == s.heap && Started(t, p)
            && Get(t, p, i) == value && (forall j | 0 <= j <= MAX_PENDING && j != i :: Get(t, p, j) == Get(s, p, j))
  {
    var a := Put(p, i, value);
    StepInv(s, a);
    PrefixStays(s, a, p);
    StartedStays(s, a, p);
    SlotReads(s, p, i, value);
    hide Inv, Enabled, Started, Get;
    forall j | 0 <= j <= MAX_PENDING && j != i ensures Get(Apply(s, a), p, j) == Get(s, p, j) { SlotStays(s, a, p, j); }
  }

  lemma SlotReads(s: State, p: nat, i: nat, value: Option<Obj>)
    requires Inv(s) && SlotsAt(s, p) && i < s.scopes[p].n && Enabled(s, Put(p, i, value))
    ensures var t := Apply(s, Put(p, i, value)); |t.contents| == |t.scopes| && SlotsAt(t, p) && Get(t, p, i) == value
  {
    if s.scopes[p].place.Traced? { SlotsInside(s.scopes, s.windows, p); }
    hide Nests, Match, Sound, HiddenAnchored, Kept, Anchored;
  }

  /** A cell just allocated in the builder's context is anchored outside it. */
  lemma NewAnchored(s: State, p: nat, o: Obj, refs: set<Obj>, elems: seq<Obj>)
    requires Inv(s) && SlotsAt(s, p) && Enabled(s, Allocate(s.scopes[p].ctx, o, refs, elems))
    ensures var t := Apply(s, Allocate(s.scopes[p].ctx, o, refs, elems));
            t.scopes == s.scopes && t.contents == s.contents && o in t.heap && t.heap[o].elems == elems && Anchored(t, p, o) && Kept(t, o)
  {
    var t := Apply(s, Allocate(s.scopes[p].ctx, o, refs, elems));
    FitsAt(s.scopes, p);
    var q :| 0 <= q < |s.scopes[..p]| && s.scopes[..p][q] == Frame(s.scopes[p].ctx);
    assert RootedIn(t, q, o) && Holds(t, o, o);
    AnchoredKept(t, p, o);
  }

  /** The context of a CallerSlots has a young chain. */
  lemma ContextLives(s: State, p: nat)
    requires Inv(s) && SlotsAt(s, p)
    ensures s.scopes[p].ctx in s.young
  {
    FitsAt(s.scopes, p);
    var q :| 0 <= q < |s.scopes[..p]| && s.scopes[..p][q] == Frame(s.scopes[p].ctx);
    assert s.scopes[q] == Frame(s.scopes[p].ctx);
  }

  /** A list cell with one element more than `cur`'s. */
  lemma AppendEnabled(s: State, p: nat, o: Obj, cur: Obj, v: Obj)
    requires Inv(s) && SlotsAt(s, p) && o !in s.heap && Kept(s, cur) && Kept(s, v)
    ensures cur in s.heap && Enabled(s, Allocate(s.scopes[p].ctx, o, {cur, v}, s.heap[cur].elems + [v]))
  {
    ContextLives(s, p);
    KeptInHeap(s, cur);
    KeptInHeap(s, v);
    forall e | e in s.heap[cur].elems + [v] ensures exists r :: r in {cur, v} && Holds(s, r, e) {
      if e in s.heap[cur].elems { assert Holds(s, cur, e); } else { assert Holds(s, v, e); }
    }
    hide Shape, Kept;
  }

  lemma AllocateKeeps(s: State, a: Action)
    requires |s.contents| == |s.scopes| > 0 && a.Allocate? && Enabled(s, a)
    ensures |Apply(s, a).contents| == |Apply(s, a).scopes|
    ensures forall v | Kept(s, v) :: Kept(Apply(s, a), v)
  {
    var t := Apply(s, a);
    forall v | Kept(s, v) ensures Kept(t, v) {
      var r :| Root(s, r) && Holds(s, r, v);
      if InYoung(s, r) {
        var c :| c in s.young && r in s.young[c];
        assert c in t.young && r in t.young[c];
      }
      assert Root(t, r) && Holds(t, r, v);
    }
  }

  /** A builder that has just begun. */
  lemma Opened(s: State, c: nat)
    requires Inv(s) && Live(s.scopes, c)
    ensures Enabled(s, Acquire(c, 1 + MAX_PENDING))
    ensures var t := Apply(s, Acquire(c, 1 + MAX_PENDING));
            Building(t, |s.scopes|, 0) && Built(t, |s.scopes|, 0) == [] && t.scopes[|s.scopes|].ctx == c
  {
    var n, a := 1 + MAX_PENDING, Acquire(c, 1 + MAX_PENDING);
    var t, p := Apply(s, a), |s.scopes|;
    StepInv(s, a);
    AcquiredClear(s, c, n);
    AcquiredContext(s, c, n);
    hide Inv, Apply, Enabled, Live, Get, Started;
    BuiltNothingParked(t, p);
    FoldedNone(t, p);
  }

  lemma AcquiredContext(s: State, c: nat, n: nat)
    requires |s.contents| == |s.scopes| > 0
    ensures var t := Apply(s, Acquire(c, n)); |t.scopes| == |s.scopes| + 1 && t.scopes[|s.scopes|].Slots? && t.scopes[|s.scopes|].ctx == c
  {
  }

  lemma FoldedNone(s: State, p: nat)
    requires SlotsAt(s, p) && |s.contents| == |s.scopes| && Get(s, p, 0) == None
    ensures Folded(s, p) == []
  {
    hide Get;
  }

  lemma AcquiredClear(s: State, c: nat, n: nat)
    requires Shape(s) && Enabled(s, Acquire(c, n))
    ensures var t := Apply(s, Acquire(c, n));
            && |t.contents| == |t.scopes| && SlotsAt(t, |s.scopes|) && t.scopes[|s.scopes|].n == n && Started(t, |s.scopes|)
            && forall i | 0 <= i < n :: Get(t, |s.scopes|, i) == None
  {
    var t := Apply(s, Acquire(c, n));
    assert t.scopes[..|s.scopes|] == s.scopes;
    CurrentTally(s);
    if s.windows != [] { TopAgrees(s); }
    hide Nests;
  }

  /** The list built so far is put in the first slot. */
  lemma AccumulatorSet(s: State, p: nat, o: Obj)
    requires Rooted(s, p) && Anchored(s, p, o) && Kept(s, o)
    ensures o in s.heap && Enabled(s, Put(p, 0, Some(o)))
    ensures var t := Apply(s, Put(p, 0, Some(o)));
            && Rooted(t, p) && t.scopes == s.scopes && t.heap == s.heap && Folded(t, p) == s.heap[o].elems
            && forall i | 1 <= i <= MAX_PENDING :: Get(t, p, i) == Get(s, p, i)
  {
    InvParts(s);
    KeptInHeap(s, o);
    hide Inv, Shape, Sound, Started, Submitted, Kept, Anchored;
    SlotSet(s, p, 0, Some(o));
    AnchorStays(s, Put(p, 0, Some(o)), p, o);
  }

  /** What is in the first slot is kept. */
  lemma SetKept(s: State, p: nat, o: Obj)
    requires Rooted(s, p) && Enabled(s, Put(p, 0, Some(o)))
    ensures var t := Apply(s, Put(p, 0, Some(o))); |t.contents| == |t.scopes| && Kept(t, o)
  {
    StepInv(s, Put(p, 0, Some(o)));
    SlotReads(s, p, 0, Some(o));
    SlotKept(Apply(s, Put(p, 0, Some(o))), p, 0);
  }

  /** An element is parked, or its slot cleared. */
  lemma ParkSet(s: State, p: nat, i: nat, value: Option<Obj>)
    requires Rooted(s, p) && 1 <= i <= MAX_PENDING && (value.Some? ==> s.scopes[p].place.Traced? && Kept(s, value.value))
    ensures Enabled(s, Put(p, i, value))
    ensures var t := Apply(s, Put(p, i, value));
            && Rooted(t, p) && t.scopes == s.scopes && t.heap == s.heap && Folded(t, p) == Folded(s, p) && Get(t, p, i) == value
            && forall j | 0 <= j <= MAX_PENDING && j != i :: Get(t, p, j) == Get(s, p, j)
  {
    RootedParts(s, p);
    hide Inv, Started, Submitted, Kept, Anchored, Get;
    SlotSet(s, p, i, value);
    if Get(s, p, 0).Some? { AnchorStays(s, Put(p, i, value), p, Get(s, p, 0).value); }
  }

  lemma ParkedMore(s: State, t: State, p: nat, n: nat, v: Obj)
    requires SlotsAt(s, p) && |s.contents| == |s.scopes| && SlotsAt(t, p) && |t.contents| == |t.scopes|
    requires forall i | 1 <= i <= n :: Get(t, p, i) == Get(s, p, i)
    requires Get(t, p, 1 + n) == Some(v)
    ensures Parked(t, p, n + 1) == Parked(s, p, n) + [v]
  {
    hide Get;
  }

  /** An element more is parked. */
  lemma Parks(s: State, p: nat, n: nat, v: Obj)
    requires Building(s, p, n) && n < MAX_PENDING && s.scopes[p].place.Traced? && Kept(s, v)
    ensures Enabled(s, Put(p, 1 + n, Some(v)))
    ensures var t := Apply(s, Put(p, 1 + n, Some(v)));
            Building(t, p, n + 1) && t.scopes == s.scopes && Built(t, p, n + 1) == Built(s, p, n) + [v]
  {
    hide Rooted, Enabled, Apply, Get, Folded, Kept, Parked, Inv, Started;
    RootedParts(s, p);
    ParkSet(s, p, 1 + n, Some(v));
    var t := Apply(s, Put(p, 1 + n, Some(v)));
    RootedParts(t, p);
    assert Building(t, p, n + 1);
    ParkedMore(s, t, p, n, v);
  }

  /** The first slot holds all there is. */
  lemma Accumulated(s: State, p: nat, o: Obj)
    requires Building(s, p, 0) && Anchored(s, p, o) && Kept(s, o)
    ensures o in s.heap && Enabled(s, Put(p, 0, Some(o)))
    ensures var t := Apply(s, Put(p, 0, Some(o)));
            && Building(t, p, 0) && t.scopes == s.scopes && t.heap == s.heap
            && Built(t, p, 0) == s.heap[o].elems && Get(t, p, 0) == Some(o)
  {
    AccumulatorSet(s, p, o);
    RootedParts(s, p);
    SlotSet(s, p, 0, Some(o));
    hide Inv, Enabled, Apply, Get, Folded, Kept, Started, Submitted, Anchored;
  }

  lemma BuiltNothingParked(s: State, p: nat)
    requires SlotsAt(s, p) && |s.contents| == |s.scopes|
    ensures Built(s, p, 0) == Folded(s, p)
  {
    hide Folded, Get;
  }

  lemma SafepointBuilds(s: State, p: nat, n: nat)
    requires Building(s, p, n)
    ensures Enabled(s, Safepoint(p)) && Apply(s, Safepoint(p)).scopes == s.scopes
    ensures var t := Apply(s, Safepoint(p)); Building(t, p, n) && Built(t, p, n) == Built(s, p, n)
  {
    RootedParts(s, p);
    hide Building, Built, Rooted, Inv, Started;
    BuilderStays(s, Safepoint(p), p, n);
  }

  /** The list in the first slot handed out by `ret`: it outlives the builder. */
  lemma Hands(s: State, p: nat, o: Obj)
    requires Building(s, p, 0) && Get(s, p, 0) == Some(o)
    ensures Enabled(s, Ret(p, o))
    ensures var t := Apply(s, Ret(p, o));
            && Building(t, p, 0) && t.scopes == s.scopes && Built(t, p, 0) == Built(s, p, 0)
            && o in t.heap && t.heap[o].elems == Built(t, p, 0) && Anchored(t, p, o)
  {
    RootedParts(s, p);
    SlotKept(s, p, 0);
    assert Anchored(s, p, o) || Submitted(s, p);
    hide Inv, Started, Kept, Submitted, Anchored, Folded;
    BuilderStays(s, Ret(p, o), p, 0);
    ReturnAnchors(s, p, o);
    RetKeepsHeap(s, p, o);
    BuiltNothingParked(s, p);
    FoldedIs(s, p, o);
  }

  lemma RetKeepsHeap(s: State, p: nat, o: Obj)
    requires |s.contents| == |s.scopes| > 0
    ensures Apply(s, Ret(p, o)).heap == s.heap
  {
  }

  lemma FoldedIs(s: State, p: nat, o: Obj)
    requires SlotsAt(s, p) && |s.contents| == |s.scopes| && Get(s, p, 0) == Some(o) && o in s.heap
    ensures Folded(s, p) == s.heap[o].elems
  {
    hide Get;
  }

  /** A cell allocated from cells the builder keeps. */
  lemma AllocatesFrom(s: State, p: nat, o: Obj, refs: set<Obj>, elems: seq<Obj>)
    requires Inv(s) && SlotsAt(s, p) && o !in s.heap && (forall r | r in refs :: Kept(s, r))
    requires (forall e | e in elems :: e in refs) || exists r :: r in refs && r in s.heap && s.heap[r].elems == elems
    ensures Enabled(s, Allocate(s.scopes[p].ctx, o, refs, elems))
  {
    ContextLives(s, p);
    forall e | e in elems ensures exists r :: r in refs && Holds(s, r, e) {
      if e in refs { KeptInHeap(s, e); assert Holds(s, e, e); }
      else {
        var r :| r in refs && r in s.heap && s.heap[r].elems == elems;
        assert Holds(s, r, e);
      }
    }
    hide Shape, Kept;
  }

  /** Clearing a slot loses nothing that is anchored. */
  lemma PutAnchored(s: State, p: nat, i: nat, value: Option<Obj>, v: Obj)
    requires Inv(s) && SlotsAt(s, p) && Enabled(s, Put(p, i, value)) && Anchored(s, p, v)
    ensures var t := Apply(s, Put(p, i, value)); |t.contents| == |t.scopes| && p <= |t.scopes| && Anchored(t, p, v) && Kept(t, v) && t.heap == s.heap
  {
    var a := Put(p, i, value);
    InvParts(s);
    HeapStays(s, a);
    hide Inv, Shape, Sound, Anchored, Kept, Extends, Enabled, Apply;
    StepExtends(s, a, p);
    ExtendsAnchored(s, Apply(s, a), p, v);
    AnchoredKept(Apply(s, a), p, v);
  }

  lemma ParkedKept(s: State, p: nat, n: nat)
    requires Building(s, p, n)
    ensures forall e | e in Parked(s, p, n) :: Kept(s, e)
  {
    RootedParts(s, p);
    hide Rooted, Inv, Kept, Started, Get;
    forall e | e in Parked(s, p, n) ensures Kept(s, e) {
      var i :| 0 <= i < n && Parked(s, p, n)[i] == e;
      SlotKept(s, p, 1 + i);
    }
  }

  /** The program this runs in, and the allocator. */
  class Thread {
    var s: State

    constructor (c: nat)
      ensures s == Initial(c) && Inv(s)
    {
      s := Initial(c);
      InitialInv(c);
    }

    method Do(a: Action)
      requires Inv(s) && Enabled(s, a)
      modifies this
      ensures s == Apply(old(s), a) && Inv(s)
    {
      StepInv(s, a);
      s := Apply(s, a);
    }

    /** An address not in use. */
    method Free() returns (o: Obj)
      ensures o !in s.heap
    {
      o := 0;
      var left := s.heap.Keys;
      while left != {}
        invariant forall k | k in s.heap :: k in left || k < o
        decreases left
      {
        var k :| k in left;
        if k >= o { o := k + 1; }
        left := left - {k};
      }
    }

    method New(c: nat, refs: set<Obj>, elems: seq<Obj>) returns (o: Obj)
      requires Inv(s) && c in s.young && (forall r | r in refs :: Kept(s, r))
      requires forall e | e in elems :: exists r :: r in refs && Holds(s, r, e)
      modifies this
      ensures o !in old(s.heap) && Enabled(old(s), Allocate(c, o, refs, elems))
      ensures s == Apply(old(s), Allocate(c, o, refs, elems)) && Inv(s)
    {
      o := Free();
      Do(Allocate(c, o, refs, elems));
    }
  }

  /** A list under construction. */
  class ListBuilder {
    const thread: Thread
    const p: nat
    var pending: nat
    var size: nat

    /** So between calls; while one runs it may be full. */
    ghost predicate Valid()
      reads this, thread
    {
      Sized() && pending < MAX_PENDING
    }

    ghost predicate Sized()
      reads this, thread
    {
      Building(thread.s, p, pending) && size == |Built(thread.s, p, pending)|
    }

    /** What has been pushed, in order. */
    ghost function Contents(): seq<Obj>
      requires Sized()
      reads this, thread
    {
      Built(thread.s, p, pending)
    }

    constructor (th: Thread, c: nat)
      requires Inv(th.s) && Live(th.s.scopes, c)
      modifies th
      ensures Valid() && Contents() == [] && size == 0
      ensures thread == th && p == old(|th.s.scopes|) && th.s == Apply(old(th.s), Acquire(c, 6))
    {
      hide Inv, Building, Built;
      thread, p := th, |th.s.scopes|;
      pending, size := 0, 0;
      new;
      Opened(th.s, c);
      th.Do(Acquire(c, 1 + MAX_PENDING));
    }

    /** The accumulator, or an empty list. */
    method Accumulator() returns (acc: Obj)
      requires Rooted(thread.s, p)
      modifies thread
      ensures Rooted(thread.s, p) && thread.s.scopes == old(thread.s.scopes)
      ensures forall v | Kept(old(thread.s), v) :: Kept(thread.s, v)
      ensures Kept(thread.s, acc) && acc in thread.s.heap && thread.s.heap[acc].elems == Folded(thread.s, p)
      ensures Folded(thread.s, p) == old(Folded(thread.s, p))
      ensures forall i | 0 <= i <= MAX_PENDING :: Get(thread.s, p, i) == old(Get(thread.s, p, i))
    {
      hide Inv, Started, Submitted, Kept, Anchored, Get, Enabled, Apply;
      RootedParts(thread.s, p);
      ghost var s0 := thread.s;
      match Get(thread.s, p, 0) {
        case Some(a) =>
          SlotKept(thread.s, p, 0);
          acc := a;
        case None =>
          ContextLives(thread.s, p);
          acc := thread.New(thread.s.scopes[p].ctx, {}, []);
          AllocateKeeps(s0, Allocate(s0.scopes[p].ctx, acc, {}, []));
          NewAnchored(s0, p, acc, {}, []);
          RootedStays(s0, Allocate(s0.scopes[p].ctx, acc, {}, []), p);
      }
    }

    /** `cur` with one element more. */
    method AppendLast(cur: Obj, v: Obj) returns (o: Obj)
      requires Rooted(thread.s, p) && Kept(thread.s, cur) && Kept(thread.s, v)
      modifies thread
      ensures Rooted(thread.s, p) && thread.s.scopes == old(thread.s.scopes)
      ensures forall v | Kept(old(thread.s), v) :: Kept(thread.s, v)
      ensures Kept(thread.s, o) && Anchored(thread.s, p, o)
      ensures cur in old(thread.s).heap && o in thread.s.heap && thread.s.heap[o].elems == old(thread.s).heap[cur].elems + [v]
      ensures Folded(thread.s, p) == old(Folded(thread.s, p))
      ensures forall i | 0 <= i <= MAX_PENDING :: Get(thread.s, p, i) == old(Get(thread.s, p, i))
    {
      hide Inv, Started, Submitted, Kept, Anchored, Get, Apply, Enabled;
      RootedParts(thread.s, p);
      ghost var s0 := thread.s;
      o := thread.Free();
      AppendEnabled(s0, p, o, cur, v);
      var a := Allocate(thread.s.scopes[p].ctx, o, {cur, v}, thread.s.heap[cur].elems + [v]);
      thread.Do(a);
      AllocateKeeps(s0, a);
      NewAnchored(s0, p, o, {cur, v}, s0.heap[cur].elems + [v]);
      RootedStays(s0, a, p);
    }
  
    /** Folds what is parked into the accumulator. */
    method Flush()
      requires Sized()
      modifies this, thread
      ensures Valid() && Contents() == old(Contents()) && size == old(size) && pending == 0
      ensures thread.s.scopes == old(thread.s.scopes)
    {
      hide Inv, Started, Submitted, Kept, Anchored, Get, Apply, Enabled, Folded, Rooted;
      RootedParts(thread.s, p);
      if pending == 0 { return; }
      ghost var s0 := thread.s;
      ghost var parked := Parked(s0, p, pending);
      assert |parked| == pending;
      var cur := Accumulator();
      RootedParts(thread.s, p);
      for i := 0 to pending
        invariant pending == old(pending) && size == old(size)
        invariant Rooted(thread.s, p) && SlotsAt(thread.s, p) && |thread.s.contents| == |thread.s.scopes|
        invariant thread.s.scopes == s0.scopes
        invariant forall j | 1 <= j <= MAX_PENDING :: Get(thread.s, p, j) == Get(s0, p, j)
        invariant Kept(thread.s, cur) && cur in thread.s.heap
        invariant thread.s.heap[cur].elems == Folded(s0, p) + parked[..i]
        invariant Folded(thread.s, p) == Folded(s0, p) + parked[..i]
      {
        RootedParts(thread.s, p);
        SlotKept(thread.s, p, 1 + i);
        var v := Get(thread.s, p, 1 + i).value;
        cur := AppendLast(cur, v);
        RootedParts(thread.s, p);
        AccumulatorSet(thread.s, p, cur);
        SetKept(thread.s, p, cur);
        thread.Do(Put(p, 0, Some(cur)));
        RootedParts(thread.s, p);
        assert parked[..i + 1] == parked[..i] + [v];
      }
      assert parked[..pending] == parked;
      for i := 0 to pending
        invariant pending == old(pending) && size == old(size)
        invariant Rooted(thread.s, p) && SlotsAt(thread.s, p) && |thread.s.contents| == |thread.s.scopes|
        invariant thread.s.scopes == s0.scopes
        invariant forall j | 1 <= j <= i || pending < j <= MAX_PENDING :: Get(thread.s, p, j) == None
        invariant Folded(thread.s, p) == Folded(s0, p) + parked
      {
        RootedParts(thread.s, p);
        ParkSet(thread.s, p, 1 + i, None);
        thread.Do(Put(p, 1 + i, None));
        RootedParts(thread.s, p);
      }
      pending := 0;
    }
  
    /** Appends an element the caller keeps. */
    method PushBack(v: Obj)
      requires Valid() && Kept(thread.s, v)
      modifies this, thread
      ensures Valid() && Contents() == old(Contents()) + [v] && size == old(size) + 1
      ensures thread.s.scopes == old(thread.s.scopes)
    {
      hide Inv, Started, Submitted, Kept, Anchored, Get, Apply, Enabled, Folded, Rooted, Parked;
      RootedParts(thread.s, p);
      BuiltNothingParked(thread.s, p);
      size := size + 1;
      if thread.s.scopes[p].place.Untraced? {
        ghost var s0 := thread.s;
        var cur := Accumulator();
        RootedParts(thread.s, p);
        cur := AppendLast(cur, v);
        RootedParts(thread.s, p);
        BuiltNothingParked(thread.s, p);
        Accumulated(thread.s, p, cur);
        thread.Do(Put(p, 0, Some(cur)));
        return;
      }
      Parks(thread.s, p, pending, v);
      thread.Do(Put(p, 1 + pending, Some(v)));
      pending := pending + 1;
      if pending == MAX_PENDING {
        Flush();
        RootedParts(thread.s, p);
        SafepointBuilds(thread.s, p, 0);
        thread.Do(Safepoint(p));
      }
    }

    /** The list of what was pushed. It is anchored outside the builder, whose
        end does not lose it; more may be pushed. */
    method Finish() returns (r: Obj)
      requires Valid()
      modifies this, thread
      ensures Valid() && Contents() == old(Contents()) && size == old(size)
      ensures r in thread.s.heap && thread.s.heap[r].elems == Contents() && Anchored(thread.s, p, r)
      ensures thread.s.scopes == old(thread.s.scopes)
    {
      hide Inv, Started, Submitted, Kept, Anchored, Get, Apply, Enabled, Folded, Rooted, Parked;
      Flush();
      RootedParts(thread.s, p);
      BuiltNothingParked(thread.s, p);
      var first := Get(thread.s, p, 0);
      if first == None {
        r := AddFirst();
      } else {
        r := first.value;
      }
      RootedParts(thread.s, p);
      Hands(thread.s, p, r);
      thread.Do(Ret(p, r));
    }

    /** An empty list in the first slot. */
    method AddFirst() returns (r: Obj)
      requires Valid() && pending == 0 && SlotsAt(thread.s, p) && |thread.s.contents| == |thread.s.scopes| && Get(thread.s, p, 0) == None
      modifies thread
      ensures Valid() && Contents() == old(Contents()) && thread.s.scopes == old(thread.s.scopes)
      ensures SlotsAt(thread.s, p) && |thread.s.contents| == |thread.s.scopes| && Get(thread.s, p, 0) == Some(r)
    {
      hide Inv, Started, Submitted, Kept, Anchored, Get, Apply, Enabled, Parked, Rooted;
      RootedParts(thread.s, p);
      ContextLives(thread.s, p);
      ghost var s0 := thread.s;
      r := thread.New(thread.s.scopes[p].ctx, {}, []);
      NewAnchored(s0, p, r, {}, []);
      BuilderStays(s0, Allocate(s0.scopes[p].ctx, r, {}, []), p, 0);
      RootedParts(thread.s, p);
      BuiltNothingParked(s0, p);
      Accumulated(thread.s, p, r);
      thread.Do(Put(p, 0, Some(r)));
      RootedParts(thread.s, p);
    }
  
    /** A list made of what is parked when nothing was folded, of the folded
        list otherwise. */
    method Gather() returns (r: Obj)
      requires Valid()
      modifies this, thread
      ensures Sized() && pending < MAX_PENDING && Contents() == old(Contents()) && size == old(size)
      ensures pending > 0 ==> Folded(thread.s, p) == []
      ensures r in thread.s.heap && thread.s.heap[r].elems == Contents() && Anchored(thread.s, p, r) && Kept(thread.s, r)
      ensures thread.s.scopes == old(thread.s.scopes)
    {
      hide Inv, Started, Submitted, Kept, Anchored, Get, Apply, Enabled, Folded, Rooted;
      RootedParts(thread.s, p);
      var elems: seq<Obj> := [];
      var refs: set<Obj> := {};
      if thread.s.scopes[p].place.Traced? && size == pending {
        elems := Parked(thread.s, p, pending);
        refs := set e | e in elems;
        ParkedKept(thread.s, p, pending);
        assert Built(thread.s, p, pending) == elems;
      } else {
        Flush();
        var acc := Accumulator();
        RootedParts(thread.s, p);
        BuiltNothingParked(thread.s, p);
        elems, refs := thread.s.heap[acc].elems, {acc};
      }
      ghost var s0 := thread.s;
      r := thread.Free();
      AllocatesFrom(s0, p, r, refs, elems);
      var a := Allocate(thread.s.scopes[p].ctx, r, refs, elems);
      thread.Do(a);
      NewAnchored(s0, p, r, refs, elems);
      BuilderStays(s0, a, p, pending);
      RootedParts(thread.s, p);
      RootedStays(s0, a, p);
    }

    /** The elements as a Clojure list; no more may be pushed. */
    method FinishSeq() returns (r: Obj)
      requires Valid()
      modifies this, thread
      ensures Valid() && Contents() == old(Contents()) && size == old(size)
      ensures r in thread.s.heap && thread.s.heap[r].elems == old(Contents()) && Anchored(thread.s, p, r)
      ensures thread.s.scopes == old(thread.s.scopes)
    {
      hide Inv, Started, Submitted, Kept, Anchored, Get, Apply, Enabled, Folded, Rooted, Parked;
      r := Gather();
      RootedParts(thread.s, p);
      var parked := pending;
      for i := 0 to parked
        invariant pending == parked && size == old(size)
        invariant Rooted(thread.s, p) && SlotsAt(thread.s, p) && |thread.s.contents| == |thread.s.scopes|
        invariant thread.s.scopes == old(thread.s.scopes)
        invariant forall j | 1 <= j <= i || parked < j <= MAX_PENDING :: Get(thread.s, p, j) == None
        invariant r in thread.s.heap && thread.s.heap[r].elems == old(Contents()) && Anchored(thread.s, p, r) && Kept(thread.s, r)
      {
        RootedParts(thread.s, p);
        ParkSet(thread.s, p, 1 + i, None);
        PutAnchored(thread.s, p, 1 + i, None, r);
        thread.Do(Put(p, 1 + i, None));
        RootedParts(thread.s, p);
      }
      pending := 0;
      RootedParts(thread.s, p);
      Accumulated(thread.s, p, r);
      thread.Do(Put(p, 0, Some(r)));
      RootedParts(thread.s, p);
      Hands(thread.s, p, r);
      thread.Do(Ret(p, r));
    }
  }
}
