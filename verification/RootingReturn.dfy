/** A CallerSlots while it lives: its slots change only when they are set, and
    what `ret` returns outlives it. */
module RootingReturn {
  import opened Options
  import opened Rooting
  import opened RootingProof
  import opened RootingSafety
  import opened RootingRuns

  /** The `i`-th slot. */
  function Get(s: State, p: nat, i: nat): Option<Obj>
    requires SlotsAt(s, p) && |s.contents| == |s.scopes|
  {
    match s.scopes[p].place
    case Traced(first) =>
      var k := WindowAt(s, p);
      if 0 <= k < |s.windows| && first + i < |s.windows[k].slots| then s.windows[k].slots[first + i] else None
    case Untraced => if i < |s.contents[p]| then s.contents[p][i] else None
  }

  lemma {:induction false} CallsUpdate(ss: seq<Scope>, q: nat, x: Scope)
    requires q < |ss| && !ss[q].PrimitiveCall? && !x.PrimitiveCall?
    ensures Calls(ss[q := x]) == Calls(ss)
    decreases |ss|
  {
    if q < |ss| - 1 {
      assert ss[q := x][..|ss| - 1] == ss[..|ss| - 1][q := x];
      CallsUpdate(ss[..|ss| - 1], q, x);
    } else {
      assert ss[q := x][..|ss| - 1] == ss[..|ss| - 1];
    }
  }

  lemma HoldStays(s: State, a: Action, p: nat)
    requires |s.contents| == |s.scopes| > 0 && Enabled(s, a) && p < |s.scopes| && !s.scopes[p].Block? && (a.Hold? || a.Release?)
    ensures p < |Apply(s, a).scopes| && Apply(s, a).scopes[p] == s.scopes[p] && WindowAt(Apply(s, a), p) == WindowAt(s, p)
  {
    var t := Apply(s, a);
    hide Calls;
    var x := s.scopes[a.p];
    if t.scopes != s.scopes && a.p < p {
      assert t.scopes[..p] == s.scopes[..p][a.p := x.(held := a.Hold?)];
      CallsUpdate(s.scopes[..p], a.p, x.(held := a.Hold?));
    } else {
      assert t.scopes[..p] == s.scopes[..p];
    }
  }

  /** What a step leaves of the scopes outside the one that ends. */
  lemma PrefixStays(s: State, a: Action, p: nat)
    requires |s.contents| == |s.scopes| > 0 && Enabled(s, a) && p < |s.scopes| && p < |Apply(s, a).scopes| && !s.scopes[p].Block?
    ensures Apply(s, a).scopes[p] == s.scopes[p] && WindowAt(Apply(s, a), p) == WindowAt(s, p)
  {
    hide Kept, Anchored, Calls, Live, NoLocals;
    if a.Hold? || a.Release? {
      HoldStays(s, a, p);
    } else {
      hide Enabled;
      if a.Leave? || a.LeaveFrame? { ScopesLeft(s, a); } else { ScopesGrow(s, a); }
      hide Apply;
      assert Apply(s, a).scopes[..p] == s.scopes[..p];
    }
  }

  lemma ScopesLeft(s: State, a: Action)
    requires |s.contents| == |s.scopes| > 0 && (a.Leave? || a.LeaveFrame?)
    ensures Apply(s, a).scopes <= s.scopes
  {
  }

  lemma ScopesGrow(s: State, a: Action)
    requires |s.contents| == |s.scopes| > 0 && !a.Hold? && !a.Release? && !a.Leave? && !a.LeaveFrame?
    ensures s.scopes <= Apply(s, a).scopes
  {
  }

  lemma WindowOfSlots(s: State, p: nat)
    requires Shape(s) && SlotsAt(s, p) && s.scopes[p].counted
    ensures 0 <= WindowAt(s, p) < |s.windows|
  {
    FitsAt(s.scopes, p);
    CallsSplit(s.scopes, p);
  }

  /** A slot changes only when it is set: whatever else runs, in this scope and
      in those that begin and end inside it, leaves it alone. */
  lemma SlotStays(s: State, a: Action, p: nat, i: nat)
    requires Inv(s) && Enabled(s, a) && SlotsAt(s, p) && i < s.scopes[p].n && p < |Apply(s, a).scopes|
    requires !((a.Put? || a.Pin?) && a.p == p && a.i == i)
    ensures SlotsAt(Apply(s, a), p) && |Apply(s, a).contents| == |Apply(s, a).scopes|
    ensures Get(Apply(s, a), p, i) == Get(s, p, i)
  {
    StepShape(s, a);
    PrefixStays(s, a, p);
    if s.scopes[p].place.Traced? {
      SlotsInside(s.scopes, s.windows, p);
      TracedStays(s, a, p, i);
    } else {
      UntracedStays(s, a, p, i);
    }
  }

  lemma UntracedStays(s: State, a: Action, p: nat, i: nat)
    requires |s.contents| == |s.scopes| > 0 && Enabled(s, a) && SlotsAt(s, p) && p < |Apply(s, a).scopes| && p < |Apply(s, a).contents|
    requires s.scopes[p].place.Untraced? && i < |s.contents[p]|
    requires !((a.Put? || a.Pin?) && a.p == p && a.i == i)
    ensures |Apply(s, a).contents[p]| == |s.contents[p]| && Apply(s, a).contents[p][i] == s.contents[p][i]
  {
    hide Kept, Anchored, Calls, Live, NoLocals;
  }

  /** What a step does to the slots of the windows. */
  lemma TracedStays(s: State, a: Action, p: nat, i: nat)
    requires Inv(s) && Enabled(s, a) && SlotsAt(s, p) && i < s.scopes[p].n && p < |Apply(s, a).scopes|
    requires s.scopes[p].place.Traced?
    requires !((a.Put? || a.Pin?) && a.p == p && a.i == i)
    requires var k := WindowAt(s, p); 0 <= k < |s.windows| && s.scopes[p].place.first + s.scopes[p].n <= |s.windows[k].slots|
    ensures var k, j := WindowAt(s, p), s.scopes[p].place.first + i;
            k < |Apply(s, a).windows| && j < |Apply(s, a).windows[k].slots| && Apply(s, a).windows[k].slots[j] == s.windows[k].slots[j]
  {
    if a.Put? || a.Pin? {
      hide Inv, Kept, Anchored, Calls, Live;
      PutElsewhere(s, a, p, i);
    } else if a.Leave? {
      LeaveElsewhere(s, p, i);
    } else {
      hide Inv, Enabled, Apply;
      OthersElsewhere(s, a, p, i);
    }
  }

  lemma OthersElsewhere(s: State, a: Action, p: nat, i: nat)
    requires |s.contents| == |s.scopes| > 0 && Enabled(s, a) && SlotsAt(s, p) && i < s.scopes[p].n && s.scopes[p].place.Traced?
    requires !a.Put? && !a.Pin? && !a.Leave?
    requires var k := WindowAt(s, p); 0 <= k < |s.windows| && s.scopes[p].place.first + s.scopes[p].n <= |s.windows[k].slots|
    ensures var k := WindowAt(s, p); k < |Apply(s, a).windows| && Apply(s, a).windows[k].slots == s.windows[k].slots
  {
    hide Kept, Anchored, Calls, Live, NoLocals;
  }

  lemma PutElsewhere(s: State, a: Action, p: nat, i: nat)
    requires Inv(s) && Enabled(s, a) && (a.Put? || a.Pin?) && SlotsAt(s, p) && i < s.scopes[p].n && s.scopes[p].place.Traced?
    requires !(a.p == p && a.i == i)
    requires var k := WindowAt(s, p); 0 <= k < |s.windows| && s.scopes[p].place.first + s.scopes[p].n <= |s.windows[k].slots|
    ensures var k, j := WindowAt(s, p), s.scopes[p].place.first + i;
            |Apply(s, a).windows| == |s.windows| && |Apply(s, a).windows[k].slots| == |s.windows[k].slots|
            && Apply(s, a).windows[k].slots[j] == s.windows[k].slots[j]
  {
    if s.scopes[a.p].place.Traced? && WindowAt(s, a.p) == WindowAt(s, p) {
      if a.p < p { SlotsDisjoint(s, a.p, p); } else if p < a.p { SlotsDisjoint(s, p, a.p); }
    }
    hide Inv, Kept, Anchored, Calls, Live;
  }

  lemma LeaveElsewhere(s: State, p: nat, i: nat)
    requires Inv(s) && Enabled(s, Leave) && SlotsAt(s, p) && i < s.scopes[p].n && p < |s.scopes| - 1 && s.scopes[p].place.Traced?
    requires var k := WindowAt(s, p); 0 <= k < |s.windows| && s.scopes[p].place.first + s.scopes[p].n <= |s.windows[k].slots|
    ensures var k, j := WindowAt(s, p), s.scopes[p].place.first + i;
            k < |Apply(s, Leave).windows| && |Apply(s, Leave).windows[k].slots| == |s.windows[k].slots|
            && Apply(s, Leave).windows[k].slots[j] == s.windows[k].slots[j]
  {
    var top := |s.scopes| - 1;
    CallsSplit(s.scopes, top);
    CallsSplit(s.scopes[..top], p);
    assert s.scopes[..top][..p] == s.scopes[..p] && s.scopes[top..] == [s.scopes[top]];
    CallsOne(s.scopes[top]);
    if s.scopes[top].Slots? && s.scopes[top].place.Traced? && WindowAt(s, p) == WindowAt(s, top) { SlotsDisjoint(s, p, top); }
    hide Inv, Kept, Anchored, Live, Calls;
    LeaveSlots(s, WindowAt(s, p), s.scopes[p].place.first + i);
  }

  lemma CallsOne(x: Scope)
    ensures Calls([x]) == if x.PrimitiveCall? then 1 else 0
  {
    assert [x][..0] == [];
  }

  lemma LeaveSlots(s: State, k: nat, j: nat)
    requires |s.contents| == |s.scopes| > 0 && !s.scopes[|s.scopes| - 1].Frame? && k < |s.windows| && j < |s.windows[k].slots|
    requires var x := s.scopes[|s.scopes| - 1];
             && (x.PrimitiveCall? ==> k < |s.windows| - 1)
             && (x.Slots? && x.place.Traced? && k == |s.windows| - 1 ==> j < x.place.first)
    ensures var t := Apply(s, Leave); k < |t.windows| && |t.windows[k].slots| == |s.windows[k].slots| && t.windows[k].slots[j] == s.windows[k].slots[j]
  {
  }

  // ---- ret

  /** No CallerSlots has seen more submissions at its start than there were. */
  ghost predicate Started(s: State, p: nat)
    requires SlotsAt(s, p)
  {
    var k := WindowAt(s, p);
    s.scopes[p].counted && 0 <= k < |s.windows| ==> s.scopes[p].start <= s.windows[k].submissions
  }

  lemma SubmissionsGrow(s: State, a: Action, k: nat)
    requires |s.contents| == |s.scopes| > 0 && Enabled(s, a) && k < |s.windows| && k < |Apply(s, a).windows|
    ensures Apply(s, a).windows[k].submissions >= s.windows[k].submissions
    ensures a.Safepoint? && Submits(s, a.p) && k == |s.windows| - 1 ==> Apply(s, a).windows[k].submissions > s.windows[k].submissions
  {
    hide Kept, Anchored, Calls, Live, NoLocals;
  }

  lemma StartedStays(s: State, a: Action, p: nat)
    requires Inv(s) && Enabled(s, a) && SlotsAt(s, p) && Started(s, p) && p < |Apply(s, a).scopes|
    ensures SlotsAt(Apply(s, a), p) && Started(Apply(s, a), p)
    ensures Submitted(s, p) ==> Submitted(Apply(s, a), p)
    ensures Reached(s, a, p) ==> Submitted(Apply(s, a), p)
  {
    var t := Apply(s, a);
    StepShape(s, a);
    PrefixStays(s, a, p);
    hide Enabled, Apply;
    if s.scopes[p].counted {
      WindowOfSlots(s, p);
      WindowOfSlots(t, p);
      var k := WindowAt(s, p);
      SubmissionsGrow(s, a, k);
      if Reached(s, a, p) { ReachedTop(s, a, p); }
    } else {
      FitsAt(s.scopes, p);
      if Reached(s, a, p) { ReachedTop(s, a, p); }
    }
  }

  lemma ReachedTop(s: State, a: Action, p: nat)
    requires Inv(s) && SlotsAt(s, p) && Reached(s, a, p)
    ensures WindowAt(s, p) == |s.windows| - 1 && s.scopes[p].counted
  {
    assert s.scopes[CallAt(s.scopes)].PrimitiveCall?;
    CallBelow(s.scopes, p);
    FitsAt(s.scopes, p);
  }

  /** The scopes up to the `p`-th stay through the run. */
  ghost predicate Outlives(s: State, run: seq<Action>, p: nat)
    decreases |run|
  {
    p < |s.scopes| && (run != [] ==> |s.contents| == |s.scopes| > 0 && Outlives(Apply(s, run[0]), run[1..], p))
  }

  /** A young cell of the caller's or an argument, once in hand, stays anchored
      outside the scope for as long as nothing is submitted. */
  lemma {:induction false} AnchoredOrSubmitted(s: State, run: seq<Action>, t: State, p: nat, v: Obj)
    requires Inv(s) && SlotsAt(s, p) && Started(s, p) && Runs(s, run, t) && Outlives(s, run, p)
    requires Anchored(s, p, v) || Submitted(s, p)
    ensures Inv(t) && SlotsAt(t, p) && Started(t, p) && (Anchored(t, p, v) || Submitted(t, p))
    decreases |run|
  {
    hide Inv, Enabled, Apply, Reached, Anchored, Submitted, Started;
    if run != [] {
      var s1 := Apply(s, run[0]);
      assert Outlives(s1, run[1..], p);
      assert p < |s1.scopes|;
      StepInv(s, run[0]);
      StartedStays(s, run[0], p);
      if Anchored(s, p, v) && !Reached(s, run[0], p) {
        InvParts(s);
        StepExtends(s, run[0], p);
        ExtendsAnchored(s, s1, p, v);
      }
      AnchoredOrSubmitted(s1, run[1..], t, p, v);
    }
  }

  lemma InvParts(s: State)
    requires Inv(s)
    ensures Shape(s) && Sound(s) && |s.contents| == |s.scopes| > 0
  {
  }

  /** `ret` hands out a value that the end of the scope does not lose: what was
      a young cell of the caller's or an argument when the scope got it is
      anchored outside it, submissions or not. */
  lemma ReturnedOutlives(s: State, run: seq<Action>, t: State, p: nat, v: Obj)
    requires Inv(s) && SlotsAt(s, p) && Started(s, p) && Runs(s, run, t) && Outlives(s, run, p)
    requires Anchored(s, p, v) && p < |t.scopes| == |t.contents| && Kept(t, v)
    ensures var r := Apply(t, Ret(p, v));
            |r.contents| == |r.scopes| && p < |r.scopes| && Anchored(r, p, v)
            && (p == |r.scopes| - 1 ==> var u := Apply(r, Leave); |u.contents| == |u.scopes| == p && Anchored(u, p, v))
  {
    AnchoredOrSubmitted(s, run, t, p, v);
    hide Runs, Outlives, Inv, Anchored, Submitted, Started, Kept;
    ReturnAnchors(t, p, v);
    var r := Apply(t, Ret(p, v));
    if p == |r.scopes| - 1 { EndsAnchored(r, p, v); }
  }

  lemma ReturnAnchors(t: State, p: nat, v: Obj)
    requires Inv(t) && SlotsAt(t, p) && p < |t.contents| == |t.scopes| && Kept(t, v) && (Submitted(t, p) || Anchored(t, p, v))
    ensures var r := Apply(t, Ret(p, v)); |r.contents| == |r.scopes| && r.scopes == t.scopes && Anchored(r, p, v)
  {
    var r := Apply(t, Ret(p, v));
    if !Submitted(t, p) { return; }
    FitsAt(t.scopes, p);
    var q :| 0 <= q < |t.scopes[..p]| && t.scopes[..p][q] == Frame(t.scopes[p].ctx);
    KeptInHeap(t, v);
    hide Nests, Match, Kept;
    assert r.scopes[q] == Frame(t.scopes[p].ctx) && RootedIn(r, q, v) && Holds(r, v, v);
  }

  lemma EndsAnchored(r: State, p: nat, v: Obj)
    requires |r.contents| == |r.scopes| == p + 1 && SlotsAt(r, p) && Anchored(r, p, v)
    ensures var u := Apply(r, Leave); |u.contents| == |u.scopes| == p && Anchored(u, p, v)
  {
    var q: nat, x :| q < p && r.scopes[q].Frame? && RootedIn(r, q, x) && Holds(r, x, v);
    var u := Apply(r, Leave);
    assert u.scopes[q] == r.scopes[q] && u.contents[q] == r.contents[q];
    assert RootedIn(u, q, x) && Holds(u, x, v);
  }
}
