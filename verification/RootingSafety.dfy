/** Nothing a primitive holds is ever freed. */
module RootingSafety {
  import opened Options
  import opened Rooting
  import opened RootingProof

  // ---- the shape is kept

  lemma FitsNow(s: State)
    requires Formed(s)
    ensures Fits(s.scopes, Nested(s.windows != [])) && Fits(s.scopes, Permit(false)) && Fits(s.scopes, Block(s.windows != [], false))
    ensures TallyOf(s.scopes) == Current(s)
    ensures s.windows != [] ==> Current(s).next <= |s.windows[|s.windows| - 1].slots|
    ensures forall c | Permitted(s, c) && NoLocals(s.scopes) :: Fits(s.scopes, Permit(true))
  {
    CurrentTally(s);
    if s.windows != [] { TopAgrees(s); }
  }

  lemma EnterShape(s: State, a: Action)
    requires Shape(s) && Enabled(s, a)
    requires a.EnterNested? || a.EnterPermit? || a.NewBlock? || a.TakeLocal?
    ensures Shape(Apply(s, a))
  {
    hide Nests, Match, TallyOf, Calls, NoLocals, Anchored;
    FitsNow(s);
    match a
    case EnterNested => Entering(s, Nested(s.windows != []), []);
    case EnterPermit(c) => if Permitted(s, c) { Entering(s, Permit(true), []); } else { EnteringPlain(s, Permit(false), []); }
    case NewBlock => EnteringPlain(s, Block(s.windows != [], false), []);
    case TakeLocal(v) => EnteringPlain(s, Local, [Some(v)]);
  }

  lemma FrameShape(s: State, a: Action)
    requires Shape(s) && Enabled(s, a) && (a.EnterFrame? || a.EnterCall?)
    ensures Shape(Apply(s, a))
  {
    hide Nests, Match, TallyOf, Calls, NoLocals, Kept;
    match a
    case EnterFrame(c, values) => EnteringPlain(s, Frame(c), values);
    case EnterCall(size) => EnteringCall(s, size);
  }

  lemma AcquireFits(s: State, c: nat, n: nat, start: nat)
    requires Formed(s) && Live(s.scopes, c)
    ensures Fits(s.scopes, Slots(c, n, Untraced, s.windows != [], start))
    ensures s.windows != [] ==> Fits(s.scopes, Slots(c, n, Traced(Current(s).next), true, start))
  {
    CurrentTally(s);
  }

  lemma AcquireTraced(s: State, c: nat, n: nat, start: nat)
    requires Shape(s) && Live(s.scopes, c) && HasRoom(s, n)
    ensures var t := Current(s);
            Shape(Counting(Enter(s, Slots(c, n, Traced(t.next), true, start), []), t.(next := t.next + n)))
  {
    AcquireFits(s, c, n, start);
    FitsNow(s);
    hide Nests, Match, TallyOf, Calls, NoLocals, Fits;
    Entering(s, Slots(c, n, Traced(Current(s).next), true, start), []);
  }

  lemma AcquireUntraced(s: State, c: nat, n: nat, start: nat, values: Contents)
    requires Shape(s) && Live(s.scopes, c) && |values| == n
    ensures var t := Current(s);
            Shape(Counting(Enter(s, Slots(c, n, Untraced, s.windows != [], start), values), t.(local := t.local + 1)))
  {
    AcquireFits(s, c, n, start);
    FitsNow(s);
    hide Nests, Match, TallyOf, Calls, NoLocals, Fits;
    Entering(s, Slots(c, n, Untraced, s.windows != [], start), values);
  }

  lemma AcquireShape(s: State, c: nat, n: nat)
    requires Shape(s) && Enabled(s, Acquire(c, n))
    ensures Shape(Apply(s, Acquire(c, n)))
  {
    hide Shape, Live, Counting, Enter;
    var start := if s.windows != [] then s.windows[|s.windows| - 1].submissions else 0;
    if HasRoom(s, n) { AcquireTraced(s, c, n, start); } else { AcquireUntraced(s, c, n, start, seq(n, _ => None)); }
  }

  lemma HoldShape(s: State, a: Action)
    requires Shape(s) && Enabled(s, a) && (a.Hold? || a.Release?)
    ensures Shape(Apply(s, a))
  {
    hide Nests, Match, TallyOf, NoLocals, Live;
    match a
    case Hold(p) =>
      assert s.contents[p := s.contents[p]] == s.contents;
      if !s.scopes[p].held { Holding(s, p, true, s.contents[p]); }
    case Release(p) => if s.scopes[p].held { Holding(s, p, false, []); }
  }

  lemma ChangeShape(s: State, a: Action)
    requires Shape(s) && Enabled(s, a)
    requires a.Park? || a.Put? || a.Pin?
    ensures Shape(Apply(s, a))
  {
    hide Nests, Match, TallyOf, NoLocals, Live, Anchored, Kept;
    match a
    case Park(p, v) =>
    case Put(p, i, v) => Storing(s, p, i, v);
    case Pin(p, i, v) => Storing(s, p, i, Some(v));
  }

  lemma SubmitShape(s: State, p: nat)
    requires Shape(s) && SlotsAt(s, p)
    ensures Shape(Apply(s, Safepoint(p)))
  {
    if Submits(s, p) {
      TopAgrees(s);
      CurrentTally(s);
      var w := s.windows[|s.windows| - 1];
      MatchCounting(s.scopes, s.scopes, s.windows, w.(submissions := w.submissions + 1));
    }
  }

  lemma LeaveShape(s: State)
    requires Shape(s) && Enabled(s, Leave)
    ensures Shape(Apply(s, Leave))
  {
    hide Nests, Match, Live;
    Leaving(s);
  }

  lemma LeaveFrameShape(s: State, result: Option<Obj>, to: nat)
    requires Shape(s) && Enabled(s, LeaveFrame(result, to))
    ensures Shape(Apply(s, LeaveFrame(result, to)))
  {
    hide Nests, Match, Kept, Live;
    var init, x := s.scopes[..|s.scopes| - 1], s.scopes[|s.scopes| - 1];
    Leaving(s);
    FitsLast(s);
    forall c | Live(init, c) ensures c != x.ctx && c in s.young { }
  }

  lemma StepShape(s: State, a: Action)
    requires Shape(s) && Enabled(s, a)
    ensures Shape(Apply(s, a))
  {
    hide Nests, Match, TallyOf, NoLocals, Anchored, Kept, LeaveScope, Store;
    match a
    case EnterFrame(_, _) => FrameShape(s, a);
    case EnterCall(_) => FrameShape(s, a);
    case EnterNested => EnterShape(s, a);
    case EnterPermit(_) => EnterShape(s, a);
    case NewBlock => EnterShape(s, a);
    case TakeLocal(_) => EnterShape(s, a);
    case Acquire(c, n) => AcquireShape(s, c, n);
    case Hold(_) => HoldShape(s, a);
    case Release(_) => HoldShape(s, a);
    case Park(_, _) => ChangeShape(s, a);
    case Put(_, _, _) => ChangeShape(s, a);
    case Pin(_, _, _) => ChangeShape(s, a);
    case Safepoint(p) => SubmitShape(s, p);
    case Leave => LeaveShape(s);
    case LeaveFrame(result, to) => LeaveFrameShape(s, result, to);
    case Compute(_) =>
    case FrameSafepoint =>
    case Allocate(_, _, _, _) =>
    case Ret(_, _) =>
    case Publish(_) =>
    case Unpublish(_) =>
    case Collect(_) =>
  }

  // ---- the heap stays sound

  lemma KeptInHeap(s: State, v: Obj)
    requires |s.contents| == |s.scopes| && Sound(s) && Kept(s, v)
    ensures v in s.heap && Holds(s, v, v)
  {
  }

  lemma RootKept(s: State, r: Obj)
    requires |s.contents| == |s.scopes| && Sound(s) && Root(s, r)
    ensures Kept(s, r)
  {
    assert Holds(s, r, r);
  }

  lemma AnchoredKept(s: State, p: nat, v: Obj)
    requires p <= |s.scopes| == |s.contents| && Anchored(s, p, v)
    ensures Kept(s, v)
  {
    var q: nat, r :| q < p && s.scopes[q].Frame? && RootedIn(s, q, r) && Holds(s, r, v);
    assert InFrames(s, r) || InYoung(s, r);
    assert Root(s, r);
  }

  /** Every root of `t` was kept in `s`. */
  ghost predicate Within(s: State, t: State)
    requires |s.contents| == |s.scopes| && |t.contents| == |t.scopes|
  {
    forall r: Obj | Root(t, r) :: Kept(s, r)
  }

  lemma SoundWithin(s: State, t: State)
    requires |s.contents| == |s.scopes| && |t.contents| == |t.scopes| && Sound(s) && t.heap == s.heap && Within(s, t)
    ensures Sound(t)
  {
    forall r: Obj | Root(t, r) ensures r in t.heap { KeptInHeap(s, r); }
  }

  lemma AnchorWithin(s: State, t: State, c: nat, v: Obj)
    requires |s.contents| == |s.scopes| && |t.contents| == |t.scopes| && Within(s, t) && Kept(s, v)
    ensures Within(s, Anchor(t, c, v))
  {
    forall r: Obj | Root(Anchor(t, c, v), r) ensures Kept(s, r) {
      if r != v { assert Root(t, r) by { YoungOf(t, c, v, r); } }
    }
  }

  lemma YoungOf(t: State, c: nat, v: Obj, r: Obj)
    requires |t.contents| == |t.scopes| && Root(Anchor(t, c, v), r) && r != v
    ensures Root(t, r)
  {
    if InYoung(Anchor(t, c, v), r) {
      var d :| d in Anchor(t, c, v).young && r in Anchor(t, c, v).young[d];
      assert d in t.young && r in t.young[d];
    }
  }

  /** `t` has the roots of `s` or fewer. */
  lemma FewerRoots(s: State, t: State)
    requires |s.contents| == |s.scopes| && |t.contents| == |t.scopes| && Sound(s)
    requires |t.windows| <= |s.windows| + 1
    requires forall k, r | 0 <= k < |t.windows| && Some(r) in t.windows[k].slots :: k < |s.windows| && Some(r) in s.windows[k].slots
    requires forall p, r | 0 <= p < |t.scopes| && t.scopes[p].Frame? && Some(r) in t.contents[p] ::
               p < |s.scopes| && s.scopes[p].Frame? && Some(r) in s.contents[p]
    requires forall c, r | c in t.young && r in t.young[c] :: c in s.young && r in s.young[c]
    requires t.shared <= s.shared
    ensures Within(s, t)
  {
    forall r: Obj | Root(t, r) ensures Kept(s, r) {
      assert Root(s, r);
      RootKept(s, r);
    }
  }

  lemma StoreWithin(s: State, p: nat, i: nat, v: Option<Obj>)
    requires |s.contents| == |s.scopes| && Sound(s) && SlotsAt(s, p) && (v.Some? ==> Kept(s, v.value))
    ensures Within(s, Store(s, p, i, v))
  {
    var t := Store(s, p, i, v);
    forall r: Obj | Root(t, r) ensures Kept(s, r) {
      if v != Some(r) {
        if InSlots(t, r) { assert InSlots(s, r); }
        if InFrames(t, r) {
          var q :| 0 <= q < |t.scopes| && t.scopes[q].Frame? && Some(r) in t.contents[q];
          assert Some(r) in s.contents[q];
        }
        assert Root(s, r);
        RootKept(s, r);
      }
    }
  }

  /** Scopes that begin bring no roots but a frame's own values. */
  lemma EnteredWithin(s: State, t: State, x: Scope, values: Contents)
    requires |s.contents| == |s.scopes| && Sound(s) && (x.Frame? ==> AllKept(s, values))
    requires t.scopes == s.scopes + [x] && t.contents == s.contents + [values] && t.shared == s.shared
    requires forall k, r | 0 <= k < |t.windows| && Some(r) in t.windows[k].slots :: k < |s.windows| && Some(r) in s.windows[k].slots
    requires forall c, r | c in t.young && r in t.young[c] :: c in s.young && r in s.young[c]
    ensures Within(s, t)
  {
    forall r: Obj | Root(t, r) ensures Kept(s, r) {
      if InFrames(t, r) {
        var p :| 0 <= p < |t.scopes| && t.scopes[p].Frame? && Some(r) in t.contents[p];
        if p < |s.scopes| {
          assert InFrames(s, r);
          RootKept(s, r);
        }
      } else {
        assert Root(s, r);
        RootKept(s, r);
      }
    }
  }

  lemma EnterSound(s: State, a: Action)
    requires Shape(s) && Sound(s) && Enabled(s, a)
    requires a.EnterFrame? || a.EnterCall? || a.EnterNested? || a.EnterPermit? || a.NewBlock? || a.TakeLocal? || a.Acquire?
    ensures |Apply(s, a).contents| == |Apply(s, a).scopes| && Sound(Apply(s, a))
  {
    hide Nests, Match, Kept, Anchored, Live, Sound;
    var t := Apply(s, a);
    var x, values := t.scopes[|s.scopes|], t.contents[|s.scopes|];
    assert t.scopes == s.scopes + [x] && t.contents == s.contents + [values];
    EnteredWithin(s, t, x, values);
    SoundWithin(s, t);
  }

  lemma LeaveWithin(s: State)
    requires Shape(s) && Sound(s) && |s.scopes| > 1
    ensures var t := Left(s); |t.contents| == |t.scopes| && t.heap == s.heap && t.young == s.young && Within(s, t)
  {
    hide Nests, Match, Kept, Live, Sound;
    FewerRoots(s, Left(s));
  }

  lemma LeaveSound(s: State, a: Action)
    requires Shape(s) && Sound(s) && Enabled(s, a) && (a.Leave? || a.LeaveFrame?)
    ensures |Apply(s, a).contents| == |Apply(s, a).scopes| && Sound(Apply(s, a))
  {
    LeaveWithin(s);
    hide Shape, Kept, Sound;
    var t := Left(s);
    if a.LeaveFrame? {
      var t1 := t.(young := t.young - {s.scopes[|s.scopes| - 1].ctx});
      forall r: Obj | Root(t1, r) ensures Kept(s, r) { assert Root(t, r); }
      if a.result.Some? { AnchorWithin(s, t1, a.to, a.result.value); }
    }
    SoundWithin(s, Apply(s, a));
  }

  lemma AllocateSound(s: State, c: nat, o: Obj, refs: set<Obj>, elems: seq<Obj>)
    requires |s.contents| == |s.scopes| > 0 && Shape(s) && Sound(s) && Enabled(s, Allocate(c, o, refs, elems))
    ensures var t := Apply(s, Allocate(c, o, refs, elems)); |t.contents| == |t.scopes| && Sound(t)
  {
    hide Shape;
    var t := Apply(s, Allocate(c, o, refs, elems));
    forall r | r in refs ensures r in s.heap { KeptInHeap(s, r); }
    forall r: Obj | Root(t, r) ensures r in t.heap {
      if r != o {
        YoungOf(s, c, o, r);
      }
    }
  }

  lemma CollectSound(s: State, dead: set<Obj>)
    requires |s.contents| == |s.scopes| > 0 && Shape(s) && Sound(s) && Enabled(s, Collect(dead))
    ensures var t := Apply(s, Collect(dead)); |t.contents| == |t.scopes| && Sound(t)
  {
    hide Shape;
    var t := Apply(s, Collect(dead));
    forall r: Obj | Root(t, r) ensures r in t.heap {
      assert Root(s, r);
      RootKept(s, r);
    }
  }

  lemma OtherSound(s: State, a: Action)
    requires Shape(s) && Sound(s) && Enabled(s, a)
    requires a.Compute? || a.FrameSafepoint? || a.Hold? || a.Release? || a.Park? || a.Safepoint? || a.Unpublish?
    ensures |Apply(s, a).contents| == |Apply(s, a).scopes| && Sound(Apply(s, a))
  {
    hide Nests, Match, Live, Sound, Kept, Anchored;
    var t := Apply(s, a);
    if a.Compute? { ComputeWithin(s, a.values); }
    else if a.Hold? || a.Release? { BlockWithin(s, a); }
    else { FewerRoots(s, t); }
    SoundWithin(s, t);
  }

  lemma BlockWithin(s: State, a: Action)
    requires Shape(s) && Sound(s) && Enabled(s, a) && (a.Hold? || a.Release?)
    ensures var t := Apply(s, a); |t.contents| == |t.scopes| && Within(s, t)
  {
    hide Nests, Match, Live, Sound, Kept, Anchored;
    FewerRoots(s, Apply(s, a));
  }

  /** A frame computes: what it holds then it could reach. */
  lemma ComputeWithin(s: State, values: Contents)
    requires Shape(s) && Sound(s) && Enabled(s, Compute(values))
    ensures var t := Apply(s, Compute(values)); |t.contents| == |t.scopes| && Within(s, t)
  {
    hide Nests, Match, Live, Sound, Kept, Anchored;
    var t := Apply(s, Compute(values));
    forall r: Obj | Root(t, r) ensures Kept(s, r) {
      if InFrames(t, r) {
        var p :| 0 <= p < |t.scopes| && t.scopes[p].Frame? && Some(r) in t.contents[p];
        if p < |s.scopes| - 1 { assert InFrames(s, r); RootKept(s, r); }
      } else { assert Root(s, r); RootKept(s, r); }
    }
  }

  lemma KeepSound(s: State, a: Action)
    requires |s.contents| == |s.scopes| > 0 && Shape(s) && Sound(s) && Enabled(s, a)
    requires a.Put? || a.Pin? || a.Ret? || a.Publish?
    ensures |Apply(s, a).contents| == |Apply(s, a).scopes| && Sound(Apply(s, a))
  {
    hide Shape, Sound, Kept, Anchored;
    var t := Apply(s, a);
    if a.Put? {
      if a.value.Some? && s.scopes[a.p].place.Untraced? { AnchoredKept(s, a.p, a.value.value); }
      StoreWithin(s, a.p, a.i, a.value);
    } else if a.Pin? {
      StoreWithin(s, a.p, a.i, Some(a.v));
      if s.scopes[a.p].place.Untraced? { AnchorWithin(s, Store(s, a.p, a.i, Some(a.v)), s.scopes[a.p].ctx, a.v); }
    } else if a.Ret? {
      FewerRoots(s, s);
      AnchorWithin(s, s, s.scopes[a.p].ctx, a.v);
    } else {
      forall r: Obj | Root(t, r) ensures Kept(s, r) {
        if r != a.v { assert Root(s, r); RootKept(s, r); }
      }
    }
    SoundWithin(s, t);
  }

  lemma StepSound(s: State, a: Action)
    requires |s.contents| == |s.scopes| > 0 && Shape(s) && Sound(s) && Enabled(s, a)
    ensures |Apply(s, a).contents| == |Apply(s, a).scopes| && Sound(Apply(s, a))
  {
    hide Shape, Sound, Enabled, Apply;
    match a
    case EnterFrame(_, _) => EnterSound(s, a);
    case EnterCall(_) => EnterSound(s, a);
    case EnterNested => EnterSound(s, a);
    case EnterPermit(_) => EnterSound(s, a);
    case NewBlock => EnterSound(s, a);
    case TakeLocal(_) => EnterSound(s, a);
    case Acquire(_, _) => EnterSound(s, a);
    case Hold(_) => OtherSound(s, a);
    case Release(_) => OtherSound(s, a);
    case Park(_, _) => OtherSound(s, a);
    case Put(_, _, _) => KeepSound(s, a);
    case Pin(_, _, _) => KeepSound(s, a);
    case Safepoint(_) => OtherSound(s, a);
    case Leave => LeaveSound(s, a);
    case LeaveFrame(_, _) => LeaveSound(s, a);
    case Compute(_) => OtherSound(s, a);
    case FrameSafepoint => OtherSound(s, a);
    case Allocate(c, o, refs, elems) => AllocateSound(s, c, o, refs, elems);
    case Ret(_, _) => KeepSound(s, a);
    case Publish(_) => KeepSound(s, a);
    case Unpublish(_) => OtherSound(s, a);
    case Collect(dead) => CollectSound(s, dead);
  }
}
