/** What is held out of the collector's sight stays anchored, over every run. */
module RootingRuns {
  import opened Options
  import opened Rooting
  import opened RootingProof
  import opened RootingSafety

  /** No two frames share a context. */
  lemma FramesDiffer(ss: seq<Scope>, q: nat, r: nat)
    requires Nests(ss) && q < r < |ss| && ss[q].Frame? && ss[r].Frame?
    ensures ss[q].ctx != ss[r].ctx
  {
    FitsAt(ss, r);
    assert ss[..r][q] == ss[q];
    hide Nests;
  }

  /** The frames outside the `p`-th scope, and what they root, are in `t` still. */
  ghost predicate Extends(s: State, t: State, p: nat)
    requires |s.contents| == |s.scopes| && |t.contents| == |t.scopes|
  {
    && p <= |s.scopes| && p <= |t.scopes|
    && (forall q | 0 <= q < p && s.scopes[q].Frame? ::
          && t.scopes[q] == s.scopes[q] && t.contents[q] == s.contents[q]
          && (s.scopes[q].ctx in s.young ==> s.scopes[q].ctx in t.young && s.young[s.scopes[q].ctx] <= t.young[s.scopes[q].ctx]))
    && (forall r: Obj, v: Obj | Root(s, r) && Holds(s, r, v) :: Holds(t, r, v))
  }

  lemma ExtendsAnchored(s: State, t: State, p: nat, v: Obj)
    requires |s.contents| == |s.scopes| && |t.contents| == |t.scopes|
    requires Extends(s, t, p) && Anchored(s, p, v)
    ensures Anchored(t, p, v)
  {
    var q: nat, r :| q < p && s.scopes[q].Frame? && RootedIn(s, q, r) && Holds(s, r, v);
    assert InFrames(s, r) || InYoung(s, r);
    assert Root(s, r);
    assert RootedIn(t, q, r) && Holds(t, r, v);
  }

  /** The steps that end or change the frame on top. */
  predicate OnTop(a: Action) { a.Compute? || a.FrameSafepoint? || a.LeaveFrame? }

  /** The scopes a submission reaches: those inside the frame it submits. */
  predicate Reached(s: State, a: Action, p: nat) {
    a.Safepoint? && SlotsAt(s, a.p) && Submits(s, a.p) && Calls(s.scopes) > 0 && CallAt(s.scopes) <= p
  }

  lemma TopExtends(s: State, a: Action, p: nat)
    requires Shape(s) && Enabled(s, a) && OnTop(a) && p < |s.scopes|
    ensures |Apply(s, a).contents| == |Apply(s, a).scopes| && Extends(s, Apply(s, a), p)
  {
    hide Kept, Live, Match, Nests;
    var top := |s.scopes| - 1;
    assert Nests(s.scopes);
    forall q | 0 <= q < p && s.scopes[q].Frame? && s.scopes[top].Frame? ensures s.scopes[q].ctx != s.scopes[top].ctx {
      FramesDiffer(s.scopes, q, top);
    }
  }

  lemma SubmitExtends(s: State, i: nat, p: nat)
    requires Shape(s) && SlotsAt(s, i) && p <= |s.scopes| && !Reached(s, Safepoint(i), p)
    ensures Extends(s, Apply(s, Safepoint(i)), p)
  {
    if Submits(s, i) {
      TopAgrees(s);
      var c := CallAt(s.scopes);
      assert s.scopes[c - 1] == Frame(s.scopes[i].ctx);
      forall q: nat | q < p && s.scopes[q].Frame? ensures s.scopes[q].ctx != s.scopes[i].ctx {
        FramesDiffer(s.scopes, q, c - 1);
      }
    }
    hide Match, Nests;
  }

  lemma EnterExtends(s: State, a: Action, p: nat)
    requires Shape(s) && Enabled(s, a) && p <= |s.scopes|
    requires a.EnterFrame? || a.EnterCall? || a.EnterNested? || a.EnterPermit? || a.NewBlock? || a.TakeLocal? || a.Acquire?
    ensures |Apply(s, a).contents| == |Apply(s, a).scopes| && Extends(s, Apply(s, a), p)
  {
    hide Kept, Anchored, Match, Nests, Live;
  }

  lemma LeaveExtends(s: State, p: nat)
    requires Shape(s) && Enabled(s, Leave) && p < |s.scopes|
    ensures |Apply(s, Leave).contents| == |Apply(s, Leave).scopes| && Extends(s, Apply(s, Leave), p)
  {
    hide Kept, Anchored, Match, Nests, Live;
  }

  lemma CollectExtends(s: State, dead: set<Obj>, p: nat)
    requires |s.contents| == |s.scopes| > 0 && Sound(s) && Enabled(s, Collect(dead)) && p <= |s.scopes|
    ensures Extends(s, Apply(s, Collect(dead)), p)
  {
    var t := Apply(s, Collect(dead));
    forall r: Obj, v: Obj | Root(s, r) && Holds(s, r, v) ensures Holds(t, r, v) {
      RootKept(s, r);
    }
  }

  lemma AllocateExtends(s: State, c: nat, o: Obj, refs: set<Obj>, elems: seq<Obj>, p: nat)
    requires |s.contents| == |s.scopes| > 0 && Enabled(s, Allocate(c, o, refs, elems)) && p <= |s.scopes|
    ensures Extends(s, Apply(s, Allocate(c, o, refs, elems)), p)
  {
    hide Kept;
  }

  lemma BlockExtends(s: State, a: Action, p: nat)
    requires |s.contents| == |s.scopes| > 0 && Enabled(s, a) && p <= |s.scopes| && (a.Hold? || a.Release? || a.Park?)
    ensures |Apply(s, a).contents| == |Apply(s, a).scopes| && Extends(s, Apply(s, a), p)
  {
    hide Anchored, Kept, Calls;
  }

  lemma OtherExtends(s: State, a: Action, p: nat)
    requires |s.contents| == |s.scopes| > 0 && Enabled(s, a) && p <= |s.scopes|
    requires a.Ret? || a.Publish? || a.Unpublish?
    ensures |Apply(s, a).contents| == |Apply(s, a).scopes| && Extends(s, Apply(s, a), p)
  {
    hide Anchored, Kept, Calls;
  }

  lemma PutExtends(s: State, i: nat, v: Option<Obj>, at: nat, p: nat)
    requires |s.contents| == |s.scopes| > 0 && Enabled(s, Put(at, i, v)) && p <= |s.scopes|
    ensures var t := Apply(s, Put(at, i, v)); |t.contents| == |t.scopes| && Extends(s, t, p)
  {
    hide Anchored, Kept, Calls;
  }

  lemma PinExtends(s: State, i: nat, v: Obj, at: nat, p: nat)
    requires |s.contents| == |s.scopes| > 0 && Enabled(s, Pin(at, i, v)) && p <= |s.scopes|
    ensures var t := Apply(s, Pin(at, i, v)); |t.contents| == |t.scopes| && Extends(s, t, p)
  {
    hide Anchored, Kept, Calls;
  }

  /** Every frame outside a scope keeps rooting what it rooted, whatever step
      is taken, a submission of that frame's own chain aside. */
  lemma StepExtends(s: State, a: Action, p: nat)
    requires |s.contents| == |s.scopes| > 0 && Shape(s) && Sound(s) && Enabled(s, a)
    requires p <= |s.scopes| && !Reached(s, a, p)
    requires p < |s.scopes| || !(OnTop(a) || a.Leave?)
    ensures |Apply(s, a).contents| == |Apply(s, a).scopes| && Extends(s, Apply(s, a), p)
  {
    hide Shape, Sound, Enabled, Apply, Reached, Extends;
    StepSound(s, a);
    match a
    case Compute(_) => TopExtends(s, a, p);
    case FrameSafepoint => TopExtends(s, a, p);
    case LeaveFrame(_, _) => TopExtends(s, a, p);
    case Safepoint(i) => assert SlotsAt(s, i) by { SlotsOf(s, i); } SubmitExtends(s, i, p);
    case EnterFrame(_, _) => EnterExtends(s, a, p);
    case EnterCall(_) => EnterExtends(s, a, p);
    case EnterNested => EnterExtends(s, a, p);
    case EnterPermit(_) => EnterExtends(s, a, p);
    case NewBlock => EnterExtends(s, a, p);
    case TakeLocal(_) => EnterExtends(s, a, p);
    case Acquire(_, _) => EnterExtends(s, a, p);
    case Leave => LeaveExtends(s, p);
    case Hold(_) => BlockExtends(s, a, p);
    case Release(_) => BlockExtends(s, a, p);
    case Park(_, _) => BlockExtends(s, a, p);
    case Put(at, i, v) => PutExtends(s, i, v, at, p);
    case Pin(at, i, v) => PinExtends(s, i, v, at, p);
    case Ret(_, _) => OtherExtends(s, a, p);
    case Publish(_) => OtherExtends(s, a, p);
    case Unpublish(_) => OtherExtends(s, a, p);
    case Allocate(c, o, refs, elems) => AllocateExtends(s, c, o, refs, elems, p);
    case Collect(dead) => CollectExtends(s, dead, p);
  }

  lemma SlotsOf(s: State, i: nat)
    requires |s.contents| == |s.scopes| > 0 && Enabled(s, Safepoint(i))
    ensures SlotsAt(s, i)
  {
  }

  /** Where a submission happens, no scope since the call holds anything out of
      sight. */
  lemma {:induction false} NothingHidden(ss: seq<Scope>, p: nat)
    requires Nests(ss) && Calls(ss) > 0 && CallAt(ss) < p < |ss|
    requires TallyOf(ss).depth == 1 && TallyOf(ss).permits > 0 && TallyOf(ss).local == 0
    ensures !Hidden(ss[p])
    decreases |ss|
  {
    var init, x := ss[..|ss| - 1], ss[|ss| - 1];
    DepthPositive(init);
    if p == |ss| - 1 {
    } else if TallyOf(init).permits > 0 {
      NothingHidden(init, p);
    } else {
      UnderPermit(init, p);
      assert ss[p] == init[p];
    }
  }

  lemma {:induction false} DepthPositive(ss: seq<Scope>)
    ensures TallyOf(ss).depth >= 1
  {
    if ss != [] { DepthPositive(ss[..|ss| - 1]); }
  }

  /** Below a permit that counts there are no C++ locals. */
  lemma {:induction false} UnderPermit(ss: seq<Scope>, p: nat)
    requires Nests(ss) && Calls(ss) > 0 && CallAt(ss) < p < |ss| && NoLocals(ss) && TallyOf(ss).local == 0
    ensures !Hidden(ss[p])
    decreases |ss|
  {
    if p < |ss| - 1 {
      UnderPermit(ss[..|ss| - 1], p);
    }
  }

  lemma SubmitHidden(s: State, i: nat)
    requires Inv(s) && SlotsAt(s, i)
    ensures HiddenAnchored(Apply(s, Safepoint(i)))
  {
    var t := Apply(s, Safepoint(i));
    forall p: nat, v | p < |t.scopes| && Hidden(t.scopes[p]) && Some(v) in t.contents[p] ensures Anchored(t, p, v) {
      if Reached(s, Safepoint(i), p) {
        TopAgrees(s);
        assert s.scopes[CallAt(s.scopes)].PrimitiveCall?;
        NothingHidden(s.scopes, p);
      }
      SubmitExtends(s, i, p);
      ExtendsAnchored(s, t, p, v);
    }
  }

  /** What the `p`-th scope holds out of sight in `t` it held in `s`. */
  ghost predicate HeldBefore(s: State, t: State, p: nat, v: Obj)
    requires |s.contents| == |s.scopes| && |t.contents| == |t.scopes|
  {
    p < |t.scopes| && Hidden(t.scopes[p]) && Some(v) in t.contents[p] ==>
      p < |s.scopes| && Hidden(s.scopes[p]) && Some(v) in s.contents[p]
  }

  lemma EnterHeld(s: State, a: Action, p: nat, v: Obj)
    requires |s.contents| == |s.scopes| > 0 && Enabled(s, a)
    requires a.EnterFrame? || a.EnterCall? || a.EnterNested? || a.EnterPermit? || a.NewBlock? || a.Acquire?
    ensures |Apply(s, a).contents| == |Apply(s, a).scopes| && HeldBefore(s, Apply(s, a), p, v)
  {
    hide Live, Kept, Anchored, Calls, NoLocals;
  }

  lemma LeaveHeld(s: State, a: Action, p: nat, v: Obj)
    requires |s.contents| == |s.scopes| > 0 && Enabled(s, a) && (OnTop(a) || a.Leave?)
    ensures |Apply(s, a).contents| == |Apply(s, a).scopes| && HeldBefore(s, Apply(s, a), p, v)
  {
    hide Live, Kept, Anchored, Calls, NoLocals;
  }

  lemma BlockHeld(s: State, a: Action, p: nat, v: Obj)
    requires Shape(s) && Enabled(s, a) && (a.Hold? || a.Release? || a.Park?) && !(a.Park? && a.p == p)
    ensures |Apply(s, a).contents| == |Apply(s, a).scopes| && HeldBefore(s, Apply(s, a), p, v)
  {
    hide Nests, Match, Live, Kept, Anchored, Calls, NoLocals;
  }

  lemma OtherHeld(s: State, a: Action, p: nat, v: Obj)
    requires |s.contents| == |s.scopes| > 0 && Enabled(s, a)
    requires a.Put? || a.Pin? || a.Ret? || a.Publish? || a.Unpublish? || a.Allocate? || a.Collect? || a.Safepoint?
    requires !(a.Put? && a.p == p) && !(a.Pin? && a.p == p)
    ensures |Apply(s, a).contents| == |Apply(s, a).scopes| && HeldBefore(s, Apply(s, a), p, v)
  {
    hide Live, Kept, Anchored, Calls, NoLocals;
  }

  lemma ScopesHeld(s: State, a: Action, p: nat, v: Obj)
    requires |s.contents| == |s.scopes| > 0 && Shape(s) && Enabled(s, a)
    requires !(a.Park? && a.p == p) && !(a.Put? && a.p == p) && !(a.Pin? && a.p == p) && !a.TakeLocal?
    ensures |Apply(s, a).contents| == |Apply(s, a).scopes| && HeldBefore(s, Apply(s, a), p, v)
  {
    hide Shape, Enabled, Apply, HeldBefore;
    if OnTop(a) || a.Leave? { LeaveHeld(s, a, p, v); }
    else if a.Hold? || a.Release? || a.Park? { BlockHeld(s, a, p, v); }
    else if a.Put? || a.Pin? || a.Ret? || a.Publish? || a.Unpublish? || a.Allocate? || a.Collect? || a.Safepoint? { OtherHeld(s, a, p, v); }
    else { EnterHeld(s, a, p, v); }
  }

  /** A value just put where the collector does not look. */
  lemma NewlyHeld(s: State, a: Action, p: nat, v: Obj)
    requires Inv(s) && Enabled(s, a) && (a.Park? || a.Put? || a.Pin?) && a.p == p
    ensures var t := Apply(s, a);
            |t.contents| == |t.scopes| && (p < |t.scopes| && Hidden(t.scopes[p]) && Some(v) in t.contents[p] ==> Anchored(t, p, v))
  {
    var t := Apply(s, a);
    StepExtends(s, a, p);
    hide Shape, Sound, Extends, Kept;
    var w := if a.Put? then a.value else Some(a.v);
    if p < |t.scopes| && Hidden(t.scopes[p]) && Some(v) in t.contents[p] {
      if Some(v) in s.contents[p] {
        ExtendsAnchored(s, t, p, v);
      } else if a.Pin? {
        PinnedAnchored(s, p, a.i, v);
      } else {
        ExtendsAnchored(s, t, p, v);
      }
    }
  }

  lemma PinnedAnchored(s: State, p: nat, i: nat, v: Obj)
    requires Shape(s) && Sound(s) && SlotsAt(s, p) && s.scopes[p].place.Untraced? && Kept(s, v)
    ensures var t := Apply(s, Pin(p, i, v)); |t.contents| == |t.scopes| && Anchored(t, p, v)
  {
    var t := Apply(s, Pin(p, i, v));
    FitsAt(s.scopes, p);
    var q :| 0 <= q < |s.scopes[..p]| && s.scopes[..p][q] == Frame(s.scopes[p].ctx);
    KeptInHeap(s, v);
    hide Nests, Match, Kept;
    assert t.scopes[q] == Frame(s.scopes[p].ctx) && RootedIn(t, q, v) && Holds(t, v, v);
  }

  lemma StepHidden(s: State, a: Action)
    requires Inv(s) && Enabled(s, a)
    ensures |Apply(s, a).contents| == |Apply(s, a).scopes| && HiddenAnchored(Apply(s, a))
  {
    var t := Apply(s, a);
    StepSound(s, a);
    hide Shape, Sound, Extends, Kept;
    if a.Safepoint? {
      SubmitHidden(s, a.p);
    } else {
      forall p: nat, v: Obj | p < |t.scopes| && Hidden(t.scopes[p]) && Some(v) in t.contents[p] ensures Anchored(t, p, v) {
        hide Apply, Enabled, Anchored;
        if (a.Park? || a.Put? || a.Pin?) && a.p == p {
          NewlyHeld(s, a, p, v);
        } else if a.TakeLocal? {
          LocalHidden(s, a.v, p, v);
        } else {
          ScopesHeld(s, a, p, v);
          StepExtends(s, a, p);
          ExtendsAnchored(s, t, p, v);
        }
      }
    }
  }

  lemma LocalHidden(s: State, x: Obj, p: nat, v: Obj)
    requires Inv(s) && Enabled(s, TakeLocal(x))
    ensures var t := Apply(s, TakeLocal(x));
            |t.contents| == |t.scopes| && (p < |t.scopes| && Hidden(t.scopes[p]) && Some(v) in t.contents[p] ==> Anchored(t, p, v))
  {
    var t := Apply(s, TakeLocal(x));
    if p <= |s.scopes| {
      StepExtends(s, TakeLocal(x), p);
      hide Shape, Sound, Extends, Kept, Anchored;
      if p < |t.scopes| && Hidden(t.scopes[p]) && Some(v) in t.contents[p] { ExtendsAnchored(s, t, p, v); }
    }
  }

  /** Every step keeps what every reachable state satisfies. */
  lemma StepInv(s: State, a: Action)
    requires Inv(s) && Enabled(s, a)
    ensures Inv(Apply(s, a))
  {
    hide Enabled, Apply, Sound, HiddenAnchored;
    StepShape(s, a);
    StepSound(s, a);
    StepHidden(s, a);
  }

  // ---- runs

  /** The program starts in a context of its own, with nothing allocated. */
  function Initial(c: nat): State { State([Frame(c)], [[]], [], map[], map[c := {}], {}) }

  ghost predicate Runs(s: State, run: seq<Action>, t: State)
    decreases |run|
  {
    if run == [] then t == s
    else |s.contents| == |s.scopes| > 0 && Enabled(s, run[0]) && Runs(Apply(s, run[0]), run[1..], t)
  }

  lemma InitialInv(c: nat)
    ensures Inv(Initial(c))
  {
    var s := Initial(c);
    assert s.scopes[..0] == [];
    assert !Live([], c) && Nests([]) && Calls([]) == 0;
    assert Nests(s.scopes) && Calls(s.scopes) == 0;
  }

  /** A value a primitive or a frame holds: in a traced slot or an operand, in
      slots outside the window, parked under a block, in a C++ local. */
  ghost predicate Held(s: State, v: Obj)
    requires |s.contents| == |s.scopes|
  {
    || InSlots(s, v) || InFrames(s, v)
    || exists p: nat :: p < |s.scopes| && Hidden(s.scopes[p]) && Some(v) in s.contents[p]
  }

  lemma {:induction false} RunInv(s: State, run: seq<Action>, t: State)
    requires Inv(s) && Runs(s, run, t)
    ensures Inv(t)
    decreases |run|
  {
    hide Inv, Enabled, Apply;
    if run != [] {
      StepInv(s, run[0]);
      RunInv(Apply(s, run[0]), run[1..], t);
    }
  }

  /** Over every run, whatever is collected and submitted, a value that is held
      has not been freed, nor has anything it reaches. */
  lemma NeverLost(c: nat, run: seq<Action>, t: State, v: Obj)
    requires Runs(Initial(c), run, t)
    ensures |t.contents| == |t.scopes|
    ensures Held(t, v) ==> Kept(t, v) && v in t.heap && t.heap[v].holds <= t.heap.Keys
  {
    InitialInv(c);
    hide Runs;
    RunInv(Initial(c), run, t);
    if Held(t, v) {
      if InSlots(t, v) || InFrames(t, v) {
        assert Root(t, v);
        RootKept(t, v);
      } else {
        var p: nat :| p < |t.scopes| && Hidden(t.scopes[p]) && Some(v) in t.contents[p];
        AnchoredKept(t, p, v);
      }
      KeptInHeap(t, v);
    }
  }

  // ---- what the source promises beyond that

  /** A submission hands over the chain of the frame whose outermost primitive
      runs under a permit, and nothing since its call is out of sight. */
  lemma SubmissionIsSafe(s: State, p: nat)
    requires Inv(s) && SlotsAt(s, p) && Submits(s, p)
    ensures var c := InnermostCall(s.scopes);
            && 0 < c < p && s.scopes[c].PrimitiveCall? && s.scopes[c - 1] == Frame(s.scopes[p].ctx)
            && forall q | c < q < |s.scopes| :: !s.scopes[q].PrimitiveCall? && !Hidden(s.scopes[q]) && s.scopes[q] != Nested(true)
    ensures TallyOf(s.scopes).permits > 0
  {
    TopAgrees(s);
    var c := CallAt(s.scopes);
    CallBelow(s.scopes, p);
    CallBelow(s.scopes, |s.scopes|);
    forall q | c < q < |s.scopes| ensures !s.scopes[q].PrimitiveCall? && !Hidden(s.scopes[q]) && s.scopes[q] != Nested(true) {
      NothingHidden(s.scopes, q);
      NoneNested(s.scopes, q);
    }
  }

  function InnermostCall(ss: seq<Scope>): nat { if Calls(ss) > 0 then CallAt(ss) else 0 }

  lemma {:induction false} NoneNested(ss: seq<Scope>, q: nat)
    requires Calls(ss) > 0 && CallAt(ss) < q < |ss| && TallyOf(ss).depth == 1
    ensures !ss[q].PrimitiveCall? && ss[q] != Nested(true)
    decreases |ss|
  {
    DepthPositive(ss[..|ss| - 1]);
    if q < |ss| - 1 { NoneNested(ss[..|ss| - 1], q); }
  }

  /** The windows are what the scopes make them, so when the scopes begun since
      have ended every counter is back. */
  lemma {:induction false} Restored(ss: seq<Scope>, ws: seq<Window>, ws1: seq<Window>, k: nat)
    requires Match(ss, ws) && Match(ss, ws1) && k < |ws|
    ensures |ws1| == |ws| && ws1[k].tally == ws[k].tally && ws1[k].frame == ws[k].frame
    decreases |ws|
  {
    if k < |ws| - 1 { Restored(ss[..CallAt(ss)], ws[..|ws| - 1], ws1[..|ws| - 1], k); }
  }

  /** Two CallerSlots in one window never share a slot. */
  lemma SlotsDisjoint(s: State, p: nat, q: nat)
    requires Inv(s) && p < q && SlotsAt(s, p) && SlotsAt(s, q) && WindowAt(s, p) == WindowAt(s, q)
    requires s.scopes[p].place.Traced? && s.scopes[q].place.Traced?
    ensures s.scopes[p].place.first + s.scopes[p].n <= s.scopes[q].place.first
    ensures 0 <= WindowAt(s, q) < |s.windows| && s.scopes[q].place.first + s.scopes[q].n <= |s.windows[WindowAt(s, q)].slots|
  {
    SlotsInside(s.scopes, s.windows, q);
    var pre := s.scopes[..q];
    NestsPrefix(s.scopes, q);
    FitsAt(s.scopes, q);
    CallsSplit(pre, p);
    assert pre[..p] == s.scopes[..p];
    NextCovers(pre, p);
  }
}
