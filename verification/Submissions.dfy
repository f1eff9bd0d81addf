/** When a safepoint of a caller's slots hands its young cells over, and what a
    collection may free, told by the scopes alone. */
module Submissions {
  import opened Options
  import opened Rooting
  import opened RootingProof
  import opened RootingRuns

  /** The innermost primitive call is at `c`, made by the frame `ctx`; the `p`-th
      scope is in it, under a permit, and no nested call counts, no block is
      held and no slots are untraced. */
  predicate InSight(ss: seq<Scope>, c: nat, p: nat, ctx: nat) {
    && 0 < c < p < |ss| && ss[c].PrimitiveCall? && ss[c - 1] == Frame(ctx)
    && (forall q | c < q < |ss| ::
          !ss[q].PrimitiveCall? && ss[q] != Nested(true) && !(ss[q].Block? && ss[q].held) && !(ss[q].Slots? && ss[q].place.Untraced?))
    && exists q :: c < q < |ss| && ss[q] == Permit(true)
  }

  /** The counters since the innermost call, told by the scopes. */
  lemma {:induction false} Counters(ss: seq<Scope>, c: nat)
    requires Nests(ss) && Calls(ss) > 0 && c == CallAt(ss)
    ensures TallyOf(ss).depth == 1 <==> forall q | c < q < |ss| :: ss[q] != Nested(true)
    ensures TallyOf(ss).permits > 0 <==> exists q :: c < q < |ss| && ss[q] == Permit(true)
    ensures TallyOf(ss).local == 0 <==>
              forall q | c < q < |ss| :: !(ss[q].Block? && ss[q].held) && !(ss[q].Slots? && ss[q].place.Untraced?)
    decreases |ss|
  {
    var init, x := ss[..|ss| - 1], ss[|ss| - 1];
    if !x.PrimitiveCall? {
      Counters(init, c);
      DepthPositive(init);
      assert forall q | c < q < |init| :: init[q] == ss[q];
      hide Nests, TallyOf;
    }
  }

  lemma CallPlace(ss: seq<Scope>, c: nat)
    requires c < |ss| && ss[c].PrimitiveCall? && forall q | c < q < |ss| :: !ss[q].PrimitiveCall?
    ensures Calls(ss) > 0 && CallAt(ss) == c
    decreases |ss|
  {
    if c < |ss| - 1 { CallPlace(ss[..|ss| - 1], c); }
  }

  lemma NoCallAfter(ss: seq<Scope>, q: nat)
    requires Calls(ss) > 0 && CallAt(ss) < q < |ss|
    ensures !ss[q].PrimitiveCall?
    decreases |ss|
  {
    if q < |ss| - 1 { NoCallAfter(ss[..|ss| - 1], q); }
  }

  /** A safepoint submits if and only if everything held is in sight: it counts
      one submission and empties the young chain, or changes nothing. */
  lemma SubmitsExactly(s: State, p: nat)
    requires Inv(s) && SlotsAt(s, p)
    ensures var ctx := s.scopes[p].ctx;
            Apply(s, Safepoint(p)) ==
            if exists c: nat :: InSight(s.scopes, c, p, ctx) then
              var k := |s.windows| - 1;
              assert k >= 0 by { WindowsThere(s, p); }
              s.(windows := s.windows[k := s.windows[k].(submissions := s.windows[k].submissions + 1)], young := s.young[ctx := {}])
            else s
  {
    if exists c: nat :: InSight(s.scopes, c, p, s.scopes[p].ctx) { WhenInSight(s, p); }
    if Submits(s, p) { OnlyInSight(s, p); }
  }

  lemma WindowsThere(s: State, p: nat)
    requires Inv(s) && SlotsAt(s, p) && exists c: nat :: InSight(s.scopes, c, p, s.scopes[p].ctx)
    ensures |s.windows| > 0
  {
    WhenInSight(s, p);
  }

  lemma OnlyInSight(s: State, p: nat)
    requires Inv(s) && SlotsAt(s, p) && Submits(s, p)
    ensures InSight(s.scopes, CallAt(s.scopes), p, s.scopes[p].ctx)
  {
    var ss := s.scopes;
    SubmissionIsSafe(s, p);
    TopAgrees(s);
    Counters(ss, CallAt(ss));
    forall q | CallAt(ss) < q < |ss| ensures !ss[q].PrimitiveCall? { NoCallAfter(ss, q); }
  }

  lemma WhenInSight(s: State, p: nat)
    requires Inv(s) && SlotsAt(s, p) && exists c: nat :: InSight(s.scopes, c, p, s.scopes[p].ctx)
    ensures Submits(s, p)
  {
    var ss := s.scopes;
    var c: nat :| InSight(ss, c, p, ss[p].ctx);
    CallPlace(ss, c);
    Counters(ss, c);
    CallBelow(ss, p);
    assert s.windows != [];
    TopAgrees(s);
  }

  /** What a collection may free: cells that nothing left refers to and that no
      traced slot, no frame, no young chain and nothing shared reaches. */
  lemma MayFree(s: State, dead: set<Obj>)
    requires |s.contents| == |s.scopes| > 0
    ensures Enabled(s, Collect(dead)) <==>
              && (forall o | o in s.heap && o !in dead :: s.heap[o].holds !! dead)
              && (forall r, v | r in s.heap && v in s.heap[r].holds && v in dead ::
                    && (forall k | 0 <= k < |s.windows| :: Some(r) !in s.windows[k].slots)
                    && (forall q | 0 <= q < |s.scopes| && s.scopes[q].Frame? :: Some(r) !in s.contents[q])
                    && (forall c | c in s.young :: r !in s.young[c])
                    && r !in s.shared)
  {
    forall r: Obj ensures Root(s, r) <==>
      || (exists k :: 0 <= k < |s.windows| && Some(r) in s.windows[k].slots)
      || (exists q :: 0 <= q < |s.scopes| && s.scopes[q].Frame? && Some(r) in s.contents[q])
      || (exists c :: c in s.young && r in s.young[c])
      || r in s.shared
    {
    }
    assert (forall v | v in dead :: !Kept(s, v)) <==> forall r: Obj, v: Obj | r in s.heap && v in s.heap[r].holds && v in dead :: !Root(s, r) by {
      forall r: Obj, v: Obj | Root(s, r) && r in s.heap && v in s.heap[r].holds ensures Kept(s, v) { assert Holds(s, r, v); }
    }
    hide Root, Kept;
  }

  /** What is published stays shared, and in the heap, until it is taken back. */
  lemma PublishedStays(s: State, a: Action, v: Obj)
    requires Inv(s) && Enabled(s, a)
    ensures var t := Apply(s, a);
            && (v in t.shared <==> a == Publish(v) || (v in s.shared && a != Unpublish(v)))
            && (v in t.shared ==> |t.contents| == |t.scopes| && Kept(t, v) && v in t.heap)
  {
    SharedChanges(s, a, v);
    StepInv(s, a);
    var t := Apply(s, a);
    hide Apply, Enabled;
    if v in t.shared {
      assert Root(t, v);
      assert Holds(t, v, v);
    }
  }

  lemma SharedChanges(s: State, a: Action, v: Obj)
    requires |s.contents| == |s.scopes| > 0
    ensures v in Apply(s, a).shared <==> a == Publish(v) || (v in s.shared && a != Unpublish(v))
  {
  }
}
