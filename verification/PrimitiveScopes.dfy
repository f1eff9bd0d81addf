/** The classes that keep a window's counters and slots: each method does to
    its window what the action it stands for does in Rooting. */
module PrimitiveScopes {
  import opened Options
  import opened Rooting
  import opened RootingProof

  const TICK_STRIDE: nat := 64

  /** A context, its young chain by the cells whose life rests on it. */
  class Context {
    const id: nat
    var young: set<Obj>

    constructor (i: nat)
      ensures id == i && young == {}
    {
      id, young := i, {};
    }

    method Safepoint()
      modifies this
      ensures young == {}
    {
      young := {};
    }

    method Anchor(v: Obj)
      modifies this
      ensures young == old(young) + {v}
    {
      young := young + {v};
    }
  }

  class PrimitiveWindow {
    const frame: Context
    const slots: array<Option<Obj>>
    var next: nat
    var depth: nat
    var local: nat
    var permits: nat
    var submissions: nat

    constructor (f: Context, free: array<Option<Obj>>)
      ensures frame == f && slots == free && Counts() == Tally(1, 0, 0, 0) && submissions == 0
    {
      frame, slots := f, free;
      next, depth, local, permits, submissions := 0, 1, 0, 0, 0;
    }

    function Counts(): Tally
      reads this
    {
      Tally(depth, permits, local, next)
    }

    ghost predicate Shows(w: Window)
      reads this, slots
    {
      frame.id == w.frame && Counts() == w.tally && slots[..] == w.slots && submissions == w.submissions
    }
  }

  /** One more activation on the current window. */
  class NestedPrimitiveScope {
    const window: PrimitiveWindow?

    constructor (current: PrimitiveWindow?)
      modifies current
      ensures window == current
      ensures current != null ==> current.Counts() == Counted(old(current.Counts()), Nested(true)) && current.submissions == old(current.submissions)
    {
      window := current;
      new;
      if window != null { window.depth := window.depth + 1; }
    }

    method Destroy()
      requires window != null ==> window.depth > 0
      modifies window
      ensures window != null ==> Counted(window.Counts(), Nested(true)) == old(window.Counts()) && window.submissions == old(window.submissions)
    {
      if window != null { window.depth := window.depth - 1; }
    }
  }

  /** The promise of a primitive's body, in effect for the outermost activation
      of the frame only. */
  class SafepointPermit {
    const window: PrimitiveWindow?

    constructor (c: Context, current: PrimitiveWindow?)
      modifies current
      ensures window == if current != null && current.frame == c && old(current.depth) == 1 then current else null
      ensures current != null ==> current.Counts() == Counted(old(current.Counts()), Permit(window != null))
      ensures current != null ==> current.submissions == old(current.submissions)
    {
      var counts := current != null && current.frame == c && current.depth == 1;
      window := if counts then current else null;
      new;
      if counts { current.permits := current.permits + 1; }
    }

    method Destroy()
      requires window != null ==> window.permits > 0
      modifies window
      ensures window != null ==> Counted(window.Counts(), Permit(true)) == old(window.Counts()) && window.submissions == old(window.submissions)
    {
      if window != null { window.permits := window.permits - 1; }
    }
  }

  /** Values in C++ storage that a submission would lose. */
  class SafepointBlock {
    const window: PrimitiveWindow?
    var held: bool

    constructor (current: PrimitiveWindow?)
      ensures window == current && !held
    {
      window, held := current, false;
    }

    /** Holding twice counts once. */
    method Hold()
      modifies this, window
      ensures held
      ensures window != null ==> window.Counts() == Counted(old(window.Counts()), Block(!old(held), true)) && window.submissions == old(window.submissions)
    {
      if !held {
        held := true;
        if window != null { window.local := window.local + 1; }
      }
    }

    method Release()
      requires window != null && held ==> window.local > 0
      modifies this, window
      ensures !held
      ensures window != null ==> Counted(window.Counts(), Block(old(held), true)) == old(window.Counts()) && window.submissions == old(window.submissions)
    {
      if held {
        held := false;
        if window != null { window.local := window.local - 1; }
      }
    }
  }

  /** What the program's scopes are around a primitive: `window` is current. */
  class Activation {
    var window: PrimitiveWindow?

    constructor (w: PrimitiveWindow?)
      ensures window == w
    {
      window := w;
    }

    ghost predicate Shows(s: State)
      reads this, window, if window != null then {window.slots} else {}
    {
      && |s.contents| == |s.scopes| > 0 && (window == null <==> s.windows == [])
      && (window != null ==> window.Shows(s.windows[|s.windows| - 1]))
    }
  }

  lemma FreeSlots(s: State)
    requires Formed(s) && s.windows != []
    ensures var w := s.windows[|s.windows| - 1];
            w.tally.next <= |w.slots| && forall j | w.tally.next <= j < |w.slots| :: w.slots[j] == None
  {
    TopAgrees(s);
  }

  /** What taking slots does, told apart by whether the window has room. */
  lemma Acquired(s: State, c: nat, n: nat)
    requires Formed(s) && n <= MAX_SLOTS
    ensures var t := Apply(s, Acquire(c, n));
            var start := if s.windows == [] then 0 else s.windows[|s.windows| - 1].submissions;
            && |t.contents| == |t.scopes| == |s.scopes| + 1 && t.young == s.young && |t.windows| == |s.windows|
            && WindowAt(t, |s.scopes|) == |s.windows| - 1
            && (if s.windows != [] && s.windows[|s.windows| - 1].tally.next + n <= |s.windows[|s.windows| - 1].slots| then
                  var w := s.windows[|s.windows| - 1];
                  && t.scopes[|s.scopes|] == Slots(c, n, Traced(w.tally.next), true, start)
                  && t.windows[|s.windows| - 1] == w.(tally := w.tally.(next := w.tally.next + n))
                else
                  && t.scopes[|s.scopes|] == Slots(c, n, Untraced, s.windows != [], start)
                  && t.contents[|s.scopes|] == seq(n, _ => None)
                  && (s.windows != [] ==>
                        var w := s.windows[|s.windows| - 1];
                        t.windows[|s.windows| - 1] == w.(tally := w.tally.(local := w.tally.local + 1))))
  {
    var t := Apply(s, Acquire(c, n));
    WindowOnTop(s, t.scopes[|s.scopes|], t);
    hide Formed, Calls;
  }

  /** Where the scope that begins has its window. */
  lemma WindowOnTop(s: State, x: Scope, t: State)
    requires Formed(s) && t.scopes == s.scopes + [x]
    ensures WindowAt(t, |s.scopes|) == |s.windows| - 1
  {
    assert t.scopes[..|s.scopes|] == s.scopes;
  }

  class CallerSlots {
    const ctx: Context
    const window: PrimitiveWindow?
    const n: nat
    const first: nat
    var ticks: nat
    const start: nat
    const traced: bool
    const local: array<Option<Obj>>

    /** This is the `p`-th scope of `s`. */
    ghost predicate Shows(s: State, p: nat)
      reads this, ctx, window, local, if window != null then {window.slots} else {}
    {
      && SlotsAt(s, p) && |s.contents| == |s.scopes| && local.Length == 8 && n <= 8
      && s.scopes[p] == Slots(ctx.id, n, if traced then Traced(first) else Untraced, window != null, start)
      && (traced ==> window != null && first + n <= window.slots.Length)
      && (window != null ==>
            && window.slots != local
            && 0 <= WindowAt(s, p) < |s.windows| && window.Shows(s.windows[WindowAt(s, p)])
            && (window.frame == ctx <==> window.frame.id == ctx.id))
      && (!traced ==> local[..n] == s.contents[p])
      && ctx.id in s.young && ctx.young == s.young[ctx.id]
    }

    /** Takes slots of the current window, or of its own when the window has
        too few left. */
    constructor (c: Context, count: nat, here: Activation, ghost s: State)
      requires count <= 8 && Formed(s) && here.Shows(s) && c.id in s.young && c.young == s.young[c.id]
      requires here.window != null ==> (here.window.frame == c <==> here.window.frame.id == c.id)
      modifies here.window, if here.window != null then {here.window.slots} else {}
      ensures Shows(Apply(s, Acquire(c.id, count)), |s.scopes|)
      ensures here.Shows(Apply(s, Acquire(c.id, count)))
      ensures ctx == c && window == here.window && ticks == 0 && fresh(local)
    {
      hide Formed, Calls, Apply, Live, Kept, WindowAt, NoLocals, Anchored;
      ctx, window, n, ticks := c, here.window, count, 0;
      var own := new Option<Obj>[MAX_SLOTS](_ => None);
      local := own;
      var room := here.window != null && here.window.next + count <= here.window.slots.Length;
      traced := room;
      first := if room then here.window.next else 0;
      start := if here.window != null then here.window.submissions else 0;
      new;
      Acquired(s, c.id, count);
      if window != null {
        FreeSlots(s);
        if traced { Clear(s.windows[|s.windows| - 1]); }
        if traced { window.next := window.next + count; } else { window.local := window.local + 1; }
      }
      assert local[..n] == seq(count, _ => None);
    }

    /** Clears slots that are free and so clear already. */
    method Clear(ghost w: Window)
      requires window != null && window.Shows(w) && first == window.next && first + n <= window.slots.Length
      requires forall j | w.tally.next <= j < |w.slots| :: w.slots[j] == None
      modifies window.slots
      ensures window.Shows(w) && window.slots[..] == w.slots
    {
      for i := 0 to n
        invariant window.slots[..] == w.slots
      {
        window.slots[first + i] := None;
        assert window.slots[..] == w.slots;
      }
    }
  
    method Set(i: nat, v: Option<Obj>, ghost s: State, ghost p: nat)
      requires Shows(s, p) && i < n
      modifies local, if window != null then {window.slots} else {}
      ensures Shows(Apply(s, Put(p, i, v)), p)
    {
      hide Calls;
      if traced { window.slots[first + i] := v; } else { local[i] := v; }
    }

    /** For a value another thread may drop. */
    method Pin(i: nat, v: Obj, ghost s: State, ghost p: nat)
      requires Shows(s, p) && i < n
      modifies ctx, local, if window != null then {window.slots} else {}
      ensures Shows(Apply(s, Rooting.Pin(p, i, v)), p)
    {
      hide Calls;
      Set(i, Some(v), s, p);
      if !traced { ctx.Anchor(v); }
    }

    /** `window` is the current one. */
    ghost predicate Inside(here: Activation, s: State, p: nat)
      requires p <= |s.scopes|
      reads here
    {
      window != null ==> (window == here.window <==> WindowAt(s, p) == |s.windows| - 1)
    }

    method Safepoint(here: Activation, ghost s: State, ghost p: nat)
      requires Shows(s, p) && Inside(here, s, p)
      modifies ctx, window
      ensures Shows(Apply(s, Rooting.Safepoint(p)), p)
    {
      hide Calls;
      if traced && window == here.window && window.frame == ctx && window.depth == 1 && window.permits > 0 && window.local == 0 {
        window.submissions := window.submissions + 1;
        ctx.Safepoint();
      }
    }

    /** One round of a loop. */
    method Tick(here: Activation, ghost s: State, ghost p: nat)
      requires Shows(s, p) && Inside(here, s, p)
      modifies this, ctx, window
      ensures ticks == old(ticks) + 1
      ensures Shows(if ticks % 64 == 0 then Apply(s, Rooting.Safepoint(p)) else s, p)
    {
      ticks := ticks + 1;
      hide Apply, Calls;
      if ticks % TICK_STRIDE == 0 { Safepoint(here, s, p); }
    }

    method Ret(v: Obj, ghost s: State, ghost p: nat) returns (r: Obj)
      requires Shows(s, p)
      modifies ctx
      ensures r == v && Shows(Apply(s, Rooting.Ret(p, v)), p)
    {
      hide Calls;
      if window != null && window.submissions != start { ctx.Anchor(v); }
      r := v;
    }

    /** The scope ends: its slots are cleared and given back. */
    method Destroy(ghost s: State, ghost p: nat)
      requires Formed(s) && Shows(s, p) && p == |s.scopes| - 1
      modifies local, window, if window != null then {window.slots} else {}
      ensures |Apply(s, Leave).windows| == |s.windows|
      ensures window != null ==> window.Shows(Apply(s, Leave).windows[|s.windows| - 1])
    {
      hide Formed, Calls;
      TopSlots(s);
      ghost var w := if window != null then s.windows[|s.windows| - 1] else Window(0, [], Tally(0, 0, 0, 0), 0);
      for i := 0 to n
        invariant window != null ==> window.frame.id == w.frame && window.Counts() == w.tally && window.submissions == w.submissions
        invariant window != null && !traced ==> window.slots[..] == w.slots
        invariant window != null && traced ==>
                    && (forall j | 0 <= j < window.slots.Length && !(first <= j < first + i) :: window.slots[j] == w.slots[j])
                    && (forall j | first <= j < first + i :: window.slots[j] == None)
      {
        if traced { window.slots[first + i] := None; } else { local[i] := None; }
      }
      if traced {
        window.next := first;
        assert window.slots[..] == Cleared(w, first).slots;
      } else if window != null {
        window.local := window.local - 1;
      }
    }
  }

  /** What the innermost CallerSlots took. */
  lemma TopSlots(s: State)
    requires Formed(s) && s.scopes[|s.scopes| - 1].Slots?
    ensures WindowAt(s, |s.scopes| - 1) == |s.windows| - 1
    ensures var x := s.scopes[|s.scopes| - 1];
            s.windows != [] && x.counted ==>
              var w := s.windows[|s.windows| - 1];
              if x.place.Traced? then w.tally.next == x.place.first + x.n && forall j | w.tally.next <= j < |w.slots| :: w.slots[j] == None
              else w.tally.local > 0
  {
    if s.windows != [] { TopAgrees(s); }
    CurrentTally(s);
    FitsLast(s);
  }
}
