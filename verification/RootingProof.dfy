/** Every step keeps what every reachable state satisfies. */
module RootingProof {
  import opened Options
  import opened Rooting

  // ---- scopes and windows

  lemma Snoc(ss: seq<Scope>, x: Scope)
    ensures (ss + [x])[..|ss|] == ss
    ensures Calls(ss + [x]) == Calls(ss) + (if x.PrimitiveCall? then 1 else 0)
    ensures !x.PrimitiveCall? ==> TallyOf(ss + [x]) == Counted(TallyOf(ss), x)
    ensures NoLocals(ss + [x]) <==> x.PrimitiveCall? || (!x.Local? && NoLocals(ss))
    ensures Nests(ss + [x]) <==> Nests(ss) && Fits(ss, x)
    ensures Calls(ss) > 0 && !x.PrimitiveCall? ==> CallAt(ss + [x]) == CallAt(ss) && (ss + [x])[..CallAt(ss)] == ss[..CallAt(ss)]
    ensures x.PrimitiveCall? ==> CallAt(ss + [x]) == |ss| && TallyOf(ss + [x]) == Tally(1, 0, 0, 0)
  {
    assert (ss + [x])[..|ss|] == ss;
  }

  lemma LiveSnoc(ss: seq<Scope>, x: Scope, c: nat)
    ensures Live(ss + [x], c) <==> Live(ss, c) || x == Frame(c)
  {
    if Live(ss, c) {
      var p :| 0 <= p < |ss| && ss[p] == Frame(c);
      assert (ss + [x])[p] == Frame(c);
    }
    if x == Frame(c) { assert (ss + [x])[|ss|] == Frame(c); }
    if Live(ss + [x], c) && x != Frame(c) {
      var p :| 0 <= p < |ss + [x]| && (ss + [x])[p] == Frame(c);
      assert ss[p] == Frame(c);
    }
  }

  lemma LastOf(ss: seq<Scope>)
    requires ss != []
    ensures ss == ss[..|ss| - 1] + [ss[|ss| - 1]]
  {
  }

  /** A window whose counters moved with the scopes still agrees. */
  lemma MatchCounting(ss: seq<Scope>, ss1: seq<Scope>, ws: seq<Window>, w1: Window)
    requires Match(ss, ws) && ws != [] && Calls(ss1) == Calls(ss)
    requires CallAt(ss1) == CallAt(ss) && ss1[..CallAt(ss)] == ss[..CallAt(ss)]
    requires w1.frame == ws[|ws| - 1].frame && w1.tally == TallyOf(ss1) && w1.tally.next <= |w1.slots|
    requires forall j | w1.tally.next <= j < |w1.slots| :: w1.slots[j] == None
    ensures Match(ss1, ws[|ws| - 1 := w1])
  {
    var ws1 := ws[|ws| - 1 := w1];
    assert ws1[..|ws1| - 1] == ws[..|ws| - 1];
    var p := CallAt(ss);
    assert ss1[..p][p - 1] == ss[..p][p - 1];
  }

  lemma MatchNone(ss: seq<Scope>)
    requires Match(ss, []) || Calls(ss) == 0
    ensures Calls(ss) == 0 && Match(ss, [])
  {
  }

  /** Traced slots lie in their window's part in use. */
  lemma {:induction false} NextCovers(ss: seq<Scope>, p: nat)
    requires Nests(ss) && p < |ss| && ss[p].Slots? && ss[p].place.Traced? && Calls(ss[p..]) == 0
    ensures ss[p].place.first + ss[p].n <= TallyOf(ss).next
    decreases |ss|
  {
    if p < |ss| - 1 {
      var init := ss[..|ss| - 1];
      assert ss[p..][..|ss[p..]| - 1] == init[p..];
      NextCovers(init, p);
    }
  }

  lemma {:induction false} CallsSplit(ss: seq<Scope>, p: nat)
    requires p <= |ss|
    ensures Calls(ss) == Calls(ss[..p]) + Calls(ss[p..])
    decreases |ss| - p
  {
    if p < |ss| {
      var init := ss[..|ss| - 1];
      CallsSplit(init, p);
      assert init[..p] == ss[..p] && ss[p..][..|ss[p..]| - 1] == init[p..];
    } else {
      assert ss[..p] == ss && ss[p..] == [];
    }
  }

  /** The innermost call comes before every scope with none above it. */
  lemma {:induction false} CallBelow(ss: seq<Scope>, p: nat)
    requires p <= |ss| && Calls(ss) > 0
    ensures Calls(ss[p..]) == 0 <==> CallAt(ss) < p
    ensures Calls(ss[..p]) == Calls(ss) <==> CallAt(ss) < p
    decreases |ss|
  {
    CallsSplit(ss, p);
    if p == |ss| {
      assert ss[p..] == [];
    } else if !ss[|ss| - 1].PrimitiveCall? {
      var init := ss[..|ss| - 1];
      CallBelow(init, p);
      assert ss[p..][..|ss[p..]| - 1] == init[p..];
    }
  }

  lemma {:induction false} NestsPrefix(ss: seq<Scope>, p: nat)
    requires Nests(ss) && p <= |ss|
    ensures Nests(ss[..p])
    decreases |ss|
  {
    if p < |ss| {
      NestsPrefix(ss[..|ss| - 1], p);
      assert ss[..|ss| - 1][..p] == ss[..p];
    } else {
      assert ss[..p] == ss;
    }
  }

  lemma {:induction false} FitsAt(ss: seq<Scope>, p: nat)
    requires Nests(ss) && p < |ss|
    ensures Fits(ss[..p], ss[p])
    decreases |ss|
  {
    if p < |ss| - 1 {
      FitsAt(ss[..|ss| - 1], p);
      assert ss[..|ss| - 1][..p] == ss[..p];
    }
  }

  /** Where traced slots are. */
  lemma {:induction false} SlotsInside(ss: seq<Scope>, ws: seq<Window>, p: nat)
    requires Nests(ss) && Match(ss, ws) && p < |ss| && ss[p].Slots? && ss[p].place.Traced?
    ensures var k := Calls(ss[..p]) - 1; 0 <= k < |ws| && ss[p].place.first + ss[p].n <= ws[k].tally.next <= |ws[k].slots|
    decreases |ws|
  {
    FitsAt(ss, p);
    CallsSplit(ss, p);
    CallBelow(ss, p);
    if Calls(ss[p..]) == 0 {
      NextCovers(ss, p);
    } else {
      var q := CallAt(ss);
      assert ss[q].PrimitiveCall?;
      assert q != p;
      NestsPrefix(ss, q);
      assert ss[..q][..p] == ss[..p];
      SlotsInside(ss[..q], ws[..|ws| - 1], p);
    }
  }

  /** A slot in use may change. */
  lemma {:induction false} MatchStored(ss: seq<Scope>, ws: seq<Window>, k: nat, j: nat, v: Option<Obj>)
    requires Match(ss, ws) && k < |ws| && j < ws[k].tally.next <= |ws[k].slots|
    ensures Match(ss, ws[k := ws[k].(slots := ws[k].slots[j := v])])
    decreases |ws|
  {
    var ws1 := ws[k := ws[k].(slots := ws[k].slots[j := v])];
    if k < |ws| - 1 {
      MatchStored(ss[..CallAt(ss)], ws[..|ws| - 1], k, j, v);
      assert ws1[..|ws| - 1] == ws[..|ws| - 1][k := ws[k].(slots := ws[k].slots[j := v])];
    } else {
      assert ws1[..|ws| - 1] == ws[..|ws| - 1];
    }
  }

  /** A block in the current segment held or released. */
  lemma {:induction false} TallyHeld(ss: seq<Scope>, p: nat, held: bool)
    requires Nests(ss) && p < |ss| && ss[p].Block? && ss[p].held != held && Calls(ss[p..]) == 0
    ensures var ss1 := ss[p := ss[p].(held := held)];
            && Calls(ss1) == Calls(ss) && NoLocals(ss1) == NoLocals(ss) && Nests(ss1)
            && (forall c :: Live(ss1, c) <==> Live(ss, c))
            && TallyOf(ss1).depth == TallyOf(ss).depth && TallyOf(ss1).permits == TallyOf(ss).permits
            && TallyOf(ss1).next == TallyOf(ss).next
            && TallyOf(ss1).local == TallyOf(ss).local + (if !ss[p].counted then 0 else if held then 1 else -1)
            && (Calls(ss) > 0 ==> CallAt(ss1) == CallAt(ss) < p)
    decreases |ss|
  {
    var ss1 := ss[p := ss[p].(held := held)];
    var init, init1 := ss[..|ss| - 1], ss1[..|ss| - 1];
    forall c ensures Live(ss1, c) <==> Live(ss, c) {
      if Live(ss, c) {
        var q :| 0 <= q < |ss| && ss[q] == Frame(c);
        assert ss1[q] == Frame(c);
      }
      if Live(ss1, c) {
        var q :| 0 <= q < |ss1| && ss1[q] == Frame(c);
        assert ss[q] == Frame(c);
      }
    }
    if p < |ss| - 1 {
      assert init1 == init[p := init[p].(held := held)];
      assert ss[p..][..|ss[p..]| - 1] == init[p..];
      TallyHeld(init, p, held);
    } else {
      assert init1 == init;
    }
  }

  /** Without a window nothing is counted. */
  lemma {:induction false} NoWindow(ss: seq<Scope>)
    requires Nests(ss) && Calls(ss) == 0
    ensures TallyOf(ss) == Tally(1, 0, 0, 0)
  {
    if ss != [] { NoWindow(ss[..|ss| - 1]); }
  }

  lemma CurrentTally(s: State)
    requires Formed(s)
    ensures Current(s) == TallyOf(s.scopes) && (s.windows == [] <==> Calls(s.scopes) == 0)
  {
    if s.windows == [] { NoWindow(s.scopes); }
  }

  /** A scope begins. */
  lemma Entering(s: State, x: Scope, values: Contents)
    requires Formed(s) && !x.PrimitiveCall? && Fits(s.scopes, x)
    requires x.Slots? && x.place.Untraced? ==> |values| == x.n
    requires x.Block? && !x.held ==> values == []
    requires s.windows != [] ==> Counted(Current(s), x).next <= |s.windows[|s.windows| - 1].slots|
    ensures Formed(Counting(Enter(s, x, values), Counted(Current(s), x)))
    ensures forall c :: Live(s.scopes + [x], c) <==> Live(s.scopes, c) || x == Frame(c)
  {
    var s1 := Counting(Enter(s, x, values), Counted(Current(s), x));
    Snoc(s.scopes, x);
    CurrentTally(s);
    forall c ensures Live(s.scopes + [x], c) <==> Live(s.scopes, c) || x == Frame(c) { LiveSnoc(s.scopes, x, c); }
    if s.windows != [] {
      MatchCounting(s.scopes, s1.scopes, s.windows, s1.windows[|s.windows| - 1]);
    }
  }

  /** A scope that counts nothing begins. */
  lemma EnteringPlain(s: State, x: Scope, values: Contents)
    requires Formed(s) && !x.PrimitiveCall? && Fits(s.scopes, x) && Counted(TallyOf(s.scopes), x) == TallyOf(s.scopes)
    requires x.Slots? && x.place.Untraced? ==> |values| == x.n
    requires x.Block? && !x.held ==> values == []
    ensures Formed(Enter(s, x, values))
    ensures forall c :: Live(s.scopes + [x], c) <==> Live(s.scopes, c) || x == Frame(c)
  {
    CurrentTally(s);
    Entering(s, x, values);
    var s1 := Counting(Enter(s, x, values), Counted(Current(s), x));
    if s.windows != [] {
      assert s1.windows == s.windows;
    }
  }

  lemma EnteringCall(s: State, size: nat)
    requires Formed(s) && s.scopes[|s.scopes| - 1].Frame?
    ensures Formed(Apply(s, EnterCall(size)))
    ensures forall c :: Live(s.scopes + [PrimitiveCall], c) <==> Live(s.scopes, c)
  {
    var s1 := Apply(s, EnterCall(size));
    Snoc(s.scopes, PrimitiveCall);
    assert s1.windows[..|s1.windows| - 1] == s.windows;
    forall c ensures Live(s.scopes + [PrimitiveCall], c) <==> Live(s.scopes, c) { LiveSnoc(s.scopes, PrimitiveCall, c); }
  }

  function Left(s: State): State
    requires |s.contents| == |s.scopes| > 0
  {
    if s.scopes[|s.scopes| - 1].Frame? then Exit(s) else LeaveScope(s)
  }

  /** What the window is after its innermost scope has ended. */
  lemma LeftWindow(s: State)
    requires Formed(s) && |s.scopes| > 1 && !s.scopes[|s.scopes| - 1].PrimitiveCall?
    ensures Left(s).scopes == s.scopes[..|s.scopes| - 1] && Left(s).contents == s.contents[..|s.contents| - 1]
    ensures |Left(s).windows| == |s.windows|
    ensures s.windows != [] ==>
              var w, w1 := s.windows[|s.windows| - 1], Left(s).windows[|s.windows| - 1];
              && Left(s).windows == s.windows[|s.windows| - 1 := w1]
              && w1.frame == w.frame && w1.tally == TallyOf(s.scopes[..|s.scopes| - 1]) && w1.tally.next <= |w1.slots|
              && forall j | w1.tally.next <= j < |w1.slots| :: w1.slots[j] == None
  {
    hide Nests, Match;
    CurrentTally(s);
    var init, x := s.scopes[..|s.scopes| - 1], s.scopes[|s.scopes| - 1];
    FitsLast(s);
    if s.windows != [] {
      var w := s.windows[|s.windows| - 1];
      TopAgrees(s);
      assert TallyOf(s.scopes) == Counted(TallyOf(init), x);
      assert s.windows[|s.windows| - 1 := w] == s.windows;
    }
  }

  lemma FitsLast(s: State)
    requires Formed(s)
    ensures Nests(s.scopes[..|s.scopes| - 1]) && Fits(s.scopes[..|s.scopes| - 1], s.scopes[|s.scopes| - 1])
  {
  }

  lemma TopAgrees(s: State)
    requires Formed(s) && s.windows != []
    ensures Calls(s.scopes) > 0 && Agrees(s.windows[|s.windows| - 1], s.scopes)
  {
  }

  /** The innermost scope ends. */
  lemma Leaving(s: State)
    requires Formed(s) && |s.scopes| > 1
    ensures Formed(Left(s))
    ensures forall c | Live(s.scopes[..|s.scopes| - 1], c) :: Live(s.scopes, c)
  {
    var init, x := s.scopes[..|s.scopes| - 1], s.scopes[|s.scopes| - 1];
    LastOf(s.scopes);
    Snoc(init, x);
    CurrentTally(s);
    forall c | Live(init, c) ensures Live(s.scopes, c) { LiveSnoc(init, x, c); }
    if x.PrimitiveCall? {
      assert s.scopes[..|init|] == init;
    } else {
      LeftWindow(s);
      hide Left, Nests;
      FitsLast(s);
      if s.windows != [] {
        MatchCounting(s.scopes, init, s.windows, Left(s).windows[|s.windows| - 1]);
      } else {
        MatchNone(init);
      }
    }
  }

  /** A block is held or released. */
  lemma Holding(s: State, p: nat, held: bool, values: Contents)
    requires Formed(s) && BlockAt(s, p) && s.scopes[p].held != held && (!held ==> values == []) && (held ==> values == s.contents[p])
    ensures var t := Current(s);
            var s1 := s.(scopes := s.scopes[p := s.scopes[p].(held := held)], contents := s.contents[p := values]);
            Formed(if !s.scopes[p].counted then s1
                   else Counting(s1, t.(local := if held then t.local + 1 else Minus(t.local))))
    ensures forall c :: Live(s.scopes[p := s.scopes[p].(held := held)], c) <==> Live(s.scopes, c)
  {
    var ss1 := s.scopes[p := s.scopes[p].(held := held)];
    CurrentTally(s);
    TallyHeld(s.scopes, p, held);
    FitsAt(s.scopes, p);
    if s.windows != [] {
      var w := s.windows[|s.windows| - 1];
      assert ss1[..CallAt(s.scopes)] == s.scopes[..CallAt(s.scopes)];
      MatchCounting(s.scopes, ss1, s.windows, w.(tally := TallyOf(ss1)));
      assert s.windows[|s.windows| - 1 := w] == s.windows;
    }
  }

  /** A slot of a CallerSlots is set. */
  lemma Storing(s: State, p: nat, i: nat, v: Option<Obj>)
    requires Formed(s) && SlotsAt(s, p) && i < s.scopes[p].n
    ensures Formed(Store(s, p, i, v))
  {
    hide Nests, Match, TallyOf, Calls;
    if s.scopes[p].place.Traced? {
      SlotsInside(s.scopes, s.windows, p);
      MatchStored(s.scopes, s.windows, WindowAt(s, p), s.scopes[p].place.first + i, v);
    }
  }
}
