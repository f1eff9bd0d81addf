/** Locals clearing as the compiler does it: one scan of the words, then one
    test per slot. */
module ClearingPass {
  import opened Bytecode
  import opened Assembler
  import opened LastReads

  /** What one scan learns of a slot. */
  datatype Use = Use(count: nat, readAt: nat, stores: seq<nat>, banned: bool)

  const UNUSED := Use(0, 0, [], false)

  function Of(uses: map<nat, Use>, s: nat): Use {
    if s in uses then uses[s] else UNUSED
  }

  /** The first `n` instructions' use of `s`. */
  ghost predicate Summary(C: seq<Instr>, n: nat, s: nat, u: Use)
    requires n <= |C|
  {
    && (u.count == 0 <==> forall i | 0 <= i < n :: C[i] != PushLocal(s))
    && (u.count == 1 ==> u.readAt < n && C[u.readAt] == PushLocal(s) && forall i | 0 <= i < n && i != u.readAt :: C[i] != PushLocal(s))
    && (u.count > 1 ==> exists i, j :: 0 <= i < j < n && C[i] == PushLocal(s) && C[j] == PushLocal(s))
    && (forall q: nat :: q in u.stores <==> q < n && Stores(C, q, s))
    && (u.banned <==> exists i :: 0 <= i < n && (C[i] == StoreCaught(s) || C[i] == Rethrow(s)))
  }

  /** The use of `s` after one more instruction. */
  function Seen(u: Use, C: seq<Instr>, n: nat, s: nat): Use
    requires n < |C|
  {
    match C[n]
    case PushLocal(x) => if x == s then Use(u.count + 1, n, u.stores, u.banned) else u
    case StoreLocal(x) => if x == s then Use(u.count, u.readAt, u.stores + [n], u.banned) else u
    case StoreCaught(x) => if x == s then Use(u.count, u.readAt, u.stores, true) else u
    case Rethrow(x) => if x == s then Use(u.count, u.readAt, u.stores, true) else u
    case _ => u
  }

  lemma SummaryStep(C: seq<Instr>, n: nat, s: nat, u: Use)
    requires n < |C| && Summary(C, n, s, u)
    ensures Summary(C, n + 1, s, Seen(u, C, n, s))
  {
    var v := Seen(u, C, n, s);
    if C[n] == PushLocal(s) {
      if u.count == 1 { assert C[u.readAt] == PushLocal(s) && u.readAt < n; }
    } else if u.count > 1 {
      var i, j :| 0 <= i < j < n && C[i] == PushLocal(s) && C[j] == PushLocal(s);
      assert 0 <= i < j < n + 1;
    }
    if v.banned {
      if u.banned {
        var i :| 0 <= i < n && (C[i] == StoreCaught(s) || C[i] == Rethrow(s));
        assert 0 <= i < n + 1;
      } else {
        assert C[n] == StoreCaught(s) || C[n] == Rethrow(s);
      }
    }
  }

  /** The loops of the first `n` instructions. */
  ghost predicate LoopsOf(C: seq<Instr>, n: nat, loops: seq<(nat, nat)>)
    requires n <= |C|
  {
    forall a: nat, j: nat :: (a, j) in loops <==> j < n && C[j].JumpBack? && Back(C, j) == a
  }

  /** One instruction noted, as the scan's switch does it. */
  method Note(uses: map<nat, Use>, loops: seq<(nat, nat)>, i: nat, op: Op, operand: nat, ghost C: seq<Instr>)
    returns (uses1: map<nat, Use>, loops1: seq<(nat, nat)>)
    requires i < |C| && (op == PUSH_LOCAL <==> C[i] == PushLocal(operand)) && (op == PUSH_LOCAL <==> C[i].PushLocal?)
    requires (op == STORE_LOCAL <==> C[i].StoreLocal?) && (C[i].StoreLocal? ==> C[i].slot == operand)
    requires (op == STORE_CAUGHT || op == RETHROW <==> C[i].StoreCaught? || C[i].Rethrow?)
    requires (C[i].StoreCaught? || C[i].Rethrow? ==> C[i].slot == operand)
    requires (op == JUMP_BACK <==> C[i].JumpBack?) && (C[i].JumpBack? ==> C[i].off == operand)
    ensures forall s :: Of(uses1, s) == Seen(Of(uses, s), C, i, s)
    ensures loops1 == if C[i].JumpBack? && Back(C, i) >= 0 then loops + [(Back(C, i), i)] else loops
  {
    uses1, loops1 := uses, loops;
    var u := Of(uses, operand);
    if op == PUSH_LOCAL {
      uses1 := uses[operand := Use(u.count + 1, i, u.stores, u.banned)];
    } else if op == STORE_LOCAL {
      uses1 := uses[operand := Use(u.count, u.readAt, u.stores + [i], u.banned)];
    } else if op == STORE_CAUGHT || op == RETHROW {
      uses1 := uses[operand := Use(u.count, u.readAt, u.stores, true)];
    } else if op == JUMP_BACK && operand <= i + 1 {
      loops1 := loops + [(i + 1 - operand, i)];
    }
  }

  /** Which slots are read, stored and caught where, and the loops. */
  method Scan(m: BytecodeModule) returns (uses: map<nat, Use>, loops: seq<(nat, nat)>)
    requires m.Valid()
    ensures forall s :: Summary(m.instrs, |m.instrs|, s, Of(uses, s))
    ensures LoopsOf(m.instrs, |m.instrs|, loops)
  {
    hide Decodes, Summary, LoopsOf;
    uses, loops := map[], [];
    ghost var C := m.instrs;
    NothingSeen(C);
    for i := 0 to |m.code|
      invariant forall s :: Summary(C, i, s, Of(uses, s))
      invariant LoopsOf(C, i, loops)
    {
      ghost var before, loops0 := uses, loops;
      ReadWord(m.code[i], m.consts, m.blocks, C[i]);
      uses, loops := Note(uses, loops, i, OpOf(OpField(m.code[i])), OperandField(m.code[i]), C);
      forall s ensures Summary(C, i + 1, s, Of(uses, s)) {
        assert Of(uses, s) == Seen(Of(before, s), C, i, s);
        SummaryStep(C, i, s, Of(before, s));
      }
      LoopNoted(C, i, loops0, loops);
    }
  }

  lemma NothingSeen(C: seq<Instr>)
    ensures forall s :: Summary(C, 0, s, Of(map[], s))
    ensures LoopsOf(C, 0, [])
  {
  }

  lemma LoopNoted(C: seq<Instr>, i: nat, loops: seq<(nat, nat)>, loops1: seq<(nat, nat)>)
    requires i < |C| && LoopsOf(C, i, loops)
    requires loops1 == if C[i].JumpBack? && Back(C, i) >= 0 then loops + [(Back(C, i), i)] else loops
    ensures LoopsOf(C, i + 1, loops1)
  {
    forall a: nat, j: nat ensures (a, j) in loops1 <==> j < i + 1 && C[j].JumpBack? && Back(C, j) == a {
      assert (a, j) in loops1 <==> (a, j) in loops || (C[i].JumpBack? && (a, j) == (Back(C, i), i));
    }
  }

  /** Whether every loop around the one read of a slot stores it too. */
  method ReadOnce(ghost C: seq<Instr>, ghost s: nat, u: Use, loops: seq<(nat, nat)>) returns (once: bool)
    requires u.count == 1 && Summary(C, |C|, s, u) && LoopsOf(C, |C|, loops)
    ensures once <==> forall j: nat | j < |C| && LoopOver(C, j, u.readAt) :: StoredIn(C, Back(C, j), j, s)
  {
    for i := 0 to |loops|
      invariant forall k | 0 <= k < i :: loops[k].0 <= u.readAt <= loops[k].1 ==> StoredIn(C, loops[k].0, loops[k].1, s)
    {
      var (from, to) := loops[i];
      if u.readAt < from || u.readAt > to { continue; }
      var rebound := false;
      for k := 0 to |u.stores|
        invariant rebound <==> exists x :: 0 <= x < k && from <= u.stores[x] <= to
      {
        if from <= u.stores[k] <= to { rebound := true; }
      }
      if rebound {
        var x :| 0 <= x < |u.stores| && from <= u.stores[x] <= to;
        assert u.stores[x] in u.stores;
      } else {
        assert loops[i] in loops;
        forall q: nat | q in u.stores ensures !(from <= q <= to) {}
        return false;
      }
    }
    forall j: nat | j < |C| && LoopOver(C, j, u.readAt) ensures StoredIn(C, Back(C, j), j, s) {
      assert (Back(C, j), j) in loops;
    }
    once := true;
  }

  /** `C` with the eligible count of the slots not in `left` clearing. */
  ghost predicate ClearedSoFar(C: seq<Instr>, arity: nat, caps: seq<Capture>, left: set<nat>, D: seq<Instr>) {
    |D| == |C| && forall i | 0 <= i < |C| ::
      D[i] == if Eligible(C, arity, caps, i) && C[i].slot !in left then PushLocalClear(C[i].slot) else C[i]
  }

  lemma EligibleUse(C: seq<Instr>, arity: nat, caps: seq<Capture>, s: nat, u: Use, captured: bool, once: bool)
    requires Summary(C, |C|, s, u) && (captured <==> exists i :: 0 <= i < |caps| && caps[i].localSlot == s)
    requires u.count == 1 ==> (once <==> forall j: nat | j < |C| && LoopOver(C, j, u.readAt) :: StoredIn(C, Back(C, j), j, s))
    ensures var ok := u.count == 1 && !u.banned && !captured && (s < arity || u.stores != []) && once;
            && (ok ==> Eligible(C, arity, caps, u.readAt) && C[u.readAt] == PushLocal(s))
            && (forall i | 0 <= i < |C| && C[i] == PushLocal(s) && Eligible(C, arity, caps, i) :: ok && i == u.readAt)
  {
    var ok := u.count == 1 && !u.banned && !captured && (s < arity || u.stores != []) && once;
    StoredSome(C, s, u);
    BannedUse(C, caps, s, u, captured);
    if u.count != 1 {
      forall i | 0 <= i < |C| && C[i] == PushLocal(s) ensures !Eligible(C, arity, caps, i) {
        if u.count > 1 {
          var a, b :| 0 <= a < b < |C| && C[a] == PushLocal(s) && C[b] == PushLocal(s);
          assert a != i || b != i;
        }
      }
    }
  }

  lemma StoredSome(C: seq<Instr>, s: nat, u: Use)
    requires Summary(C, |C|, s, u)
    ensures u.stores != [] <==> StoredIn(C, 0, |C| - 1, s)
  {
    if u.stores != [] { assert u.stores[0] in u.stores; }
    if StoredIn(C, 0, |C| - 1, s) {
      var q: nat :| 0 <= q <= |C| - 1 && Stores(C, q, s);
      assert q in u.stores;
    }
  }

  lemma BannedUse(C: seq<Instr>, caps: seq<Capture>, s: nat, u: Use, captured: bool)
    requires Summary(C, |C|, s, u) && (captured <==> exists i :: 0 <= i < |caps| && caps[i].localSlot == s)
    ensures Banned(C, caps, s) <==> u.banned || captured
  {
    if u.banned {
      var i :| 0 <= i < |C| && (C[i] == StoreCaught(s) || C[i] == Rethrow(s));
    }
  }

  /** clearLastReads: every eligible read of the finished body clears. */
  method ClearLastReads(m: BytecodeModule, arity: nat, caps: seq<Capture>)
    requires m.Valid()
    modifies m`code, m`instrs
    ensures m.Valid() && m.instrs == Cleared(old(m.instrs), arity, caps)
  {
    ghost var C := m.instrs;
    var uses, loops := Scan(m);
    var captured: set<nat> := set c | c in caps :: c.localSlot;
    assert forall s | s !in uses :: Of(uses, s).count == 0 && Summary(C, |C|, s, Of(uses, s));
    var left := uses.Keys;
    while left != {}
      invariant m.Valid() && left <= uses.Keys
      invariant forall s | s !in uses :: forall i | 0 <= i < |C| :: C[i] != PushLocal(s)
      invariant ClearedSoFar(C, arity, caps, left, m.instrs)
      decreases |left|
    {
      var s :| s in left;
      var u := uses[s];
      assert Of(uses, s) == u;
      ghost var was := left;
      left := left - {s};
      var once := false;
      if !u.banned && s !in captured && u.count == 1 && (s < arity || u.stores != []) {
        once := ReadOnce(C, s, u, loops);
      }
      CapturedSlots(caps, captured);
      OneSlot(C, arity, caps, s, u, once, s in captured, was, m.instrs);
      if once { m.PatchClear(u.readAt); }
    }
  }

  lemma CapturedSlots(caps: seq<Capture>, captured: set<nat>)
    requires captured == set c | c in caps :: c.localSlot
    ensures forall s :: s in captured <==> exists i :: 0 <= i < |caps| && caps[i].localSlot == s
  {
  }

  lemma OneSlot(C: seq<Instr>, arity: nat, caps: seq<Capture>, s: nat, u: Use, once: bool, captured: bool, left: set<nat>, D: seq<Instr>)
    requires Summary(C, |C|, s, u) && ClearedSoFar(C, arity, caps, left, D) && s in left
    requires captured <==> exists i :: 0 <= i < |caps| && caps[i].localSlot == s
    requires if !u.banned && !captured && u.count == 1 && (s < arity || u.stores != [])
             then once <==> forall j: nat | j < |C| && LoopOver(C, j, u.readAt) :: StoredIn(C, Back(C, j), j, s)
             else !once
    ensures once ==> u.readAt < |D| && D[u.readAt] == PushLocal(s)
    ensures ClearedSoFar(C, arity, caps, left - {s}, if once then D[u.readAt := PushLocalClear(s)] else D)
  {
    var all := u.count == 1 && forall j: nat | j < |C| && LoopOver(C, j, u.readAt) :: StoredIn(C, Back(C, j), j, s);
    EligibleUse(C, arity, caps, s, u, captured, all);
    hide Eligible, Summary;
    var E := if once then D[u.readAt := PushLocalClear(s)] else D;
    forall i | 0 <= i < |C|
      ensures E[i] == if Eligible(C, arity, caps, i) && C[i].slot !in left - {s} then PushLocalClear(C[i].slot) else C[i]
    {
      EligibleReads(C, arity, caps, i);
    }
  }

  lemma EligibleReads(C: seq<Instr>, arity: nat, caps: seq<Capture>, i: nat)
    ensures Eligible(C, arity, caps, i) ==> i < |C| && C[i].PushLocal?
  {
  }
}
