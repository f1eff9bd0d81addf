/** Locals clearing: reads of a local that cannot run twice on one binding
    empty its slot. */
module LastReads {
  import opened Bytecode

  function Back(C: seq<Instr>, j: nat): int
    requires j < |C| && C[j].JumpBack?
  {
    j + 1 - C[j].off
  }

  predicate Stores(C: seq<Instr>, i: nat, s: nat) { i < |C| && C[i] == StoreLocal(s) }

  predicate Banned(code: seq<Instr>, caps: seq<Capture>, s: nat) {
    || StoreCaught(s) in code || Rethrow(s) in code
    || exists i :: 0 <= i < |caps| && caps[i].localSlot == s
  }

  /** The JUMP_BACK at `j`, if it is one, jumps to `at` or before. */
  predicate LoopOver(code: seq<Instr>, j: nat, at: nat)
    requires j < |code|
  {
    code[j].JumpBack? && 0 <= Back(code, j) <= at <= j
  }

  predicate StoredIn(code: seq<Instr>, from: int, to: int, s: nat) {
    exists q: nat :: from <= q <= to && Stores(code, q, s)
  }

  /** The read at `at` is the only one of its slot, and every loop around it
      stores the slot. */
  predicate Eligible(code: seq<Instr>, arity: nat, caps: seq<Capture>, at: nat) {
    && at < |code| && code[at].PushLocal?
    && var s := code[at].slot;
    && (forall j | 0 <= j < |code| && j != at :: code[j] != PushLocal(s))
    && !Banned(code, caps, s)
    && (s < arity || StoredIn(code, 0, |code| - 1, s))
    && (forall j: nat | j < |code| && LoopOver(code, j, at) :: StoredIn(code, Back(code, j), j, s))
  }

  /** `code` with every eligible read clearing. */
  function Cleared(code: seq<Instr>, arity: nat, caps: seq<Capture>): seq<Instr> {
    seq(|code|, i requires 0 <= i < |code| =>
      if Eligible(code, arity, caps, i) then PushLocalClear(code[i].slot) else code[i])
  }

  /** `m` and every body in it, cleared. */
  function ClearedModule(m: Module): Module
    decreases m, 1
  {
    m.(code := seq(|m.code|, i requires 0 <= i < |m.code| => ClearedAt(m, i)))
  }

  function ClearedAt(m: Module, i: nat): Instr
    requires i < |m.code|
    decreases m, 0
  {
    if Eligible(m.code, m.arity, m.captures, i) then PushLocalClear(m.code[i].slot)
    else if m.code[i].MakeFn? then MakeFn(ClearedModule(m.code[i].body))
    else m.code[i]
  }

  /** The loop that ends at `j` and goes back `off` goes over `at` and stores
      `s` nowhere. */
  predicate RoundWithout(C: seq<Instr>, j: nat, at: nat, s: nat) {
    && at <= j < |C| && C[j].JumpBack? && C[j].off <= j + 1 <= at + C[j].off
    && forall q | j + 1 - C[j].off <= q <= j :: C[q] != StoreLocal(s)
  }

  /** Exactly which reads are cleared: the only one of its slot, a parameter's
      or a stored one's, that no catch clause and no capture uses, unless a loop
      over it leaves the slot as it is for its next round. */
  lemma ReadCleared(m: Module, at: nat, s: nat)
    requires at < |m.code| && m.code[at] == PushLocal(s)
    ensures ClearedModule(m).code[at] == PushLocalClear(s) <==>
              && (forall j | 0 <= j < |m.code| && j != at :: m.code[j] != PushLocal(s))
              && (forall j | 0 <= j < |m.code| :: m.code[j] != StoreCaught(s) && m.code[j] != Rethrow(s))
              && (forall j | 0 <= j < |m.captures| :: m.captures[j].localSlot != s)
              && (s < m.arity || exists j :: 0 <= j < |m.code| && m.code[j] == StoreLocal(s))
              && (forall j: nat :: !RoundWithout(m.code, j, at, s))
    ensures ClearedModule(m).code[at] == PushLocalClear(s) || ClearedModule(m).code[at] == PushLocal(s)
  {
    var C := m.code;
    assert Banned(C, m.captures, s) <==>
           (exists j :: 0 <= j < |C| && (C[j] == StoreCaught(s) || C[j] == Rethrow(s))) ||
           exists j :: 0 <= j < |m.captures| && m.captures[j].localSlot == s;
    forall j: nat ensures RoundWithout(C, j, at, s) <==> j < |C| && LoopOver(C, j, at) && !StoredIn(C, Back(C, j), j, s) {
      if j < |C| && LoopOver(C, j, at) {
        if StoredIn(C, Back(C, j), j, s) {
          var q: nat :| Back(C, j) <= q <= j && Stores(C, q, s);
          assert !RoundWithout(C, j, at, s);
        } else {
          forall q | Back(C, j) <= q <= j ensures C[q] != StoreLocal(s) { assert !Stores(C, q, s); }
        }
      }
    }
    assert StoredIn(C, 0, |C| - 1, s) <==> exists j :: 0 <= j < |C| && C[j] == StoreLocal(s) by { StoredAnywhere(C, s); }
  }

  lemma StoredAnywhere(C: seq<Instr>, s: nat)
    ensures StoredIn(C, 0, |C| - 1, s) <==> exists j :: 0 <= j < |C| && C[j] == StoreLocal(s)
  {
    if j :| 0 <= j < |C| && C[j] == StoreLocal(s) { assert Stores(C, j, s); }
  }
}
