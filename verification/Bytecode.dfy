/** Instructions and modules as the VM runs them, with pool operands resolved:
    `PushConst` carries its constant and `MakeFn` its body (Assembler.dfy
    relates them to the numbered pool). */
module Bytecode {
  import opened Syntax

  datatype Instr =
    | PushConst(c: Const)
    | PushNil | PushTrue | PushFalse
    | PushVar(name: string)
    | StoreGlobal(name: string)
    | PushLocal(slot: nat)
    | PushLocalClear(slot: nat)
    | StoreLocal(slot: nat)
    | Pop
    | Dup
    | Jump(off: nat)
    | JumpIfFalse(off: nat)
    | JumpIfTrue(off: nat)
    | JumpBack(off: nat)
    | Invoke(argc: nat)
    | MakeFn(body: Module)
    | Return
    | Raise
    | TryBegin(off: nat)
    | TryEnd
    | StoreCaught(slot: nat)
    | ExcMatch(classId: nat)
    | Rethrow(slot: nat)

  /** A closure capture: read from `parentSlot` of the enclosing frame when the
      fn is made, written to `localSlot` of its own frame when it is called. */
  datatype Capture = Capture(name: string, parentSlot: nat, localSlot: nat)

  datatype Module = Module(code: seq<Instr>, arity: nat, localCount: nat, captures: seq<Capture>)

  /** The most parameters one call binds. */
  const MAX_BOUND_PARAMETERS: nat := 17

  /** `piece` stands in `code` from `pos` on. */
  predicate CodeAt(code: seq<Instr>, pos: nat, piece: seq<Instr>) {
    pos + |piece| <= |code| && code[pos..pos + |piece|] == piece
  }

  lemma CodeAtSplit(code: seq<Instr>, pos: nat, a: seq<Instr>, b: seq<Instr>)
    requires CodeAt(code, pos, a + b)
    ensures CodeAt(code, pos, a) && CodeAt(code, pos + |a|, b)
  {
    var all := code[pos..pos + |a + b|];
    assert all[..|a|] == a && all[|a|..] == b;
    assert code[pos..pos + |a|] == all[..|a|];
    assert code[pos + |a|..pos + |a| + |b|] == all[|a|..];
  }

  lemma CodeAtHead(code: seq<Instr>, pos: nat, piece: seq<Instr>)
    requires CodeAt(code, pos, piece) && |piece| > 0
    ensures code[pos] == piece[0] && CodeAt(code, pos + 1, piece[1..])
  {
    assert piece == [piece[0]] + piece[1..];
    CodeAtSplit(code, pos, [piece[0]], piece[1..]);
    assert code[pos..pos + 1][0] == code[pos];
  }

  lemma CodeAtOne(code: seq<Instr>, pos: nat, i: Instr)
    requires CodeAt(code, pos, [i])
    ensures pos < |code| && code[pos] == i
  {
    CodeAtHead(code, pos, [i]);
  }
}
