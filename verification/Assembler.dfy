/** The module a body is assembled in: packed instruction words, a constant
    pool without duplicates, and the finished bodies of inner fns. */
module Assembler {
  import opened Syntax
  import opened Bytecode

  datatype Op =
    | PUSH_CONST | PUSH_VAR | CALL | POP | RETURN | STORE_GLOBAL | JUMP | JUMP_IF_FALSE | PUSH_NIL | PUSH_TRUE
    | PUSH_FALSE | PUSH_LOCAL | STORE_LOCAL | MAKE_FN | JUMP_BACK | DUP | JUMP_IF_TRUE | TRY_BEGIN | TRY_END
    | THROW | EXC_MATCH | RETHROW | STORE_CAUGHT | PUSH_LOCAL_CLEAR

  function Number(op: Op): nat {
    match op
    case PUSH_CONST => 1 case PUSH_VAR => 2 case CALL => 3 case POP => 4 case RETURN => 5 case STORE_GLOBAL => 6
    case JUMP => 7 case JUMP_IF_FALSE => 8 case PUSH_NIL => 9 case PUSH_TRUE => 10 case PUSH_FALSE => 11
    case PUSH_LOCAL => 12 case STORE_LOCAL => 13 case MAKE_FN => 14 case JUMP_BACK => 15 case DUP => 17
    case JUMP_IF_TRUE => 18 case TRY_BEGIN => 29 case TRY_END => 30 case THROW => 31 case EXC_MATCH => 32
    case RETHROW => 33 case STORE_CAUGHT => 38 case PUSH_LOCAL_CLEAR => 39
  }

  function OpOf(n: nat): Op {
    if n == 1 then PUSH_CONST else if n == 2 then PUSH_VAR else if n == 3 then CALL else if n == 4 then POP
    else if n == 5 then RETURN else if n == 6 then STORE_GLOBAL else if n == 7 then JUMP else if n == 8 then JUMP_IF_FALSE
    else if n == 10 then PUSH_TRUE else if n == 11 then PUSH_FALSE else if n == 12 then PUSH_LOCAL
    else if n == 13 then STORE_LOCAL else if n == 14 then MAKE_FN else if n == 15 then JUMP_BACK else if n == 17 then DUP
    else if n == 18 then JUMP_IF_TRUE else if n == 29 then TRY_BEGIN else if n == 30 then TRY_END else if n == 31 then THROW
    else if n == 32 then EXC_MATCH else if n == 33 then RETHROW else if n == 38 then STORE_CAUGHT
    else if n == 39 then PUSH_LOCAL_CLEAR else PUSH_NIL
  }

  lemma OpNumbered(op: Op)
    ensures OpOf(Number(op)) == op
  {
  }

  /** The largest operand: 24 bits, the opcode takes the low 8 of 32. */
  const MAX_OPERAND: nat := 0xFF_FFFF

  newtype word = w: int | 0 <= w < 0x1_0000_0000

  function Pack(op: Op, operand: nat): (w: word)
    requires operand <= MAX_OPERAND
    ensures OpField(w) == Number(op) && OperandField(w) == operand
  {
    (operand * 256 + Number(op)) as word
  }

  function OpField(w: word): nat { (w as int) % 256 }

  function OperandField(w: word): nat { (w as int) / 256 }

  datatype PoolConst = Atom(atom: int) | Symbol(name: string)

  /** A finished module, owned by the module of the body around it. */
  datatype Block = Block(code: seq<word>, consts: seq<PoolConst>, blocks: seq<Block>,
                         arity: nat, localCount: nat, captures: seq<Capture>)

  /** The instruction that takes its operand from no pool. */
  function Direct(op: Op, operand: nat): Instr {
    match op
    case CALL => Invoke(operand) case POP => Pop case RETURN => Return case JUMP => Jump(operand)
    case JUMP_IF_FALSE => JumpIfFalse(operand) case PUSH_NIL => PushNil case PUSH_TRUE => PushTrue
    case PUSH_FALSE => PushFalse case PUSH_LOCAL => PushLocal(operand) case STORE_LOCAL => StoreLocal(operand)
    case JUMP_BACK => JumpBack(operand) case DUP => Dup case JUMP_IF_TRUE => JumpIfTrue(operand)
    case TRY_BEGIN => TryBegin(operand) case TRY_END => TryEnd case THROW => Raise case EXC_MATCH => ExcMatch(operand)
    case RETHROW => Rethrow(operand) case STORE_CAUGHT => StoreCaught(operand) case PUSH_LOCAL_CLEAR => PushLocalClear(operand)
    case _ => PushNil
  }

  /** What `op` with `operand` means where the pool and inner bodies are these. */
  ghost predicate Means(op: Op, operand: nat, consts: seq<PoolConst>, blocks: seq<Block>, i: Instr)
    decreases blocks, 2
  {
    match op
    case PUSH_CONST => operand < |consts| && consts[operand].Atom? && i == PushConst(CAtom(consts[operand].atom))
    case PUSH_VAR => operand < |consts| && consts[operand].Symbol? && i == PushVar(consts[operand].name)
    case STORE_GLOBAL => operand < |consts| && consts[operand].Symbol? && i == StoreGlobal(consts[operand].name)
    case MAKE_FN => operand < |blocks| && i.MakeFn? && Holds(blocks[operand], i.body)
    case _ => i == Direct(op, operand)
  }

  /** `b` is the module `m`, numbered. */
  ghost predicate Holds(b: Block, m: Module)
    decreases b, 0
  {
    && m.arity == b.arity && m.localCount == b.localCount && m.captures == b.captures && |m.code| == |b.code|
    && forall k | 0 <= k < |b.code| :: Decodes(b.code[k], b.consts, b.blocks, m.code[k])
  }

  ghost predicate Decodes(w: word, consts: seq<PoolConst>, blocks: seq<Block>, i: Instr)
    decreases blocks, 3
  {
    Means(OpOf(OpField(w)), OperandField(w), consts, blocks, i)
  }

  /** A word keeps its meaning while pools grow. */
  lemma DecodesLater(w: word, consts: seq<PoolConst>, blocks: seq<Block>, i: Instr, consts1: seq<PoolConst>, blocks1: seq<Block>)
    requires Decodes(w, consts, blocks, i) && consts <= consts1 && blocks <= blocks1
    ensures Decodes(w, consts1, blocks1, i)
  {
  }

  predicate Patchable(i: Instr) { i.Jump? || i.JumpIfFalse? || i.JumpIfTrue? || i.JumpBack? || i.TryBegin? }

  function Retarget(i: Instr, off: nat): Instr
    requires Patchable(i)
  {
    match i
    case Jump(_) => Jump(off)
    case JumpIfFalse(_) => JumpIfFalse(off)
    case JumpIfTrue(_) => JumpIfTrue(off)
    case JumpBack(_) => JumpBack(off)
    case TryBegin(_) => TryBegin(off)
  }

  lemma Repack(w: word, operand: nat, consts: seq<PoolConst>, blocks: seq<Block>, i: Instr)
    requires Decodes(w, consts, blocks, i) && Patchable(i) && operand <= MAX_OPERAND
    ensures OpField(w) < 256 && operand * 256 + OpField(w) < 0x1_0000_0000
    ensures Decodes((operand * 256 + OpField(w)) as word, consts, blocks, Retarget(i, operand))
  {
    var v: word := (operand * 256 + OpField(w)) as word;
    assert OpField(v) == OpField(w) && OperandField(v) == operand;
  }

  lemma ReadWord(w: word, consts: seq<PoolConst>, blocks: seq<Block>, i: Instr)
    requires Decodes(w, consts, blocks, i)
    ensures OpOf(OpField(w)) == PUSH_LOCAL <==> i == PushLocal(OperandField(w))
    ensures OpOf(OpField(w)) == PUSH_LOCAL <==> i.PushLocal?
    ensures OpOf(OpField(w)) == STORE_LOCAL <==> i.StoreLocal?
    ensures i.StoreLocal? ==> i.slot == OperandField(w)
    ensures OpOf(OpField(w)) == STORE_CAUGHT || OpOf(OpField(w)) == RETHROW <==> i.StoreCaught? || i.Rethrow?
    ensures i.StoreCaught? || i.Rethrow? ==> i.slot == OperandField(w)
    ensures OpOf(OpField(w)) == JUMP_BACK <==> i.JumpBack?
    ensures i.JumpBack? ==> i.off == OperandField(w)
  {
  }

  lemma ClearedWord(w: word, consts: seq<PoolConst>, blocks: seq<Block>, i: Instr)
    requires Decodes(w, consts, blocks, i) && i.PushLocal?
    ensures OperandField(w) * 256 + Number(PUSH_LOCAL_CLEAR) < 0x1_0000_0000
    ensures Decodes((OperandField(w) * 256 + Number(PUSH_LOCAL_CLEAR)) as word, consts, blocks, PushLocalClear(i.slot))
  {
    ReadWord(w, consts, blocks, i);
    assert (w as int) / 256 < 0x100_0000;
    OpNumbered(PUSH_LOCAL_CLEAR);
  }

  /** The opcode numbers of the instructions that take nothing from a pool. */
  predicate Numbered(op: nat, n: nat, i: Instr) {
    || (op == 3 && i == Invoke(n)) || (op == 4 && i == Pop) || (op == 5 && i == Return) || (op == 7 && i == Jump(n))
    || (op == 8 && i == JumpIfFalse(n)) || (op == 9 && i == PushNil) || (op == 10 && i == PushTrue) || (op == 11 && i == PushFalse)
    || (op == 12 && i == PushLocal(n)) || (op == 13 && i == StoreLocal(n)) || (op == 15 && i == JumpBack(n)) || (op == 17 && i == Dup)
    || (op == 18 && i == JumpIfTrue(n)) || (op == 29 && i == TryBegin(n)) || (op == 30 && i == TryEnd) || (op == 31 && i == Raise)
    || (op == 32 && i == ExcMatch(n)) || (op == 33 && i == Rethrow(n)) || (op == 38 && i == StoreCaught(n))
    || (op == 39 && i == PushLocalClear(n))
  }

  /** A word's low eight bits are its opcode number, the others its operand. */
  lemma WordMeans(w: word, consts: seq<PoolConst>, blocks: seq<Block>, i: Instr)
    requires Numbered((w as int) % 256, (w as int) / 256, i)
    ensures forall j :: Decodes(w, consts, blocks, j) <==> j == i
  {
    hide Holds;
  }

  lemma PooledWordMeans(w: word, consts: seq<PoolConst>, blocks: seq<Block>, i: Instr)
    ensures var op, n := (w as int) % 256, (w as int) / 256;
            && (op == 1 ==> (Decodes(w, consts, blocks, i) <==> n < |consts| && consts[n].Atom? && i == PushConst(CAtom(consts[n].atom))))
            && (op == 2 ==> (Decodes(w, consts, blocks, i) <==> n < |consts| && consts[n].Symbol? && i == PushVar(consts[n].name)))
            && (op == 6 ==> (Decodes(w, consts, blocks, i) <==> n < |consts| && consts[n].Symbol? && i == StoreGlobal(consts[n].name)))
            && (op == 14 ==> (Decodes(w, consts, blocks, i) <==> n < |blocks| && i.MakeFn? && Holds(blocks[n], i.body)))
  {
    hide Holds;
  }

  /** A finished block is one module only. */
  lemma {:induction false} OneModule(b: Block, m: Module, m1: Module)
    requires Holds(b, m) && Holds(b, m1)
    ensures m == m1
    decreases b, 1
  {
    forall k | 0 <= k < |b.code| ensures m.code[k] == m1.code[k] {
      assert Decodes(b.code[k], b.consts, b.blocks, m.code[k]) && Decodes(b.code[k], b.consts, b.blocks, m1.code[k]);
      OneMeaning(b, b.code[k], m.code[k], m1.code[k]);
    }
    assert m.code == m1.code;
  }

  lemma {:induction false} OneMeaning(b: Block, w: word, i: Instr, j: Instr)
    requires Decodes(w, b.consts, b.blocks, i) && Decodes(w, b.consts, b.blocks, j)
    ensures i == j
    decreases b, 0
  {
    hide Holds;
    if OpOf(OpField(w)) == MAKE_FN { OneModule(b.blocks[OperandField(w)], i.body, j.body); }
  }

  datatype Failure = Refused(error: CompileError) | TooLarge(op: Op, operand: nat)

  datatype Status = Done | Failed(failure: Failure) {
    predicate IsFailure() { Failed? }
    function PropagateFailure(): Status requires Failed? { this }
  }

  datatype Placed = At(pos: nat) | NoRoom(failure: Failure) {
    predicate IsFailure() { NoRoom? }
    function PropagateFailure(): Status requires NoRoom? { Failed(failure) }
    function Extract(): nat requires At? { pos }
  }

  class BytecodeModule {
    var code: seq<word>
    var consts: seq<PoolConst>
    var atomIndex: map<int, nat>
    var symbolIndex: map<string, nat>
    var blocks: seq<Block>
    ghost var instrs: seq<Instr>   // what `code` means

    /** Every word means the instruction recorded; a constant is in the pool
        once, where its index says. */
    ghost predicate Valid()
      reads this
    {
      && |instrs| == |code|
      && (forall k | 0 <= k < |code| :: Decodes(code[k], consts, blocks, instrs[k]))
      && (forall a | a in atomIndex :: atomIndex[a] < |consts| && consts[atomIndex[a]] == Atom(a))
      && (forall s | s in symbolIndex :: symbolIndex[s] < |consts| && consts[symbolIndex[s]] == Symbol(s))
      && (forall k | 0 <= k < |consts| ::
            match consts[k]
            case Atom(a) => a in atomIndex && atomIndex[a] == k
            case Symbol(s) => s in symbolIndex && symbolIndex[s] == k)
    }

    constructor ()
      ensures Valid() && instrs == []
    {
      code, consts, atomIndex, symbolIndex, blocks, instrs := [], [], map[], map[], [], [];
    }

    function Pos(): (n: nat)
      reads this
      requires Valid()
      ensures n == |instrs|
    {
      |code|
    }

    /** Appends an instruction; one whose operand does not fit is refused. */
    method Emit(op: Op, operand: nat, ghost i: Instr) returns (r: Placed)
      requires Valid() && Means(op, operand, consts, blocks, i)
      modifies this`code, this`instrs
      ensures Valid()
      ensures operand < 0x100_0000 ==> r == At(|old(instrs)|) && instrs == old(instrs) + [i]
      ensures operand >= 0x100_0000 ==> r == NoRoom(TooLarge(op, operand)) && code == old(code) && instrs == old(instrs)
    {
      if operand > MAX_OPERAND { return NoRoom(TooLarge(op, operand)); }
      var w := Pack(op, operand);
      OpNumbered(op);
      code := code + [w];
      instrs := instrs + [i];
      return At(|code| - 1);
    }

    /** Replaces the operand of the jump at `at`. */
    method PatchOperand(at: nat, operand: nat) returns (r: Status)
      requires Valid() && at < |instrs| && Patchable(instrs[at])
      modifies this`code, this`instrs
      ensures Valid()
      ensures operand < 0x100_0000 ==> r == Done && instrs == old(instrs)[at := Retarget(old(instrs)[at], operand)]
      ensures operand >= 0x100_0000 ==>
                r.Failed? && r.failure.TooLarge? && r.failure.operand == operand && code == old(code) && instrs == old(instrs)
    {
      hide Decodes;
      var n := OpField(code[at]);
      if operand > MAX_OPERAND { return Failed(TooLarge(OpOf(n), operand)); }
      Repack(code[at], operand, consts, blocks, instrs[at]);
      code := code[at := (operand * 256 + n) as word];
      instrs := instrs[at := Retarget(instrs[at], operand)];
      return Done;
    }

    /** Replaces the opcode of the read of a local at `at`. */
    method PatchClear(at: nat)
      requires Valid() && at < |instrs| && instrs[at].PushLocal?
      modifies this`code, this`instrs
      ensures Valid() && instrs == old(instrs)[at := PushLocalClear(old(instrs)[at].slot)]
    {
      hide Decodes;
      var n := OperandField(code[at]);
      ClearedWord(code[at], consts, blocks, instrs[at]);
      code := code[at := (n * 256 + Number(PUSH_LOCAL_CLEAR)) as word];
      instrs := instrs[at := PushLocalClear(instrs[at].slot)];
    }

    /** The pool index of a constant, added if it is new. */
    method AddAtom(a: int) returns (k: nat)
      requires Valid()
      modifies this`consts, this`atomIndex
      ensures Valid() && k < |consts| && consts[k] == Atom(a) && old(consts) <= consts
      ensures Atom(a) in old(consts) ==> consts == old(consts)
    {
      if a in atomIndex { return atomIndex[a]; }
      k := |consts|;
      GrowPool(this, consts + [Atom(a)], blocks);
      consts, atomIndex := consts + [Atom(a)], atomIndex[a := k];
    }

    method AddSymbol(s: string) returns (k: nat)
      requires Valid()
      modifies this`consts, this`symbolIndex
      ensures Valid() && k < |consts| && consts[k] == Symbol(s) && old(consts) <= consts
      ensures Symbol(s) in old(consts) ==> consts == old(consts)
    {
      if s in symbolIndex { return symbolIndex[s]; }
      k := |consts|;
      GrowPool(this, consts + [Symbol(s)], blocks);
      consts, symbolIndex := consts + [Symbol(s)], symbolIndex[s := k];
    }

    method AddBlock(b: Block) returns (k: nat)
      requires Valid()
      modifies this`blocks
      ensures Valid() && k < |blocks| && blocks[k] == b && old(blocks) <= blocks
    {
      k := |blocks|;
      GrowPool(this, consts, blocks + [b]);
      blocks := blocks + [b];
    }
  }

  /** The finished module as a block. */
  method Freeze(m: BytecodeModule, arity: nat, localCount: nat, captures: seq<Capture>) returns (b: Block)
    requires m.Valid()
    ensures Holds(b, Module(m.instrs, arity, localCount, captures))
  {
    b := Block(m.code, m.consts, m.blocks, arity, localCount, captures);
  }

  /** What the words mean does not change when a pool grows. */
  lemma GrowPool(m: BytecodeModule, consts1: seq<PoolConst>, blocks1: seq<Block>)
    requires m.Valid() && m.consts <= consts1 && m.blocks <= blocks1
    ensures forall k | 0 <= k < |m.code| :: Decodes(m.code[k], consts1, blocks1, m.instrs[k])
  {
    forall k | 0 <= k < |m.code| ensures Decodes(m.code[k], consts1, blocks1, m.instrs[k]) {
      DecodesLater(m.code[k], m.consts, m.blocks, m.instrs[k], consts1, blocks1);
    }
  }
}
