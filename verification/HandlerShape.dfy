/** The code of an exception handler, as a compiled `try` has it. */
module HandlerShape {
  import opened Bytecode

  /** Clauses from `p` on: each reads the exception in `ex`, tests it and jumps
      over its body to the next; a RETHROW ends them. */
  predicate ClausesAt(C: seq<Instr>, p: nat, ex: nat)
    decreases |C| - p
  {
    && p < |C|
    && (|| C[p] == Rethrow(ex)
        || (p + 2 < |C| && C[p] == PushLocal(ex) && C[p + 1].ExcMatch? && C[p + 2].JumpIfFalse? &&
            ClausesAt(C, p + 3 + C[p + 2].off, ex)))
  }

  function ClauseCount(C: seq<Instr>, p: nat, ex: nat): nat
    requires ClausesAt(C, p, ex)
    decreases |C| - p
  {
    if C[p] == Rethrow(ex) then 0 else 1 + ClauseCount(C, p + 3 + C[p + 2].off, ex)
  }

  predicate ReadsSlot(i: Instr, s: nat) { i == PushLocal(s) || i == PushLocalClear(s) }

  /** The forms of a `finally` from `p` on, which do not begin with the
      exception, and a RETHROW after them. */
  predicate FinallyAt(C: seq<Instr>, p: nat, ex: nat) {
    p < |C| && !ReadsSlot(C[p], ex) && exists q :: p <= q < |C| && C[q] == Rethrow(ex)
  }

  predicate HandlerCode(C: seq<Instr>, t: nat) {
    t < |C| && C[t].StoreCaught? && (ClausesAt(C, t + 1, C[t].slot) || FinallyAt(C, t + 1, C[t].slot))
  }
}
