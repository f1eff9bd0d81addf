/** The flow analysis that bounds the operand stack of a body, and why no run
    goes past its bound. */
module StackDepth {
  import opened Bytecode

  /** An instruction that may run next, and the depth of the stack there. */
  datatype Edge = Edge(to: nat, depth: int)

  /** Where instruction `i`, started at depth `d`, goes on; what it leaves. */
  function Edges(code: seq<Instr>, i: nat, d: int): seq<Edge>
    requires i < |code|
  {
    match code[i]
    case PushConst(_) => [Edge(i + 1, d + 1)]
    case PushNil => [Edge(i + 1, d + 1)]
    case PushTrue => [Edge(i + 1, d + 1)]
    case PushFalse => [Edge(i + 1, d + 1)]
    case PushVar(_) => [Edge(i + 1, d + 1)]
    case PushLocal(_) => [Edge(i + 1, d + 1)]
    case PushLocalClear(_) => [Edge(i + 1, d + 1)]
    case Dup => [Edge(i + 1, d + 1)]
    case Pop => [Edge(i + 1, d - 1)]
    case StoreLocal(_) => [Edge(i + 1, d - 1)]
    case StoreCaught(_) => [Edge(i + 1, d - 1)]
    case StoreGlobal(_) => [Edge(i + 1, d)]
    case TryEnd => [Edge(i + 1, d)]
    case ExcMatch(_) => [Edge(i + 1, d)]
    case Invoke(n) => [Edge(i + 1, d - n)]
    case MakeFn(m) => [Edge(i + 1, d + 1 - |m.captures|)]
    case Jump(off) => [Edge(i + 1 + off, d)]
    case JumpBack(off) => if off <= i + 1 then [Edge(i + 1 - off, d)] else []
    case JumpIfFalse(off) => [Edge(i + 1 + off, d - 1), Edge(i + 1, d - 1)]
    case JumpIfTrue(off) => [Edge(i + 1 + off, d - 1), Edge(i + 1, d - 1)]
    case TryBegin(off) => [Edge(i + 1 + off, d + 1), Edge(i + 1, d)]
    case Return => []
    case Raise => []
    case Rethrow(_) => []
  }

  /** The deepest the stack is while instruction `i` runs from depth `d`. */
  function Peak(i: Instr, d: int): int {
    if i.PushConst? || i.PushNil? || i.PushTrue? || i.PushFalse? || i.PushVar? || i.PushLocal? || i.PushLocalClear? ||
       i.Dup? || (i.MakeFn? && |i.body.captures| == 0)
    then d + 1 else d
  }

  /** `D` bounds the depth before every instruction (-1: never reached) and is
      kept by every instruction. */
  ghost predicate Consistent(code: seq<Instr>, D: seq<int>) {
    && |D| == |code|
    && (|code| > 0 ==> D[0] >= 0)
    && (forall i | 0 <= i < |code| :: D[i] >= -1)
    && (forall i | 0 <= i < |code| && D[i] >= 0 :: Kept(code, D, i))
  }

  ghost predicate Kept(code: seq<Instr>, D: seq<int>, i: nat)
    requires |D| == |code| && i < |code|
  {
    forall k | 0 <= k < |Edges(code, i, D[i])| :: Covered(D, Edges(code, i, D[i])[k])
  }

  /** What the analysis ignores: places past the end, and depths an underflow
      error keeps the VM from reaching. */
  predicate Covered(D: seq<int>, e: Edge) {
    e.to < |D| && e.depth >= 0 ==> e.depth <= D[e.to]
  }

  /** `b` is at least every depth reached under `D`. */
  ghost predicate Deepest(code: seq<Instr>, D: seq<int>, b: nat)
    requires |D| == |code|
  {
    forall i | 0 <= i < |code| && D[i] >= 0 :: Peak(code[i], D[i]) <= b
  }

  /** Some depth reached under `D` is at least `b`. */
  ghost predicate Attained(code: seq<Instr>, D: seq<int>, b: nat)
    requires |D| == |code|
  {
    b == 0 || exists i :: 0 <= i < |code| && D[i] >= 0 && Peak(code[i], D[i]) >= b
  }

  /** No consistent bound is below `D` anywhere. */
  ghost predicate Least(code: seq<Instr>, D: seq<int>) {
    forall B | Consistent(code, B) :: Below(D, B)
  }

  ghost predicate Below(D: seq<int>, B: seq<int>) {
    |D| == |B| && forall i | 0 <= i < |D| :: D[i] <= B[i]
  }

  lemma EdgesShift(code: seq<Instr>, i: nat, d: int, d1: int)
    requires i < |code|
    ensures |Edges(code, i, d1)| == |Edges(code, i, d)|
    ensures forall k | 0 <= k < |Edges(code, i, d)| ::
              Edges(code, i, d1)[k] == Edge(Edges(code, i, d)[k].to, Edges(code, i, d)[k].depth + d1 - d)
  {
  }

  /** How far depths may still grow under `B`. */
  ghost function Room(B: seq<int>, D: seq<int>): int
    requires |B| == |D|
  {
    if |B| == 0 then 0 else (B[0] - D[0]) + Room(B[1..], D[1..])
  }

  lemma {:induction false} RoomUpdate(B: seq<int>, D: seq<int>, i: nat, d: int)
    requires |B| == |D| && i < |D|
    ensures Room(B, D[i := d]) == Room(B, D) - d + D[i]
  {
    if i == 0 {
      assert D[0 := d][1..] == D[1..];
    } else {
      assert D[i := d][1..] == D[1..][i - 1 := d];
      RoomUpdate(B[1..], D[1..], i - 1, d);
    }
  }

  lemma {:induction false} RoomNonNegative(B: seq<int>, D: seq<int>)
    requires Below(D, B)
    ensures Room(B, D) >= 0
  {
    if |B| > 0 { RoomNonNegative(B[1..], D[1..]); }
  }

  /** The analysis part way: what is on neither the worklist nor `doing` is
      kept and counted in `b`. */
  ghost predicate Pending(code: seq<Instr>, D: seq<int>, work: seq<nat>, b: nat) {
    && |D| == |code|
    && (forall i | 0 <= i < |code| :: D[i] >= -1)
    && (forall k | 0 <= k < |work| :: work[k] < |code| && D[work[k]] >= 0)
    && (forall i | 0 <= i < |code| && D[i] >= 0 && i !in work :: Kept(code, D, i) && Peak(code[i], D[i]) <= b)
  }

  /** `reach`: the larger depth is recorded, and its instruction visited again. */
  method Reach(D: seq<int>, work: seq<nat>, at: nat, d: int) returns (D1: seq<int>, work1: seq<nat>)
    ensures at < |D| && d >= 0 && d > D[at] ==> D1 == D[at := d] && work1 == work + [at]
    ensures !(at < |D| && d >= 0 && d > D[at]) ==> D1 == D && work1 == work
  {
    D1, work1 := D, work;
    if at >= |D| || d < 0 { return; }
    if d <= D[at] { return; }
    D1 := D[at := d];
    work1 := work + [at];
  }

  /** `D1` is `D` after some calls of `reach`, all within bounds. */
  ghost predicate Raised(code: seq<Instr>, D: seq<int>, work: seq<nat>, D1: seq<int>, work1: seq<nat>) {
    && |D| == |D1| == |code| && Below(D, D1) && work <= work1
    && (forall k | |work| <= k < |work1| :: work1[k] < |code| && D1[work1[k]] >= 0)
    && (forall j | 0 <= j < |code| && D1[j] != D[j] :: j in work1)
    && (forall B | Consistent(code, B) && Below(D, B) :: Below(D1, B))
  }

  lemma RaisedOnce(code: seq<Instr>, D: seq<int>, i: nat, e: Edge, D1: seq<int>, work1: seq<nat>)
    requires |D1| == |D| == |code| && i < |code| && D[i] >= 0 && Below(D, D1)
    requires e in Edges(code, i, D[i]) && e.to < |D1| && e.depth >= 0 && e.depth > D1[e.to]
    requires forall B | Consistent(code, B) && Below(D, B) :: Below(D1, B)
    ensures forall B | Consistent(code, B) && Below(D, B) :: Below(D1[e.to := e.depth], B)
  {
    forall B | Consistent(code, B) && Below(D, B)
      ensures Below(D1[e.to := e.depth], B)
    {
      var k :| 0 <= k < |Edges(code, i, D[i])| && e == Edges(code, i, D[i])[k];
      EdgesShift(code, i, D[i], B[i]);
      assert Kept(code, B, i);
      assert Covered(B, Edges(code, i, B[i])[k]);
    }
  }

  ghost predicate Analysing(code: seq<Instr>, D: seq<int>, work: seq<nat>, b: nat) {
    && Pending(code, D, work, b) && (|code| > 0 ==> D[0] >= 0) && Attained(code, D, b)
    && (forall B | Consistent(code, B) :: Below(D, B))
  }

  lemma Analysed(code: seq<Instr>, D: seq<int>, b: nat)
    requires Analysing(code, D, [], b)
    ensures Consistent(code, D) && Least(code, D) && Deepest(code, D, b) && Attained(code, D, b)
  {
  }

  /** The depth before every instruction and the deepest of all, as
      computeMaxStack finds them with its worklist. `B` is any consistent
      bound; without one the analysis does not end
      (Counterexamples.NoBoundForRecurInArgument). */
  method ComputeMaxStack(code: seq<Instr>, ghost B: seq<int>) returns (deepest: nat, D: seq<int>)
    requires Consistent(code, B)
    ensures Consistent(code, D) && Least(code, D)
    ensures Deepest(code, D, deepest) && Attained(code, D, deepest)
  {
    D := seq(|code|, _ => -1);
    var work: seq<nat> := [];
    deepest := 0;
    D, work := Reach(D, work, 0, 0);
    assert Analysing(code, D, work, deepest);
    hide Analysing, Consistent, Edges, Peak, Room, Covered;
    while |work| > 0
      invariant Analysing(code, D, work, deepest)
      decreases Room(B, D), |work|
    {
      InBounds(code, D, work, deepest, B);
      var i := work[|work| - 1];
      ghost var work0, D0, b0 := work, D, deepest;
      work := work[..|work| - 1];
      if Peak(code[i], D[i]) > deepest { deepest := Peak(code[i], D[i]); }
      D, work := Follow(code, i, D, work, B);
      VisitedOne(code, D0, work0, b0, i, D, work, deepest);
    }
    assert work == [];
    Analysed(code, D, deepest);
  }

  lemma InBounds(code: seq<Instr>, D: seq<int>, work: seq<nat>, b: nat, B: seq<int>)
    requires Analysing(code, D, work, b) && Consistent(code, B)
    ensures |D| == |code| == |B| && Below(D, B) && Room(B, D) >= 0
    ensures |work| > 0 ==> work[|work| - 1] < |code| && D[work[|work| - 1]] >= 0
    ensures forall i, d | 0 <= i < |code| && d >= 0 :: Peak(code[i], d) >= 0
  {
    RoomNonNegative(B, D);
  }

  lemma VisitedOne(code: seq<Instr>, D: seq<int>, work: seq<nat>, b: nat, i: nat, D1: seq<int>, work1: seq<nat>, b1: nat)
    requires Analysing(code, D, work, b) && |work| > 0 && i == work[|work| - 1]
    requires |D| == |code| && i < |code| && Raised(code, D, work[..|work| - 1], D1, work1)
    requires forall k | 0 <= k < |Edges(code, i, D[i])| :: Covered(D1, Edges(code, i, D[i])[k])
    requires b1 == if Peak(code[i], D[i]) > b then Peak(code[i], D[i]) else b
    ensures Analysing(code, D1, work1, b1)
  {
    Visited(code, D, work, b, i, D1, work1, b1);
    hide Consistent, Edges, Peak, Pending, Attained;
  }

  /** Every successor of the instruction just taken is reached. */
  method Follow(code: seq<Instr>, i: nat, D: seq<int>, work: seq<nat>, ghost B: seq<int>)
    returns (D1: seq<int>, work1: seq<nat>)
    requires i < |code| == |D| && D[i] >= 0 && Consistent(code, B) && Below(D, B)
    ensures Raised(code, D, work, D1, work1)
    ensures forall k | 0 <= k < |Edges(code, i, D[i])| :: Covered(D1, Edges(code, i, D[i])[k])
    ensures Below(D1, B) && (if D1 == D then work1 == work else Room(B, D1) < Room(B, D))
  {
    D1, work1 := D, work;
    var es := Edges(code, i, D[i]);
    for k := 0 to |es|
      invariant Raised(code, D, work, D1, work1)
      invariant forall j | 0 <= j < k :: Covered(D1, es[j])
      invariant Below(D1, B) && (if D1 == D then work1 == work else Room(B, D1) < Room(B, D))
    {
      ghost var D2, work2 := D1, work1;
      D1, work1 := Reach(D1, work1, es[k].to, es[k].depth);
      RaisedMore(code, D, work, i, es[k], D2, work2, D1, work1, B);
    }
  }

  lemma RaisedMore(code: seq<Instr>, D: seq<int>, work: seq<nat>, i: nat, e: Edge,
                   D1: seq<int>, work1: seq<nat>, D2: seq<int>, work2: seq<nat>, B: seq<int>)
    requires i < |code| == |D| && D[i] >= 0 && e in Edges(code, i, D[i]) && Consistent(code, B) && Below(D, B)
    requires Raised(code, D, work, D1, work1)
    requires if e.to < |D1| && e.depth >= 0 && e.depth > D1[e.to]
             then D2 == D1[e.to := e.depth] && work2 == work1 + [e.to]
             else D2 == D1 && work2 == work1
    requires |B| == |D| && (if D1 == D then work1 == work else Room(B, D1) < Room(B, D))
    ensures Raised(code, D, work, D2, work2) && Covered(D2, e) && Below(D1, D2)
    ensures Below(D2, B) && (if D2 == D then work2 == work else Room(B, D2) < Room(B, D))
  {
    hide Consistent, Edges, Room;
    if D2 != D1 {
      RaisedOnce(code, D, i, e, D1, work1);
      RoomUpdate(B, D1, e.to, e.depth);
      assert D1[e.to] >= D[e.to];
      assert D2[e.to] != D[e.to];
    }
  }

  lemma Visited(code: seq<Instr>, D: seq<int>, work: seq<nat>, b: nat, i: nat, D1: seq<int>, work1: seq<nat>, b1: nat)
    requires Pending(code, D, work, b) && |work| > 0 && i == work[|work| - 1] && Attained(code, D, b)
    requires Raised(code, D, work[..|work| - 1], D1, work1)
    requires forall k | 0 <= k < |Edges(code, i, D[i])| :: Covered(D1, Edges(code, i, D[i])[k])
    requires b1 == if Peak(code[i], D[i]) > b then Peak(code[i], D[i]) else b
    ensures Pending(code, D1, work1, b1) && Attained(code, D1, b1)
  {
    forall j | 0 <= j < |code| && D1[j] >= 0 && j !in work1
      ensures Kept(code, D1, j) && Peak(code[j], D1[j]) <= b1
    {
      assert D1[j] == D[j];
      if j != i {
        assert work == work[..|work| - 1] + [i];
        assert Kept(code, D, j);
        forall k | 0 <= k < |Edges(code, j, D[j])| ensures Covered(D1, Edges(code, j, D[j])[k]) {
          assert Covered(D, Edges(code, j, D[j])[k]);
        }
      }
    }
    if b1 > 0 {
      var j := if b1 == b then
        var j :| 0 <= j < |code| && D[j] >= 0 && Peak(code[j], D[j]) >= b; j else i;
      assert Peak(code[j], D1[j]) >= b1;
    }
  }
}
