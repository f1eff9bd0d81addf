/** How compiled code lays out locals: where each is bound, read and rebound,
    and how control can move between those places. */
module Layout {
  import opened Options
  import opened Syntax
  import opened Bytecode
  import opened Codegen
  import opened Scoping
  import opened HandlerShape
  import opened LastReads

  /** Control may go on from `i` to `t`, other than by a JUMP_BACK. */
  predicate Forward(C: seq<Instr>, i: nat, t: nat)
    requires i < |C|
  {
    match C[i]
    case Jump(off) => t == i + 1 + off
    case JumpIfFalse(off) => t == i + 1 || t == i + 1 + off
    case JumpIfTrue(off) => t == i + 1 || t == i + 1 + off
    case TryBegin(off) => t == i + 1 || t == i + 1 + off
    case JumpBack(_) => false
    case Return => false
    case Raise => false
    case Rethrow(_) => false
    case _ => t == i + 1
  }

  /** The TRY_BEGINs of the handlers active at `t`, coming from `i`. */
  function ActiveAt(C: seq<Instr>, i: nat, t: nat, active: seq<nat>): seq<nat>
    requires i < |C|
  {
    if C[i].TryBegin? && t == i + 1 then active + [i]
    else if C[i].TryEnd? && |active| > 0 then active[..|active| - 1]
    else active
  }

  /** A stretch [lo, hi) of code that binds slots in [n, n1). */
  datatype Part = Part(lo: nat, hi: nat, n: nat, n1: nat)

  predicate Within(C: seq<Instr>, p: Part) { p.lo <= p.hi <= |C| && p.n <= p.n1 }

  /** Handlers active at each place, and at the places the part jumps out to. */
  type Active = map<nat, seq<nat>>

  ghost predicate Over(p: Part, H: Active) { forall i: nat :: i in H <==> p.lo <= i <= p.hi }

  ghost predicate MoveOk(C: seq<Instr>, p: Part, H: Active, Ex: Active, i: nat, t: nat)
    requires i < |C| && i in H
  {
    && i < t
    && (if t <= p.hi then t in H && H[t] == ActiveAt(C, i, t, H[i]) else t in Ex && Ex[t] == ActiveAt(C, i, t, H[i]))
  }

  /** Control moves forward, inside the part or to a known place after it. */
  ghost predicate Moves(C: seq<Instr>, p: Part, H: Active, Ex: Active)
    requires Within(C, p) && Over(p, H)
  {
    && (forall x: nat | x in Ex :: x > p.hi)
    && (forall i: nat, t: nat | p.lo <= i < p.hi && Forward(C, i, t) :: MoveOk(C, p, H, Ex, i, t))
    && (forall i: nat | p.lo <= i < p.hi && C[i].TryEnd? :: |H[i]| > 0)
  }

  /** The `k`-th handler active at `i` is one active when the part starts, or
      was set up in the part, on top of those active there. */
  ghost predicate GuardOk(C: seq<Instr>, p: Part, H: Active, i: nat, k: nat)
    requires p.lo in H && i in H && k < |H[i]|
  {
    var b := H[i][k];
    if b < p.lo then H[i][..k + 1] <= H[p.lo]
    else b < i && b < |C| && C[b].TryBegin? && i < b + 1 + C[b].off && b in H && H[i][..k] == H[b]
  }

  /** A handler is active only between its TRY_BEGIN and its code. */
  ghost predicate Guarded(C: seq<Instr>, p: Part, H: Active)
    requires Within(C, p) && Over(p, H)
  {
    forall i: nat, k: nat | p.lo <= i <= p.hi && k < |H[i]| :: GuardOk(C, p, H, i, k)
  }

  /** A part that only takes handlers away. */
  lemma GuardedBelow(C: seq<Instr>, p: Part, H: Active)
    requires Within(C, p) && Over(p, H) && (forall b | b in H[p.lo] :: b < p.lo)
    requires forall i: nat | p.lo <= i <= p.hi :: H[i] <= H[p.lo]
    ensures Guarded(C, p, H)
  {
    forall i: nat, k: nat | p.lo <= i <= p.hi && k < |H[i]| ensures GuardOk(C, p, H, i, k) {
      assert H[i][k] == H[p.lo][k] && H[p.lo][k] in H[p.lo];
    }
  }

  predicate NoStore(C: seq<Instr>, from: int, to: int, s: nat) {
    forall q | from <= q <= to && 0 <= q :: !Stores(C, q, s)
  }

  /** Nothing in the part jumps into (a, j]. */
  ghost predicate Sealed(C: seq<Instr>, p: Part, a: nat, j: nat)
    requires Within(C, p)
  {
    && (forall i: nat, t: nat | p.lo <= i < p.hi && Forward(C, i, t) && t != i + 1 :: !(a < t <= j))
    && (forall i | p.lo <= i < p.hi && C[i].JumpBack? :: !(a < Back(C, i) <= j))
  }

  /** The stores of a `recur` from `a` up to its JUMP_BACK at `j`. */
  ghost predicate Run(C: seq<Instr>, p: Part, a: nat, j: nat)
    requires Within(C, p)
  {
    && p.lo <= a <= j < p.hi && C[j].JumpBack?
    && (forall q | a <= q < j :: C[q].StoreLocal?)
    && Sealed(C, p, a, j)
  }

  /** The `recur` that jumps back at `j` rebinds `s`. */
  ghost predicate Rebinds(C: seq<Instr>, p: Part, j: nat, s: nat)
    requires Within(C, p)
  {
    exists a: nat, q: nat :: Run(C, p, a, j) && a <= q < j && Stores(C, q, s)
  }

  /** Jumps back stay in the part and pass no store of an outer slot they do
      not rebind, or are recurs to `rt`. */
  ghost predicate BackOk(C: seq<Instr>, p: Part, rt: Target, H: Active, j: nat)
    requires Within(C, p) && j < |C| && C[j].JumpBack? && Over(p, H)
    requires p.lo <= j < p.hi
  {
    var t := Back(C, j);
    || (p.lo <= t && t <= j && H[t] == H[j] && (forall s | 0 <= s < p.n :: Rebinds(C, p, j, s) || NoStore(C, t, j, s)))
    || (rt.Target? && t == rt.start && t <= j && H[j] == H[p.lo] && (forall s | s in rt.slots :: Rebinds(C, p, j, s)))
  }

  ghost predicate Backs(C: seq<Instr>, p: Part, rt: Target, H: Active)
    requires Within(C, p) && Over(p, H)
  {
    forall j | p.lo <= j < p.hi && C[j].JumpBack? :: BackOk(C, p, rt, H, j)
  }

  predicate Loops(rt: Target, s: nat) { rt.Target? && s in rt.slots }

  /** Slots the part touches: it stores its own, `rt`'s and those in `own`; it
      reads its own and those in `named`. Handlers are a `try`'s. */
  ghost predicate Touches(C: seq<Instr>, fin: Scope, p: Part, rt: Target, own: set<nat>, named: set<nat>)
    requires Within(C, p)
  {
    && (forall i: nat, s: nat | p.lo <= i < p.hi && Stores(C, i, s) ::
          s < p.n1 && NotCapture(s, fin) && (p.n <= s || Loops(rt, s) || s in own))
    && (forall i | p.lo <= i < p.hi && C[i].PushLocal? ::
          C[i].slot < p.n1 && (p.n <= C[i].slot || C[i].slot in named))
    && (forall i | p.lo <= i < p.hi :: !C[i].PushLocalClear? && (C[i].MakeFn? ==> Made(C[i].body)))
    && (forall i | p.lo <= i < p.hi && C[i].TryBegin? :: HandlerCode(C, i + 1 + C[i].off))
  }

  /** `m` is the body of a fn, compiled in the scopes around it. */
  ghost predicate Made(m: Module) {
    exists params, body, sc :: MadeFrom(m, params, body, sc)
  }

  ghost predicate MadeFrom(m: Module, params: seq<string>, body: seq<Form>, sc: Scopes) {
    && WellFormed(sc) && CheckAll(body, 0, InLoop(|params|, false), false) == None
    && m == FnModule(CompileFn(params, body, sc), |params|)
  }

  /** `s` is bound at `st` and seen up to `he`: it is stored before it is read,
      control enters its scope through `st` only, and comes back into it only
      by a recur that rebinds `s` or a loop that does not bind it. */
  ghost predicate Span(C: seq<Instr>, p: Part, s: nat, st: nat, he: nat)
    requires Within(C, p)
  {
    && p.lo <= st < he <= p.hi && Stores(C, st, s)
    && (forall i | p.lo <= i < p.hi && Stores(C, i, s) :: st <= i < he)
    && (forall i | p.lo <= i < p.hi && C[i] == PushLocal(s) :: st < i < he)
    && (forall i: nat, t: nat | p.lo <= i < st && Forward(C, i, t) :: t <= st || t >= he)
    && (forall j | p.lo <= j < p.hi && C[j].JumpBack? ::
          Back(C, j) <= st || Back(C, j) >= he || Rebinds(C, p, j, s) || NoStore(C, Back(C, j), j, s))
  }

  ghost predicate Spans(C: seq<Instr>, p: Part)
    requires Within(C, p)
  {
    forall s: nat, i: nat | p.n <= s && p.lo <= i < p.hi && Stores(C, i, s) :: exists st: nat, he: nat :: Span(C, p, s, st, he)
  }

  ghost predicate Tidy(C: seq<Instr>, fin: Scope, p: Part, rt: Target, own: set<nat>, named: set<nat>, H: Active, Ex: Active) {
    && Within(C, p) && Over(p, H) && Moves(C, p, H, Ex) && Guarded(C, p, H) && Backs(C, p, rt, H)
    && Touches(C, fin, p, rt, own, named) && Spans(C, p)
  }

  /** The target and the slots around a part come before it. */
  ghost predicate Around(p: Part, rt: Target, own: set<nat>) {
    && (rt.Target? ==> rt.start <= p.lo && forall s | s in rt.slots :: s < p.n)
    && (forall s | s in own :: s < p.n)
  }

  /** `q` follows `p` and fits it. */
  ghost predicate Joins(C: seq<Instr>, p: Part, q: Part, H: Active, Ex: Active, Hq: Active, Exq: Active, named: set<nat>, namedq: set<nat>)
    requires Within(C, p) && Within(C, q) && Over(p, H) && Over(q, Hq)
  {
    && q.lo == p.hi && p.n1 <= q.n && H[p.hi] == Hq[q.lo]
    && (forall x: nat | x in Ex :: if x == q.hi then Ex[x] == Hq[x] else x > q.hi)
    && (forall x: nat | x in Ex && x in Exq :: Ex[x] == Exq[x])
    && (forall s: nat | s in namedq && s !in named :: forall i: nat | p.lo <= i < p.hi :: !Stores(C, i, s))
    && (forall s: nat | s in namedq :: s < q.n)
    && (forall b: nat | b in H[p.hi] && p.lo <= b :: b < |C| && C[b].TryBegin? && q.hi < b + 1 + C[b].off)
  }

  function Both(p: Part, q: Part): Part { Part(p.lo, q.hi, p.n, q.n1) }

  function Outs(Ex: Active, Exq: Active, hi: nat): Active {
    map x: nat | x in Ex.Keys + Exq.Keys && x > hi :: if x in Exq then Exq[x] else Ex[x]
  }

  lemma MovesJoin(C: seq<Instr>, p: Part, q: Part, H: Active, Ex: Active, Hq: Active, Exq: Active, named: set<nat>, namedq: set<nat>)
    requires Within(C, p) && Within(C, q) && Over(p, H) && Over(q, Hq) && Joins(C, p, q, H, Ex, Hq, Exq, named, namedq)
    requires Moves(C, p, H, Ex) && Moves(C, q, Hq, Exq)
    ensures Over(Both(p, q), H + Hq) && Moves(C, Both(p, q), H + Hq, Outs(Ex, Exq, q.hi))
  {
    hide Forward, ActiveAt;
    forall i: nat, t: nat | p.lo <= i < q.hi && Forward(C, i, t)
      ensures MoveOk(C, Both(p, q), H + Hq, Outs(Ex, Exq, q.hi), i, t)
    {
      if i < p.hi { assert MoveOk(C, p, H, Ex, i, t); } else { assert MoveOk(C, q, Hq, Exq, i, t); }
    }
  }

  lemma GuardedJoin(C: seq<Instr>, p: Part, q: Part, H: Active, Ex: Active, Hq: Active, Exq: Active, named: set<nat>, namedq: set<nat>)
    requires Within(C, p) && Within(C, q) && Over(p, H) && Over(q, Hq) && Joins(C, p, q, H, Ex, Hq, Exq, named, namedq)
    requires Guarded(C, p, H) && Guarded(C, q, Hq)
    ensures Over(Both(p, q), H + Hq) && Guarded(C, Both(p, q), H + Hq)
  {
    var G := H + Hq;
    forall i: nat, k: nat | p.lo <= i <= q.hi && k < |G[i]| ensures GuardOk(C, Both(p, q), G, i, k) {
      if i < p.hi {
        assert GuardOk(C, p, H, i, k);
      } else {
        assert GuardOk(C, q, Hq, i, k);
        var b := Hq[i][k];
        if b < q.lo {
          var h := H[p.hi];
          assert Hq[i][..k + 1] <= h && h[..k + 1] == Hq[i][..k + 1] && h[..k] == Hq[i][..k + 1][..k] == Hq[i][..k];
          assert h[k] == h[..k + 1][k] == b;
          assert GuardOk(C, p, H, p.hi, k);
          assert b in h;
        }
      }
    }
  }

  /** Control that moves from `p` to `q`, and back, passes their border. */
  lemma EdgeJoin(C: seq<Instr>, p: Part, q: Part, H: Active, Ex: Active, Hq: Active, Exq: Active, named: set<nat>, namedq: set<nat>,
                 i: nat, t: nat)
    requires Within(C, p) && Within(C, q) && Over(p, H) && Over(q, Hq) && Joins(C, p, q, H, Ex, Hq, Exq, named, namedq)
    requires Moves(C, p, H, Ex) && Moves(C, q, Hq, Exq) && p.lo <= i < q.hi && Forward(C, i, t)
    ensures if i < p.hi then i < t && (t <= p.hi || t >= q.hi) else i < t
  {
    if i < p.hi { assert MoveOk(C, p, H, Ex, i, t); } else { assert MoveOk(C, q, Hq, Exq, i, t); }
  }

  ghost predicate Crosses(C: seq<Instr>, p: Part, q: Part, rt: Target) 
    requires Within(C, p) && Within(C, q) && q.lo == p.hi
  {
    && (forall i: nat, t: nat | p.lo <= i < p.hi && Forward(C, i, t) :: i < t && (t <= p.hi || t >= q.hi))
    && (forall i: nat, t: nat | q.lo <= i < q.hi && Forward(C, i, t) :: i < t)
    && (forall j: nat | p.lo <= j < p.hi && C[j].JumpBack? :: Back(C, j) <= j)
    && (forall j: nat | q.lo <= j < q.hi && C[j].JumpBack? ::
          Back(C, j) <= j && (q.lo <= Back(C, j) || Back(C, j) <= p.lo))
  }

  lemma RunJoin(C: seq<Instr>, p: Part, q: Part, rt: Target, a: nat, j: nat)
    requires Within(C, p) && Within(C, q) && q.lo == p.hi && p.n1 <= q.n && Crosses(C, p, q, rt)
    requires Run(C, p, a, j) || Run(C, q, a, j)
    ensures Run(C, Both(p, q), a, j)
  {
    hide Forward;
  }

  lemma RebindsJoin(C: seq<Instr>, p: Part, q: Part, rt: Target, j: nat, s: nat)
    requires Within(C, p) && Within(C, q) && q.lo == p.hi && p.n1 <= q.n && Crosses(C, p, q, rt)
    requires Rebinds(C, p, j, s) || Rebinds(C, q, j, s)
    ensures Rebinds(C, Both(p, q), j, s)
  {
    hide Run;
    if Rebinds(C, p, j, s) {
      var a: nat, x: nat :| Run(C, p, a, j) && a <= x < j && Stores(C, x, s);
      RunJoin(C, p, q, rt, a, j);
    } else {
      var a: nat, x: nat :| Run(C, q, a, j) && a <= x < j && Stores(C, x, s);
      RunJoin(C, p, q, rt, a, j);
    }
  }

  lemma BacksJoin(C: seq<Instr>, p: Part, q: Part, H: Active, Hq: Active, rt: Target)
    requires Within(C, p) && Within(C, q) && Over(p, H) && Over(q, Hq) && q.lo == p.hi && Crosses(C, p, q, rt)
    requires H[p.hi] == Hq[q.lo] && p.n1 <= q.n && (rt.Target? ==> H[p.lo] == Hq[q.lo])
    requires Backs(C, p, rt, H) && Backs(C, q, rt, Hq)
    ensures Over(Both(p, q), H + Hq) && Backs(C, Both(p, q), rt, H + Hq)
  {
    hide Rebinds, Forward;
    var pq, G := Both(p, q), H + Hq;
    forall j: nat | p.lo <= j < q.hi && C[j].JumpBack?
      ensures BackOk(C, pq, rt, G, j)
    {
      if j < p.hi { assert BackOk(C, p, rt, H, j); } else { assert BackOk(C, q, rt, Hq, j); }
      forall s | Rebinds(C, p, j, s) || Rebinds(C, q, j, s) ensures Rebinds(C, pq, j, s) { RebindsJoin(C, p, q, rt, j, s); }
    }
  }

  lemma TouchesJoin(C: seq<Instr>, fin: Scope, p: Part, q: Part, H: Active, Ex: Active, Hq: Active, Exq: Active,
                    rt: Target, own: set<nat>, named: set<nat>, namedq: set<nat>)
    requires Within(C, p) && Within(C, q) && Over(p, H) && Over(q, Hq) && Joins(C, p, q, H, Ex, Hq, Exq, named, namedq)
    requires Touches(C, fin, p, rt, own, named) && Touches(C, fin, q, rt, own, namedq)
    requires forall s: nat | s in namedq && s < p.n :: s in named
    ensures Touches(C, fin, Both(p, q), rt, own, named)
  {
  }

  /** A span of `p` is one of both: `q` does not touch its slot. */
  lemma EarlySpan(C: seq<Instr>, fin: Scope, p: Part, q: Part, H: Active, Ex: Active, Hq: Active, Exq: Active,
                  rt: Target, own: set<nat>, named: set<nat>, namedq: set<nat>, s: nat, st: nat, he: nat)
    requires Within(C, p) && Within(C, q) && Over(p, H) && Over(q, Hq) && Joins(C, p, q, H, Ex, Hq, Exq, named, namedq)
    requires Crosses(C, p, q, rt) && Around(p, rt, own) && p.n <= s && s !in namedq
    requires Touches(C, fin, p, rt, own, named) && Touches(C, fin, q, rt, own, namedq)
    requires Span(C, p, s, st, he)
    ensures Span(C, Both(p, q), s, st, he)
  {
    hide Forward, Rebinds;
    assert s < p.n1 <= q.n;
    forall j: nat | p.lo <= j < p.hi && Rebinds(C, p, j, s) ensures Rebinds(C, Both(p, q), j, s) { RebindsJoin(C, p, q, rt, j, s); }
  }

  /** So is one of `q`: `p` comes before it. */
  lemma LateSpan(C: seq<Instr>, fin: Scope, p: Part, q: Part, H: Active, Ex: Active, Hq: Active, Exq: Active,
                 rt: Target, own: set<nat>, named: set<nat>, namedq: set<nat>, s: nat, st: nat, he: nat)
    requires Within(C, p) && Within(C, q) && Over(p, H) && Over(q, Hq) && Joins(C, p, q, H, Ex, Hq, Exq, named, namedq)
    requires Crosses(C, p, q, rt) && Around(p, rt, own) && q.n <= s
    requires Touches(C, fin, p, rt, own, named) && Touches(C, fin, q, rt, own, namedq)
    requires Span(C, q, s, st, he)
    ensures Span(C, Both(p, q), s, st, he)
  {
    hide Forward, Rebinds;
    forall j: nat | q.lo <= j < q.hi && Rebinds(C, q, j, s) ensures Rebinds(C, Both(p, q), j, s) { RebindsJoin(C, p, q, rt, j, s); }
  }

  lemma SpansJoin(C: seq<Instr>, fin: Scope, p: Part, q: Part, H: Active, Ex: Active, Hq: Active, Exq: Active,
                  rt: Target, own: set<nat>, named: set<nat>, namedq: set<nat>)
    requires Within(C, p) && Within(C, q) && Over(p, H) && Over(q, Hq) && Joins(C, p, q, H, Ex, Hq, Exq, named, namedq)
    requires Crosses(C, p, q, rt) && Around(p, rt, own) && Spans(C, p) && Spans(C, q)
    requires Touches(C, fin, p, rt, own, named) && Touches(C, fin, q, rt, own, namedq)
    requires forall s: nat | s in named :: s < p.n
    ensures Spans(C, Both(p, q))
  {
    hide Forward, Span, NotCapture;
    forall s: nat, i: nat | p.n <= s && p.lo <= i < q.hi && Stores(C, i, s)
      ensures exists st: nat, he: nat :: Span(C, Both(p, q), s, st, he)
    {
      if i < p.hi {
        var st: nat, he: nat :| Span(C, p, s, st, he);
        EarlySpan(C, fin, p, q, H, Ex, Hq, Exq, rt, own, named, namedq, s, st, he);
      } else {
        assert q.n <= s;
        var st: nat, he: nat :| Span(C, q, s, st, he);
        LateSpan(C, fin, p, q, H, Ex, Hq, Exq, rt, own, named, namedq, s, st, he);
      }
    }
  }

  lemma JoinCrosses(C: seq<Instr>, p: Part, q: Part, H: Active, Ex: Active, Hq: Active, Exq: Active,
                    rt: Target, own: set<nat>, named: set<nat>, namedq: set<nat>)
    requires Within(C, p) && Within(C, q) && Over(p, H) && Over(q, Hq) && Joins(C, p, q, H, Ex, Hq, Exq, named, namedq)
    requires Moves(C, p, H, Ex) && Moves(C, q, Hq, Exq) && Backs(C, p, rt, H) && Backs(C, q, rt, Hq) && Around(p, rt, own)
    ensures Crosses(C, p, q, rt)
  {
    hide Forward, Rebinds;
    forall i: nat, t: nat | p.lo <= i < q.hi && Forward(C, i, t)
      ensures if i < p.hi then i < t && (t <= p.hi || t >= q.hi) else i < t
    { EdgeJoin(C, p, q, H, Ex, Hq, Exq, named, namedq, i, t); }
    forall j: nat | p.lo <= j < p.hi && C[j].JumpBack? ensures Back(C, j) <= j { assert BackOk(C, p, rt, H, j); }
    forall j: nat | q.lo <= j < q.hi && C[j].JumpBack?
      ensures Back(C, j) <= j && (q.lo <= Back(C, j) || Back(C, j) <= p.lo)
    { assert BackOk(C, q, rt, Hq, j); }
  }

  /** Two tidy parts that fit are a tidy part. */
  lemma Join(C: seq<Instr>, fin: Scope, p: Part, q: Part, rt: Target, own: set<nat>, named: set<nat>, namedq: set<nat>,
             H: Active, Ex: Active, Hq: Active, Exq: Active)
    requires Tidy(C, fin, p, rt, own, named, H, Ex) && Tidy(C, fin, q, rt, own, namedq, Hq, Exq)
    requires Joins(C, p, q, H, Ex, Hq, Exq, named, namedq) && Around(p, rt, own)
    requires rt.Target? ==> H[p.lo] == Hq[q.lo]
    requires forall s: nat | s in named :: s < p.n
    requires forall s: nat | s in namedq && s < p.n :: s in named
    ensures Tidy(C, fin, Both(p, q), rt, own, named, H + Hq, Outs(Ex, Exq, q.hi))
  {
    hide Moves, Guarded, Backs, Touches, Spans, Crosses, Around, Forward;
    JoinCrosses(C, p, q, H, Ex, Hq, Exq, rt, own, named, namedq);
    MovesJoin(C, p, q, H, Ex, Hq, Exq, named, namedq);
    GuardedJoin(C, p, q, H, Ex, Hq, Exq, named, namedq);
    BacksJoin(C, p, q, H, Hq, rt);
    TouchesJoin(C, fin, p, q, H, Ex, Hq, Exq, rt, own, named, namedq);
    SpansJoin(C, fin, p, q, H, Ex, Hq, Exq, rt, own, named, namedq);
  }

  /** Handlers active when a part starts and ends, and where it jumps out to,
      if it does, with the handlers active there. */
  datatype Ends = Ends(h: seq<nat>, h1: seq<nat>, out: nat, ho: seq<nat>)

  ghost predicate Fits(C: seq<Instr>, fin: Scope, p: Part, rt: Target, own: set<nat>, named: set<nat>, E: Ends, H: Active, Ex: Active) {
    && Tidy(C, fin, p, rt, own, named, H, Ex) && H[p.lo] == E.h && H[p.hi] == E.h1 && p.hi <= E.out
    && (forall x: nat | x in Ex :: x == E.out && Ex[x] == E.ho)
  }

  ghost predicate Fit(C: seq<Instr>, fin: Scope, p: Part, rt: Target, own: set<nat>, named: set<nat>, E: Ends) {
    exists H: Active, Ex: Active :: Fits(C, fin, p, rt, own, named, E, H, Ex)
  }

  ghost predicate Meets(C: seq<Instr>, p: Part, E: Ends, q: Part, Eq: Ends) {
    && E.h1 == Eq.h
    && (E.out == p.hi || (E.out == q.hi && E.ho == Eq.h1) || (E.out == Eq.out && E.ho == Eq.ho && E.out > q.hi))
    && (forall b: nat | b in E.h1 && p.lo <= b :: b < |C| && C[b].TryBegin? && q.hi < b + 1 + C[b].off)
  }

  /** One part after another. */
  lemma Seam(C: seq<Instr>, fin: Scope, p: Part, E: Ends, q: Part, Eq: Ends, rt: Target, own: set<nat>, named: set<nat>, namedq: set<nat>)
    requires Fit(C, fin, p, rt, own, named, E) && Fit(C, fin, q, rt, own, namedq, Eq) && Meets(C, p, E, q, Eq)
    requires q.lo == p.hi && p.n1 <= q.n && Around(p, rt, own) && (rt.Target? ==> E.h == Eq.h)
    requires forall s: nat | s in named :: s < p.n
    requires forall s: nat | s in namedq :: s < q.n && (s < p.n ==> s in named)
    requires forall s: nat | s in namedq && s !in named :: !NotCapture(s, fin) || forall i: nat | p.lo <= i < p.hi :: !Stores(C, i, s)
    ensures Fit(C, fin, Both(p, q), rt, own, named, Ends(E.h, Eq.h1, Eq.out, Eq.ho))
  {
    var H: Active, Ex: Active :| Fits(C, fin, p, rt, own, named, E, H, Ex);
    var Hq: Active, Exq: Active :| Fits(C, fin, q, rt, own, namedq, Eq, Hq, Exq);
    ThenJoins(C, fin, p, E, q, Eq, rt, own, named, namedq, H, Ex, Hq, Exq);
    hide Moves, Guarded, Backs, Touches, Spans, Crosses, Around, Forward, Joins, Meets, NotCapture, Stores;
    Join(C, fin, p, q, rt, own, named, namedq, H, Ex, Hq, Exq);
    assert Fits(C, fin, Both(p, q), rt, own, named, Ends(E.h, Eq.h1, Eq.out, Eq.ho), H + Hq, Outs(Ex, Exq, q.hi)) by {
      ThenEnds(C, fin, p, E, q, Eq, H, Ex, Hq, Exq);
    }
  }

  lemma ThenJoins(C: seq<Instr>, fin: Scope, p: Part, E: Ends, q: Part, Eq: Ends, rt: Target, own: set<nat>, named: set<nat>, namedq: set<nat>,
                  H: Active, Ex: Active, Hq: Active, Exq: Active)
    requires Fits(C, fin, p, rt, own, named, E, H, Ex) && Fits(C, fin, q, rt, own, namedq, Eq, Hq, Exq) && Meets(C, p, E, q, Eq)
    requires q.lo == p.hi && p.n1 <= q.n
    requires forall s: nat | s in namedq :: s < q.n
    requires forall s: nat | s in namedq && s !in named :: !NotCapture(s, fin) || forall i: nat | p.lo <= i < p.hi :: !Stores(C, i, s)
    ensures Within(C, p) && Within(C, q) && Over(p, H) && Over(q, Hq) && Joins(C, p, q, H, Ex, Hq, Exq, named, namedq)
  {
    hide Guarded, Backs, Spans, Forward, MoveOk, NotCapture;
  }

  lemma ThenEnds(C: seq<Instr>, fin: Scope, p: Part, E: Ends, q: Part, Eq: Ends, H: Active, Ex: Active, Hq: Active, Exq: Active)
    requires Within(C, p) && Within(C, q) && Over(p, H) && Over(q, Hq) && q.lo == p.hi && H[p.lo] == E.h && H[p.hi] == E.h1
    requires Hq[q.lo] == Eq.h && Hq[q.hi] == Eq.h1 && Meets(C, p, E, q, Eq)
    requires forall x: nat | x in Ex :: x == E.out && Ex[x] == E.ho
    requires forall x: nat | x in Exq :: x == Eq.out && Exq[x] == Eq.ho
    ensures (H + Hq)[p.lo] == E.h && (H + Hq)[q.hi] == Eq.h1
    ensures forall x: nat | x in Outs(Ex, Exq, q.hi) :: x == Eq.out && Outs(Ex, Exq, q.hi)[x] == Eq.ho
  {
  }

  /** The instruction at `i` stands alone; it may jump ahead. */
  predicate Plain(i: Instr) {
    !i.StoreLocal? && !i.JumpBack? && !i.TryBegin? && !i.TryEnd? && !i.PushLocalClear?
  }

  function Jumps(C: seq<Instr>, i: nat): nat
    requires i < |C|
  {
    match C[i]
    case Jump(off) => i + 1 + off
    case JumpIfFalse(off) => i + 1 + off
    case JumpIfTrue(off) => i + 1 + off
    case _ => i + 1
  }

  lemma Single(C: seq<Instr>, fin: Scope, i: nat, n: nat, rt: Target, own: set<nat>, named: set<nat>, h: seq<nat>)
    requires i < |C| && Plain(C[i]) && (C[i].MakeFn? ==> Made(C[i].body)) && (C[i].PushLocal? ==> C[i].slot < n && C[i].slot in named)
    requires forall b | b in h :: b < i
    ensures Fit(C, fin, Part(i, i + 1, n, n), rt, own, named, Ends(h, h, Jumps(C, i), h))
  {
    hide NotCapture, Made, HandlerCode;
    var p, H := Part(i, i + 1, n, n), map[i := h, i + 1 := h];
    var Ex: Active := if Jumps(C, i) > i + 1 then map[Jumps(C, i) := h] else map[];
    GuardedBelow(C, p, H);
    hide Guarded;
    assert Fits(C, fin, p, rt, own, named, Ends(h, h, Jumps(C, i), h), H, Ex);
  }

  lemma Enter(C: seq<Instr>, fin: Scope, i: nat, n: nat, rt: Target, own: set<nat>, named: set<nat>, h: seq<nat>)
    requires i < |C| && C[i].TryBegin? && C[i].off > 0 && HandlerCode(C, i + 1 + C[i].off) && forall b | b in h :: b < i
    ensures Fit(C, fin, Part(i, i + 1, n, n), rt, own, named, Ends(h, h + [i], i + 1 + C[i].off, h))
  {
    hide NotCapture, Made, HandlerCode;
    var p, H := Part(i, i + 1, n, n), map[i := h, i + 1 := h + [i]];
    var Ex: Active := map[i + 1 + C[i].off := h];
    forall j: nat, k: nat | i <= j <= i + 1 && k < |H[j]| ensures GuardOk(C, p, H, j, k) {
      if k < |h| { assert h[k] in h && H[j][..k + 1] == h[..k + 1]; } else { assert H[j][..k] == h; }
    }
    assert Guarded(C, p, H);
    hide Guarded, GuardOk;
    assert Fits(C, fin, p, rt, own, named, Ends(h, h + [i], i + 1 + C[i].off, h), H, Ex);
  }

  lemma Leave(C: seq<Instr>, fin: Scope, i: nat, n: nat, rt: Target, own: set<nat>, named: set<nat>, h: seq<nat>, out: nat, ho: seq<nat>)
    requires i < |C| && C[i].TryEnd? && |h| > 0 && i < out && forall b | b in h :: b < i
    ensures Fit(C, fin, Part(i, i + 1, n, n), rt, own, named, Ends(h, h[..|h| - 1], out, ho))
  {
    hide NotCapture, Made, HandlerCode;
    var p, H := Part(i, i + 1, n, n), map[i := h, i + 1 := h[..|h| - 1]];
    GuardedBelow(C, p, H);
    hide Guarded;
    assert Fits(C, fin, p, rt, own, named, Ends(h, h[..|h| - 1], out, ho), H, map[]);
  }

  /** Code between TRY_BEGIN at `i` and TRY_END at `e`, the handler at `t`. */
  lemma Guards(C: seq<Instr>, fin: Scope, i: nat, e: nat, t: nat, n: nat, n1: nat, named: set<nat>, h: seq<nat>)
    requires i < e < |C| && C[i].TryBegin? && t == i + 1 + C[i].off > e + 1 && C[e].TryEnd? && n <= n1 && HandlerCode(C, t)
    requires Fit(C, fin, Part(i + 1, e, n, n1), NoTarget, {}, named, Ends(h + [i], h + [i], e, h + [i]))
    requires (forall b | b in h :: b < i) && forall s | s in named :: s < n
    ensures Fit(C, fin, Part(i, e + 1, n, n1), NoTarget, {}, named, Ends(h, h, t, h))
  {
    hide Fit, NotCapture, HandlerCode;
    var h1 := h + [i];
    assert h1[..|h1| - 1] == h;
    Enter(C, fin, i, n, NoTarget, {}, named, h);
    Leave(C, fin, e, n1, NoTarget, {}, {}, h1, t, h);
    Seam(C, fin, Part(i + 1, e, n, n1), Ends(h1, h1, e, h1), Part(e, e + 1, n1, n1), Ends(h1, h, t, h), NoTarget, {}, named, {});
    Seam(C, fin, Part(i, i + 1, n, n), Ends(h, h1, t, h), Part(i + 1, e + 1, n, n1), Ends(h1, h, t, h), NoTarget, {}, named, named);
  }

  /** A part is one of a wider slot range, and of one that may be rebound by
      more recurs or bound outside. */
  lemma Widen(C: seq<Instr>, fin: Scope, p: Part, E: Ends, rt: Target, own: set<nat>, named: set<nat>, q: Part, rt1: Target, own1: set<nat>, named1: set<nat>)
    requires Fit(C, fin, p, rt, own, named, E) && q.lo == p.lo && q.hi == p.hi && q.n <= p.n && p.n1 <= q.n1
    requires rt == rt1 || rt == NoTarget
    requires own <= own1 && (forall s: nat | s in named :: s in named1 || q.n <= s)
    requires Around(q, rt, own)
    ensures Fit(C, fin, q, rt1, own1, named1, E)
  {
    var H: Active, Ex: Active :| Fits(C, fin, p, rt, own, named, E, H, Ex);
    WidenRebinds(C, p, q);
    WidenBacks(C, p, q, rt, rt1, H);
    WidenSpans(C, fin, p, q, rt, own, named);
    forall i: nat, k: nat | q.lo <= i <= q.hi && k < |H[i]| ensures GuardOk(C, q, H, i, k) { assert GuardOk(C, p, H, i, k); }
    hide Forward, ActiveAt, Rebinds, BackOk, Backs, Spans, GuardOk;
    assert Fits(C, fin, q, rt1, own1, named1, E, H, Ex);
  }

  lemma WidenRebinds(C: seq<Instr>, p: Part, q: Part)
    requires Within(C, p) && q.lo == p.lo && q.hi == p.hi && q.n <= q.n1
    ensures forall j: nat, s: nat | Rebinds(C, p, j, s) :: Rebinds(C, q, j, s)
  {
    hide Forward;
    forall j: nat, s: nat | Rebinds(C, p, j, s) ensures Rebinds(C, q, j, s) {
      var a: nat, x: nat :| Run(C, p, a, j) && a <= x < j && Stores(C, x, s);
      assert Run(C, q, a, j);
    }
  }

  lemma WidenBacks(C: seq<Instr>, p: Part, q: Part, rt: Target, rt1: Target, H: Active)
    requires Within(C, p) && Over(p, H) && Backs(C, p, rt, H) && q.lo == p.lo && q.hi == p.hi && q.n <= p.n && q.n <= q.n1
    requires rt == rt1 || rt == NoTarget
    requires forall j: nat, s: nat | Rebinds(C, p, j, s) :: Rebinds(C, q, j, s)
    ensures Over(q, H) && Backs(C, q, rt1, H)
  {
    hide Rebinds, NoStore;
    forall j: nat | p.lo <= j < p.hi && C[j].JumpBack? ensures BackOk(C, q, rt1, H, j) { assert BackOk(C, p, rt, H, j); }
  }

  lemma WidenSpans(C: seq<Instr>, fin: Scope, p: Part, q: Part, rt: Target, own: set<nat>, named: set<nat>)
    requires Within(C, p) && Spans(C, p) && Touches(C, fin, p, rt, own, named) && Around(q, rt, own)
    requires q.lo == p.lo && q.hi == p.hi && q.n <= p.n && p.n1 <= q.n1
    requires forall j: nat, s: nat | Rebinds(C, p, j, s) :: Rebinds(C, q, j, s)
    ensures Spans(C, q)
  {
    hide Rebinds, NoStore, Forward, NotCapture;
    forall s: nat, i: nat | q.n <= s && q.lo <= i < q.hi && Stores(C, i, s)
      ensures exists st: nat, he: nat :: Span(C, q, s, st, he)
    {
      var st: nat, he: nat :| Span(C, p, s, st, he);
      assert Span(C, q, s, st, he);
    }
  }

  /** A binding: its value stored at `i`, then its scope `q`. */
  lemma Binds(C: seq<Instr>, fin: Scope, i: nat, s: nat, q: Part, E: Ends, rt: Target, own: set<nat>, named: set<nat>)
    requires Stores(C, i, s) && q.lo == i + 1 && q.n == s + 1 && NotCapture(s, fin)
    requires Fit(C, fin, q, rt, own + {s}, named, E) && E.out == q.hi && (forall b | b in E.h :: b < i)
    requires Around(Part(i, q.hi, s, q.n1), rt, own) && (rt.Target? ==> rt.start <= i)
    ensures Fit(C, fin, Part(i, q.hi, s, q.n1), rt, own, named - {s}, E)
  {
    var H: Active, Ex: Active :| Fits(C, fin, q, rt, own + {s}, named, E, H, Ex);
    var p, G := Part(i, q.hi, s, q.n1), H[i := E.h];
    hide ActiveAt;
    hide Forward, Rebinds, Moves, Guarded, Backs, Touches, Spans, Over, Around;
    BindMoves(C, i, s, q, E, H, Ex);
    BindRebinds(C, i, s, q);
    BindTouches(C, fin, i, s, q, rt, own, named);
    BindBacks(C, i, s, q, rt, H, G);
    BindSpans(C, fin, i, s, q, rt, own, named, H);
    assert Fits(C, fin, p, rt, own, named - {s}, E, G, Ex);
  }

  lemma BindRebinds(C: seq<Instr>, i: nat, s: nat, q: Part)
    requires Within(C, q) && Stores(C, i, s) && q.lo == i + 1 && s <= q.n
    ensures forall j: nat, x: nat | Rebinds(C, q, j, x) :: Rebinds(C, Part(i, q.hi, s, q.n1), j, x)
  {
    var p := Part(i, q.hi, s, q.n1);
    forall j: nat, x: nat | Rebinds(C, q, j, x) ensures Rebinds(C, p, j, x) {
      var a: nat, y: nat :| Run(C, q, a, j) && a <= y < j && Stores(C, y, x);
      assert forall t: nat | Forward(C, i, t) :: t == i + 1;
      hide Forward;
      assert Run(C, p, a, j);
    }
  }

  lemma BindTouches(C: seq<Instr>, fin: Scope, i: nat, s: nat, q: Part, rt: Target, own: set<nat>, named: set<nat>)
    requires Within(C, q) && Stores(C, i, s) && q.lo == i + 1 && q.n == s + 1 && NotCapture(s, fin)
    requires Touches(C, fin, q, rt, own + {s}, named)
    ensures Touches(C, fin, Part(i, q.hi, s, q.n1), rt, own, named - {s})
  {
    hide NotCapture, Made, HandlerCode;
  }

  lemma BindMoves(C: seq<Instr>, i: nat, s: nat, q: Part, E: Ends, H: Active, Ex: Active)
    requires Within(C, q) && Over(q, H) && Moves(C, q, H, Ex) && Guarded(C, q, H) && H[q.lo] == E.h
    requires Stores(C, i, s) && q.lo == i + 1 && s <= q.n && forall b | b in E.h :: b < i
    ensures var p, G := Part(i, q.hi, s, q.n1), H[i := E.h];
            Over(p, G) && Moves(C, p, G, Ex) && Guarded(C, p, G)
    ensures forall t: nat | Forward(C, i, t) :: t == i + 1
  {
    var p, G := Part(i, q.hi, s, q.n1), H[i := E.h];
    forall j: nat, t: nat | i <= j < q.hi && Forward(C, j, t) ensures MoveOk(C, p, G, Ex, j, t) {
      if j > i { assert MoveOk(C, q, H, Ex, j, t); }
    }
    forall j: nat, k: nat | i <= j <= q.hi && k < |G[j]| ensures GuardOk(C, p, G, j, k) {
      if j > i {
        assert GuardOk(C, q, H, j, k);
        if H[j][k] < q.lo { assert E.h[k] == H[j][..k + 1][k] && E.h[k] in E.h; }
      } else {
        assert G[i][k] in E.h;
      }
    }
  }

  lemma BindBacks(C: seq<Instr>, i: nat, s: nat, q: Part, rt: Target, H: Active, G: Active)
    requires Within(C, q) && Over(q, H) && Backs(C, q, rt, H) && G == H[i := H[q.lo]]
    requires Stores(C, i, s) && q.lo == i + 1 && s < q.n
    requires rt.Target? ==> rt.start <= i
    requires forall j: nat, x: nat | Rebinds(C, q, j, x) :: Rebinds(C, Part(i, q.hi, s, q.n1), j, x)
    ensures Over(Part(i, q.hi, s, q.n1), G) && Backs(C, Part(i, q.hi, s, q.n1), rt, G)
    ensures forall j: nat | i <= j < q.hi && C[j].JumpBack? ::
              Back(C, j) <= i || Rebinds(C, Part(i, q.hi, s, q.n1), j, s) || NoStore(C, Back(C, j), j, s)
  {
    hide Forward, Rebinds, NoStore;
    var p := Part(i, q.hi, s, q.n1);
    forall j: nat | i <= j < q.hi && C[j].JumpBack?
      ensures BackOk(C, p, rt, G, j)
      ensures Back(C, j) <= i || Rebinds(C, p, j, s) || NoStore(C, Back(C, j), j, s)
    {
      assert BackOk(C, q, rt, H, j);
    }
  }

  lemma BindSpans(C: seq<Instr>, fin: Scope, i: nat, s: nat, q: Part, rt: Target, own: set<nat>, named: set<nat>, H: Active)
    requires Within(C, q) && Spans(C, q) && Touches(C, fin, q, rt, own + {s}, named)
    requires Stores(C, i, s) && q.lo == i + 1 && q.n == s + 1
    requires Over(q, H) && Backs(C, q, rt, H) && Around(Part(i, q.hi, s, q.n1), rt, own)
    requires forall t: nat | Forward(C, i, t) :: t == i + 1
    requires var p := Part(i, q.hi, s, q.n1);
             && (forall j: nat, x: nat | Rebinds(C, q, j, x) :: Rebinds(C, p, j, x))
             && (forall j: nat | i <= j < q.hi && C[j].JumpBack? ::
                   Back(C, j) <= i || Rebinds(C, p, j, s) || NoStore(C, Back(C, j), j, s))
    ensures Spans(C, Part(i, q.hi, s, q.n1))
  {
    hide Forward, Rebinds, NoStore;
    var p := Part(i, q.hi, s, q.n1);
    forall x: nat, k: nat | p.n <= x && p.lo <= k < p.hi && Stores(C, k, x)
      ensures exists st: nat, he: nat :: Span(C, p, x, st, he)
    {
      if x == s {
        assert Span(C, p, s, i, q.hi);
      } else {
        var st: nat, he: nat :| Span(C, q, x, st, he);
        assert Span(C, p, x, st, he);
      }
    }
  }

  /** `h` at every place of [lo, hi]. */
  function Level(lo: nat, hi: nat, h: seq<nat>): (H: Active)
    ensures forall i: nat :: (i in H <==> lo <= i <= hi) && (i in H ==> H[i] == h)
    decreases hi + 1 - lo
  {
    if lo > hi then map[] else Level(lo + 1, hi, h)[lo := h]
  }

  /** The stores and the jump of a `recur`. */
  lemma Recurs(C: seq<Instr>, fin: Scope, a: nat, j: nat, n: nat, rt: Target, own: set<nat>, named: set<nat>, h: seq<nat>)
    requires a <= j < |C| && rt.Target? && C[j].JumpBack? && Back(C, j) == rt.start <= a
    requires forall q | a <= q < j :: C[q].StoreLocal? && C[q].slot in rt.slots && C[q].slot < n && NotCapture(C[q].slot, fin)
    requires forall s | s in rt.slots :: exists q :: a <= q < j && Stores(C, q, s)
    requires Around(Part(a, j + 1, n, n), rt, own) && forall b | b in h :: b < a
    ensures Fit(C, fin, Part(a, j + 1, n, n), rt, own, named, Ends(h, h, j + 1, h))
  {
    hide NotCapture, Made, HandlerCode;
    var p := Part(a, j + 1, n, n);
    var H := Level(a, j + 1, h);
    assert Touches(C, fin, p, rt, own, named);
    RecurMoves(C, a, j, n, h);
    RecurBacks(C, a, j, n, rt, H);
    assert Fits(C, fin, p, rt, own, named, Ends(h, h, j + 1, h), H, map[]) by { hide Rebinds, Moves, Guarded, Backs, Touches; }
  }

  lemma RecurMoves(C: seq<Instr>, a: nat, j: nat, n: nat, h: seq<nat>)
    requires a <= j < |C| && C[j].JumpBack? && (forall b | b in h :: b < a)
    requires forall q | a <= q < j :: C[q].StoreLocal?
    ensures var p, H := Part(a, j + 1, n, n), Level(a, j + 1, h);
            Over(p, H) && Moves(C, p, H, map[]) && Guarded(C, p, H)
  {
    GuardedBelow(C, Part(a, j + 1, n, n), Level(a, j + 1, h));
    hide Guarded;
  }

  lemma RecurBacks(C: seq<Instr>, a: nat, j: nat, n: nat, rt: Target, H: Active)
    requires a <= j < |C| && rt.Target? && C[j].JumpBack? && Back(C, j) == rt.start <= a
    requires forall q | a <= q < j :: C[q].StoreLocal?
    requires forall s | s in rt.slots :: exists q :: a <= q < j && Stores(C, q, s)
    requires Over(Part(a, j + 1, n, n), H) && forall i | a <= i <= j + 1 :: H[i] == H[a]
    ensures Backs(C, Part(a, j + 1, n, n), rt, H)
  {
    var p := Part(a, j + 1, n, n);
    assert Run(C, p, a, j);
    hide Forward, Run;
    forall s | s in rt.slots ensures Rebinds(C, p, j, s) {
      var q :| a <= q < j && Stores(C, q, s);
      assert Run(C, p, a, j) && a <= q < j && Stores(C, q, s);
    }
    hide Rebinds;
    assert BackOk(C, p, rt, H, j);
  }

  function SlotSet(slots: seq<nat>): set<nat> { set s | s in slots }

  /** A loop's body, once complete: its recurs are its own. */
  lemma Closes(C: seq<Instr>, fin: Scope, p: Part, E: Ends, rt: Target, rt1: Target, named: set<nat>)
    requires rt.Target? && rt.start == p.lo && Fit(C, fin, p, rt, {}, named, E)
    ensures Fit(C, fin, p, rt1, SlotSet(rt.slots), named, E)
  {
    var own := SlotSet(rt.slots);
    var H: Active, Ex: Active :| Fits(C, fin, p, rt, {}, named, E, H, Ex);
    hide Forward, ActiveAt, Rebinds;
    forall j: nat | p.lo <= j < p.hi && C[j].JumpBack? ensures BackOk(C, p, rt1, H, j) {
      assert BackOk(C, p, rt, H, j);
      if Back(C, j) == p.lo {
        forall s: nat | s < p.n && !Rebinds(C, p, j, s) && s !in rt.slots ensures NoStore(C, p.lo, j, s) {}
      }
    }
    assert Fits(C, fin, p, rt1, own, named, E, H, Ex);
  }
}
