/** Compiled code is laid out as Layout says, by induction on forms. */
module LayoutProof {
  import opened Options
  import opened Syntax
  import opened Bytecode
  import opened Codegen
  import opened Scoping
  import opened ScopingProof
  import opened Placement
  import opened HandlerShape
  import opened Layout
  import opened LastReads

  function Named(sc: Scopes): set<nat> {
    if sc.NoScope? then {} else set x | x in sc.top.names :: sc.top.names[x]
  }

  /** What is said of each form's code: a part that starts and ends under the
      same handlers and jumps nowhere else. */
  ghost predicate Lies(C: seq<Instr>, fin: Scope, lo: nat, hi: nat, sc: Scopes, sc1: Scopes, rt: Target, h: seq<nat>) {
    Fit(C, fin, Part(lo, hi, SlotsOf(sc), SlotsOf(sc1)), rt, {}, Named(sc), Ends(h, h, hi, h))
  }

  /** Where the code of `r` stands in a finished body with scope `fin`. */
  ghost predicate Stands(C: seq<Instr>, fin: Scope, pos: nat, r: Piece) {
    CodeAt(C, pos, r.code) && (r.sc.Inner? ==> Extends(r.sc.top, fin))
  }

  /** The recur target is one a form at `pos` in `sc` may have. */
  ghost predicate TargetOk(rc: RecurCtx, rt: Target, n: nat, pos: nat, fin: Scope) {
    && (rt.Target? ==> rt.start <= pos && forall s | s in rt.slots :: s < n && NotCapture(s, fin))
    && (rc.InLoop? && !rc.acrossTry ==> rt.Target? && |rt.slots| == rc.arity)
  }

  ghost predicate Earlier(h: seq<nat>, pos: nat) { forall b | b in h :: b < pos }

  lemma NamedBelow(sc: Scopes)
    requires WellFormed(sc)
    ensures forall s | s in Named(sc) :: s < SlotsOf(sc)
  {
  }

  /** Slots that get a name while code is compiled are captures. */
  lemma NamedGrows(sc: Scopes, sc1: Scopes, fin: Scope)
    requires Grows(sc, sc1) && WellFormed(sc) && WellFormed(sc1) && (sc1.Inner? ==> Extends(sc1.top, fin))
    ensures forall s | s in Named(sc1) :: s < SlotsOf(sc1) && (s in Named(sc) || (!NotCapture(s, fin) && s >= SlotsOf(sc)))
  {
    if sc.Inner? {
      forall s | s in Named(sc1) ensures s in Named(sc) || (!NotCapture(s, fin) && s >= SlotsOf(sc)) {
        var x :| x in sc1.top.names && sc1.top.names[x] == s;
        if x !in sc.top.names {
          assert CapturedAfter(x, |sc.top.captures|, sc1.top);
          var i :| |sc.top.captures| <= i < |sc1.top.captures| && sc1.top.captures[i].localSlot == s;
          assert fin.captures[i] == sc1.top.captures[i];
        }
      }
    }
  }

  /** Parts of one frame, compiled one after the other. */
  lemma Sequel(C: seq<Instr>, fin: Scope, sc: Scopes, sc1: Scopes, p: Part, E: Ends, q: Part, Eq: Ends, rt: Target,
               own: set<nat>)
    requires Fit(C, fin, p, rt, own, Named(sc), E) && Fit(C, fin, q, rt, own, Named(sc1), Eq) && Meets(C, p, E, q, Eq)
    requires p.n == SlotsOf(sc) && q.n == SlotsOf(sc1) && q.lo == p.hi && p.n1 <= q.n
    requires Grows(sc, sc1) && WellFormed(sc) && WellFormed(sc1) && (sc1.Inner? ==> Extends(sc1.top, fin))
    requires Around(p, rt, own) && (rt.Target? ==> E.h == Eq.h)
    ensures Fit(C, fin, Part(p.lo, q.hi, p.n, q.n1), rt, own, Named(sc), Ends(E.h, Eq.h1, Eq.out, Eq.ho))
  {
    hide Fit, Grows, WellFormed, Extends, NotCapture, Meets, Around;
    NamedBelow(sc);
    NamedGrows(sc, sc1, fin);
    Seam(C, fin, p, E, q, Eq, rt, own, Named(sc), Named(sc1));
  }

  lemma FitMeets(C: seq<Instr>, p: Part, q: Part, h: seq<nat>, out: nat, out1: nat)
    requires Earlier(h, p.lo) && (out == p.hi || out == q.hi || (out == out1 && out > q.hi))
    ensures Meets(C, p, Ends(h, h, out, h), q, Ends(h, h, out1, h))
  {
  }

  lemma TargetAround(rc: RecurCtx, rt: Target, n: nat, pos: nat, fin: Scope, p: Part)
    requires TargetOk(rc, rt, n, pos, fin) && p.n == n && p.lo == pos
    ensures Around(p, rt, {})
  {
  }

  lemma TargetLater(rc: RecurCtx, rt: Target, n: nat, pos: nat, fin: Scope, n1: nat, pos1: nat)
    requires TargetOk(rc, rt, n, pos, fin) && n <= n1 && pos <= pos1
    ensures TargetOk(rc, rt, n1, pos1, fin)
  {
  }

  /** A form's code, then code compiled after it in the scope it leaves: `out1`
      is where the latter jumps out to, or its end. */
  lemma Follow(C: seq<Instr>, fin: Scope, lo: nat, mid: nat, hi: nat, sc: Scopes, sc1: Scopes, n1: nat, rc: RecurCtx, rt: Target,
               h: seq<nat>, out: nat)
    requires Lies(C, fin, lo, mid, sc, sc1, rt, h) && TargetOk(rc, rt, SlotsOf(sc), lo, fin) && Earlier(h, lo)
    requires Fit(C, fin, Part(mid, hi, SlotsOf(sc1), n1), rt, {}, Named(sc1), Ends(h, h, out, h))
    requires Grows(sc, sc1) && WellFormed(sc) && WellFormed(sc1) && (sc1.Inner? ==> Extends(sc1.top, fin))
    ensures Fit(C, fin, Part(lo, hi, SlotsOf(sc), n1), rt, {}, Named(sc), Ends(h, h, out, h))
  {
    hide Fit, Grows, WellFormed, Extends, NotCapture, Meets, Around;
    var p, q := Part(lo, mid, SlotsOf(sc), SlotsOf(sc1)), Part(mid, hi, SlotsOf(sc1), n1);
    FitMeets(C, p, q, h, mid, out);
    TargetAround(rc, rt, SlotsOf(sc), lo, fin, p);
    Sequel(C, fin, sc, sc1, p, Ends(h, h, mid, h), q, Ends(h, h, out, h), rt, {});
  }

  /** An instruction that may jump ahead, then more code in the same scope. */
  lemma First(C: seq<Instr>, fin: Scope, i: nat, hi: nat, sc: Scopes, n1: nat, rc: RecurCtx, rt: Target, h: seq<nat>, out: nat)
    requires i < |C| && Plain(C[i]) && !C[i].PushLocal? && !C[i].MakeFn? && Earlier(h, i)
    requires Jumps(C, i) == i + 1 || Jumps(C, i) == hi || (Jumps(C, i) == out && out > hi)
    requires Fit(C, fin, Part(i + 1, hi, SlotsOf(sc), n1), rt, {}, Named(sc), Ends(h, h, out, h))
    requires WellFormed(sc) && TargetOk(rc, rt, SlotsOf(sc), i, fin) && (sc.Inner? ==> Extends(sc.top, fin))
    ensures Fit(C, fin, Part(i, hi, SlotsOf(sc), n1), rt, {}, Named(sc), Ends(h, h, out, h))
  {
    hide Fit, Grows, WellFormed, Extends, NotCapture, Meets, Around;
    var n := SlotsOf(sc);
    var p, q := Part(i, i + 1, n, n), Part(i + 1, hi, n, n1);
    Single(C, fin, i, n, rt, {}, Named(sc), h);
    FitMeets(C, p, q, h, Jumps(C, i), out);
    TargetAround(rc, rt, n, i, fin, p);
    GrowsSelf(sc);
    Sequel(C, fin, sc, sc, p, Ends(h, h, Jumps(C, i), h), q, Ends(h, h, out, h), rt, {});
  }

  /** A form's code and one instruction on its value. */
  lemma Last(C: seq<Instr>, fin: Scope, lo: nat, i: nat, sc: Scopes, sc1: Scopes, rc: RecurCtx, rt: Target, h: seq<nat>)
    requires Lies(C, fin, lo, i, sc, sc1, rt, h) && TargetOk(rc, rt, SlotsOf(sc), lo, fin) && Earlier(h, lo) && lo <= i < |C|
    requires Plain(C[i]) && !C[i].PushLocal? && !C[i].MakeFn?
    requires Grows(sc, sc1) && WellFormed(sc) && WellFormed(sc1) && (sc1.Inner? ==> Extends(sc1.top, fin))
    ensures Fit(C, fin, Part(lo, i + 1, SlotsOf(sc), SlotsOf(sc1)), rt, {}, Named(sc), Ends(h, h, Jumps(C, i), h))
  {
    hide Fit, Grows, WellFormed, Extends, NotCapture;
    Single(C, fin, i, SlotsOf(sc1), rt, {}, Named(sc1), h);
    Follow(C, fin, lo, i, i + 1, sc, sc1, SlotsOf(sc1), rc, rt, h, Jumps(C, i));
  }

  /** The slots a part reads are known where it stands. */
  ghost predicate Reads(fin: Scope, n: nat, m: nat, named: set<nat>, namedq: set<nat>) {
    && (forall s: nat | s in named :: s < n)
    && (forall s: nat | s in namedq :: s < m && (s in named || (!NotCapture(s, fin) && s >= n)))
  }

  lemma ReadsSame(fin: Scope, n: nat, m: nat, named: set<nat>, namedq: set<nat>)
    requires (forall s: nat | s in named :: s < n) && namedq <= named && n <= m
    ensures Reads(fin, n, m, named, namedq)
  {
  }

  lemma ReadsGrown(fin: Scope, sc: Scopes, sc1: Scopes, extra: set<nat>)
    requires Grows(sc, sc1) && WellFormed(sc) && WellFormed(sc1) && (sc1.Inner? ==> Extends(sc1.top, fin))
    requires forall s: nat | s in extra :: s < SlotsOf(sc)
    ensures Reads(fin, SlotsOf(sc), SlotsOf(sc1), Named(sc) + extra, Named(sc1) + extra)
  {
    NamedBelow(sc);
    NamedGrows(sc, sc1, fin);
    GrowsSlots(sc, sc1);
  }

  /** Two parts inside a `try`, under the same handlers. */
  lemma Adjoin(C: seq<Instr>, fin: Scope, lo: nat, mid: nat, hi: nat, n: nat, m: nat, m1: nat, n1: nat, named: set<nat>, namedq: set<nat>,
             h: seq<nat>, out: nat, out1: nat)
    requires lo <= mid <= hi && n <= m <= m1 <= n1 && Earlier(h, lo) && Reads(fin, n, m1, named, namedq)
    requires out == mid || out == hi || (out == out1 && out > hi)
    requires Fit(C, fin, Part(lo, mid, n, m), NoTarget, {}, named, Ends(h, h, out, h))
    requires Fit(C, fin, Part(mid, hi, m1, n1), NoTarget, {}, namedq, Ends(h, h, out1, h))
    ensures Fit(C, fin, Part(lo, hi, n, n1), NoTarget, {}, named, Ends(h, h, out1, h))
  {
    hide Fit, NotCapture;
    FitMeets(C, Part(lo, mid, n, m), Part(mid, hi, m1, n1), h, out, out1);
    hide Meets;
    Seam(C, fin, Part(lo, mid, n, m), Ends(h, h, out, h), Part(mid, hi, m1, n1), Ends(h, h, out1, h), NoTarget, {}, named, namedq);
  }

  /** One instruction inside a `try`, then more code. */
  lemma Ahead(C: seq<Instr>, fin: Scope, i: nat, hi: nat, n: nat, n1: nat, named: set<nat>, h: seq<nat>, out: nat)
    requires i < hi && n <= n1 && Earlier(h, i) && (forall s: nat | s in named :: s < n)
    requires i < |C| && Plain(C[i]) && !C[i].MakeFn? && (C[i].PushLocal? ==> C[i].slot < n && C[i].slot in named)
    requires Jumps(C, i) == i + 1 || Jumps(C, i) == hi
    requires Fit(C, fin, Part(i + 1, hi, n, n1), NoTarget, {}, named, Ends(h, h, out, h))
    ensures Fit(C, fin, Part(i, hi, n, n1), NoTarget, {}, named, Ends(h, h, out, h))
  {
    hide Fit, NotCapture;
    Single(C, fin, i, n, NoTarget, {}, named, h);
    ReadsSame(fin, n, n, named, named);
    hide Earlier, Reads;
    Adjoin(C, fin, i, i + 1, hi, n, n, n, n1, named, named, h, Jumps(C, i), out);
  }

  /** Code inside a `try`, then one instruction. */
  lemma Behind(C: seq<Instr>, fin: Scope, lo: nat, i: nat, n: nat, n1: nat, named: set<nat>, h: seq<nat>, out: nat)
    requires lo <= i && n <= n1 && Earlier(h, lo) && (forall s: nat | s in named :: s < n)
    requires i < |C| && Plain(C[i]) && !C[i].MakeFn? && !C[i].PushLocal?
    requires out == i || out == i + 1
    requires Fit(C, fin, Part(lo, i, n, n1), NoTarget, {}, named, Ends(h, h, out, h))
    ensures Fit(C, fin, Part(lo, i + 1, n, n1), NoTarget, {}, named, Ends(h, h, Jumps(C, i), h))
  {
    hide Fit, NotCapture;
    Single(C, fin, i, n1, NoTarget, {}, {}, h);
    ReadsSame(fin, n, n1, named, {});
    hide Earlier, Reads;
    Adjoin(C, fin, lo, i, i + 1, n, n1, n1, n1, named, {}, h, out, Jumps(C, i));
  }

  /** A part with nothing in it. */
  lemma Nothing(C: seq<Instr>, fin: Scope, pos: nat, n: nat, rt: Target, own: set<nat>, named: set<nat>, h: seq<nat>)
    requires pos <= |C| && Earlier(h, pos)
    ensures Fit(C, fin, Part(pos, pos, n, n), rt, own, named, Ends(h, h, pos, h))
  {
    GuardedBelow(C, Part(pos, pos, n, n), map[pos := h]);
    assert Fits(C, fin, Part(pos, pos, n, n), rt, own, named, Ends(h, h, pos, h), map[pos := h], map[]);
  }

  /** The scopes around and inside a part's code, as compiling leaves them. */
  lemma Between(sc: Scopes, sc1: Scopes, sc2: Scopes, fin: Scope)
    requires Grows(sc, sc1) && Grows(sc1, sc2) && (sc2.Inner? ==> Extends(sc2.top, fin))
    ensures (sc1.Inner? ==> Extends(sc1.top, fin)) && SlotsOf(sc) <= SlotsOf(sc1) <= SlotsOf(sc2)
    ensures sc.Inner? == sc1.Inner? == sc2.Inner?
  {
    ExtendsFrom(sc1, sc2, fin);
  }

  lemma {:induction false} LiesForm(C: seq<Instr>, fin: Scope, e: Form, rc: RecurCtx, sc: Scopes, rt: Target, pos: nat, h: seq<nat>)
    requires WellFormed(sc) && Check(e, rc, sc.NoScope?) == None && TargetOk(rc, rt, SlotsOf(sc), pos, fin)
    requires Stands(C, fin, pos, Compile(e, sc, rt, pos)) && Earlier(h, pos)
    ensures var r := Compile(e, sc, rt, pos); Lies(C, fin, pos, pos + |r.code|, sc, r.sc, rt, h)
    decreases e, if sc.NoScope? then 2 else 1
  {
    hide Fit, Lies, Grows, WellFormed, Extends, NotCapture, Compile, Check, CodeAt;
    match e
    case Def(_, _) => LiesThen(C, fin, e, rc, sc, rt, pos, h);
    case Throw(_) => LiesThen(C, fin, e, rc, sc, rt, pos, h);
    case If(_, _, _) => LiesIf(C, fin, e, rc, sc, rt, pos, h);
    case Do(_) => LiesSequence(C, fin, e, rc, sc, rt, pos, h);
    case And(_) => LiesSequence(C, fin, e, rc, sc, rt, pos, h);
    case Or(_) => LiesSequence(C, fin, e, rc, sc, rt, pos, h);
    case Let(_, _) => LiesScoped(C, fin, e, rc, sc, rt, pos, h);
    case Loop(_, _) => LiesScoped(C, fin, e, rc, sc, rt, pos, h);
    case Try(_, _, _) => LiesScoped(C, fin, e, rc, sc, rt, pos, h);
    case Recur(_) => LiesRecur(C, fin, e, rc, sc, rt, pos, h);
    case Fn(_, _) => LiesFn(C, fin, e, rc, sc, rt, pos, h);
    case Call(_, _) => LiesCall(C, fin, e, rc, sc, rt, pos, h);
    case _ => LiesLeaf(C, fin, e, rc, sc, rt, pos, h);
  }

  lemma Alone(C: seq<Instr>, fin: Scope, i: Instr, pos: nat, sc: Scopes, rt: Target, h: seq<nat>)
    requires CodeAt(C, pos, [i]) && Earlier(h, pos)
    requires i.PushConst? || i.PushNil? || i.PushTrue? || i.PushFalse? || i.PushVar? || i.Invoke? || (i.MakeFn? && Made(i.body))
    ensures Lies(C, fin, pos, pos + 1, sc, sc, rt, h)
  {
    hide Fit, Made;
    CodeAtOne(C, pos, i);
    Single(C, fin, pos, SlotsOf(sc), rt, {}, Named(sc), h);
  }

  lemma LiesLeaf(C: seq<Instr>, fin: Scope, e: Form, rc: RecurCtx, sc: Scopes, rt: Target, pos: nat, h: seq<nat>)
    requires WellFormed(sc) && Stands(C, fin, pos, Compile(e, sc, rt, pos)) && Earlier(h, pos)
    requires (e.Lit? || e.Quote? || e.Sym? || e.Global?) && TargetOk(rc, rt, SlotsOf(sc), pos, fin)
    ensures var r := Compile(e, sc, rt, pos); Lies(C, fin, pos, pos + |r.code|, sc, r.sc, rt, h)
  {
    hide Fit, Lies, WellFormed, Grows, Extends, CodeAt, Earlier;
    match e
    case Lit(c) => Alone(C, fin, PushLiteral(c), pos, sc, rt, h);
    case Quote(c) => Alone(C, fin, PushLiteral(c), pos, sc, rt, h);
    case Global(x) => Alone(C, fin, PushVar(x), pos, sc, rt, h);
    case Sym(x) =>
      ResolveGrows(x, sc);
      if Resolve(x, sc).NotLocal? { Alone(C, fin, PushVar(x), pos, sc, rt, h); } else { LiesLocal(C, fin, x, rc, sc, rt, pos, h); }
  }

  /** A local read, through a capture of its own or not. */
  lemma LiesLocal(C: seq<Instr>, fin: Scope, x: string, rc: RecurCtx, sc: Scopes, rt: Target, pos: nat, h: seq<nat>)
    requires WellFormed(sc) && Earlier(h, pos) && Resolve(x, sc).Local? && CodeAt(C, pos, [PushLocal(Resolve(x, sc).slot)])
    requires Extends(Resolve(x, sc).sc.top, fin) && TargetOk(rc, rt, SlotsOf(sc), pos, fin)
    ensures Lies(C, fin, pos, pos + 1, sc, Resolve(x, sc).sc, rt, h)
  {
    var sc1, slot := Resolve(x, sc).sc, Resolve(x, sc).slot;
    ResolveGrows(x, sc);
    CodeAtOne(C, pos, PushLocal(slot));
    var q := Part(pos, pos + 1, SlotsOf(sc), SlotsOf(sc1));
    assert slot in Named(sc1);
    NamedGrows(sc, sc1, fin);
    GrowsSlots(sc, sc1);
    TargetAround(rc, rt, SlotsOf(sc), pos, fin, q);
    hide WellFormed, Grows, Resolve, NotCapture, Made, Fit, Around, TargetOk, Extends;
    Single(C, fin, pos, SlotsOf(sc1), rt, {}, Named(sc1), h);
    Widen(C, fin, Part(pos, pos + 1, SlotsOf(sc1), SlotsOf(sc1)), Ends(h, h, pos + 1, h), rt, {}, Named(sc1), q, rt, {}, Named(sc));
  }

  lemma {:induction false} LiesThen(C: seq<Instr>, fin: Scope, e: Form, rc: RecurCtx, sc: Scopes, rt: Target, pos: nat, h: seq<nat>)
    requires e.Def? || e.Throw?
    requires WellFormed(sc) && Check(e, rc, sc.NoScope?) == None && TargetOk(rc, rt, SlotsOf(sc), pos, fin)
    requires Stands(C, fin, pos, Compile(e, sc, rt, pos)) && Earlier(h, pos)
    ensures var r := Compile(e, sc, rt, pos); Lies(C, fin, pos, pos + |r.code|, sc, r.sc, rt, h)
    decreases e, 0
  {
    hide Fit, WellFormed, Grows, Extends, CodeAt, NotCapture, Earlier, TargetOk;
    var x := if e.Def? then e.init else e.e;
    var i := if e.Def? then StoreGlobal(e.name) else Raise;
    var r := Compile(x, sc, rt, pos);
    CodeAtSplit(C, pos, r.code, [i]);
    CodeAtOne(C, pos + |r.code|, i);
    CompileGrows(x, sc, rt, pos);
    LiesForm(C, fin, x, rc, sc, rt, pos, h);
    Last(C, fin, pos, pos + |r.code|, sc, r.sc, rc, rt, h);
  }

  lemma {:induction false} LiesElse(C: seq<Instr>, fin: Scope, els: Option<Form>, rc: RecurCtx, sc: Scopes, rt: Target, pos: nat, h: seq<nat>)
    requires WellFormed(sc) && (els.Some? ==> Check(els.value, rc, sc.NoScope?) == None) && TargetOk(rc, rt, SlotsOf(sc), pos, fin)
    requires Stands(C, fin, pos, CompileElse(els, sc, rt, pos)) && Earlier(h, pos)
    ensures var r := CompileElse(els, sc, rt, pos); Lies(C, fin, pos, pos + |r.code|, sc, r.sc, rt, h)
    decreases els, 3
  {
    hide Lies, WellFormed, Extends, Compile, Check, CodeAt, Earlier, TargetOk;
    if els.Some? { LiesForm(C, fin, els.value, rc, sc, rt, pos, h); } else { Alone(C, fin, PushNil, pos, sc, rt, h); }
  }

  lemma IfAccepted(e: Form, rc: RecurCtx, top: bool)
    requires e.If? && Check(e, rc, top) == None
    ensures LiteralTest(e.test) != Some(false) ==> Check(e.thn, rc, top) == None
    ensures LiteralTest(e.test) != Some(true) && e.els.Some? ==> Check(e.els.value, rc, top) == None
    ensures LiteralTest(e.test) == None ==> Check(e.test, rc, top) == None
  {
  }

  lemma {:induction false} LiesIf(C: seq<Instr>, fin: Scope, e: Form, rc: RecurCtx, sc: Scopes, rt: Target, pos: nat, h: seq<nat>)
    requires e.If?
    requires WellFormed(sc) && Check(e, rc, sc.NoScope?) == None && TargetOk(rc, rt, SlotsOf(sc), pos, fin)
    requires Stands(C, fin, pos, Compile(e, sc, rt, pos)) && Earlier(h, pos)
    ensures var r := Compile(e, sc, rt, pos); Lies(C, fin, pos, pos + |r.code|, sc, r.sc, rt, h)
    decreases e, 0
  {
    hide Fit, Lies, WellFormed, Grows, Extends, CodeAt, NotCapture, Earlier, TargetOk, Compile, CompileElse, Check;
    var c := Compile(e.test, sc, rt, pos);
    var p := pos + |c.code| + 1;
    var th := Compile(e.thn, c.sc, rt, p);
    var q := p + |th.code| + 1;
    var f := CompileElse(e.els, th.sc, rt, q);
    IfAccepted(e, rc, sc.NoScope?);
    IfCompiled(e, sc, rt, pos, c, th, f);
    if LiteralTest(e.test) == Some(true) {
      LiesForm(C, fin, e.thn, rc, sc, rt, pos, h);
    } else if LiteralTest(e.test) == Some(false) {
      LiesElse(C, fin, e.els, rc, sc, rt, pos, h);
    } else {
      IfCode(C, pos, c.code, JumpIfFalse(|th.code| + 1), th.code, Jump(|f.code|), f.code);
      CompileGrows(e.test, sc, rt, pos);
      CompileGrows(e.thn, c.sc, rt, p);
      ElseGrows(e.els, th.sc, rt, q);
      Between(c.sc, th.sc, f.sc, fin);
      Between(sc, c.sc, th.sc, fin);
      TargetLater(rc, rt, SlotsOf(sc), pos, fin, SlotsOf(c.sc), p);
      TargetLater(rc, rt, SlotsOf(sc), pos, fin, SlotsOf(th.sc), q);
      EarlierLater(h, pos);
      LiesForm(C, fin, e.test, rc, sc, rt, pos, h);
      LiesForm(C, fin, e.thn, rc, c.sc, rt, p, h);
      LiesElse(C, fin, e.els, rc, th.sc, rt, q, h);
      LiesBranches(C, fin, rc, sc, c, th, f, rt, pos, h);
    }
  }

  lemma EarlierLater(h: seq<nat>, pos: nat)
    requires Earlier(h, pos)
    ensures forall p | p >= pos :: Earlier(h, p)
  {
  }

  lemma LiesBranches(C: seq<Instr>, fin: Scope, rc: RecurCtx, sc: Scopes, c: Piece, th: Piece, f: Piece, rt: Target, pos: nat, h: seq<nat>)
    requires WellFormed(sc) && WellFormed(c.sc) && WellFormed(th.sc) && WellFormed(f.sc) && Grows(sc, c.sc) && Grows(c.sc, th.sc) && Grows(th.sc, f.sc)
    requires (c.sc.Inner? ==> Extends(c.sc.top, fin)) && (th.sc.Inner? ==> Extends(th.sc.top, fin)) && (f.sc.Inner? ==> Extends(f.sc.top, fin))
    requires TargetOk(rc, rt, SlotsOf(sc), pos, fin) && Earlier(h, pos)
    requires var p := pos + |c.code| + 1; var q := p + |th.code| + 1;
             && CodeAt(C, p - 1, [JumpIfFalse(|th.code| + 1)]) && CodeAt(C, q - 1, [Jump(|f.code|)])
             && Lies(C, fin, pos, p - 1, sc, c.sc, rt, h) && Lies(C, fin, p, q - 1, c.sc, th.sc, rt, h)
             && Lies(C, fin, q, q + |f.code|, th.sc, f.sc, rt, h)
    ensures Lies(C, fin, pos, pos + |c.code| + 1 + |th.code| + 1 + |f.code|, sc, f.sc, rt, h)
  {
    hide Fit, WellFormed, Grows, Extends, NotCapture, TargetOk, Meets, Around;
    var p := pos + |c.code| + 1;
    var q := p + |th.code| + 1;
    var end := q + |f.code|;
    var n, nc, nt, nf := SlotsOf(sc), SlotsOf(c.sc), SlotsOf(th.sc), SlotsOf(f.sc);
    CodeAtOne(C, p - 1, JumpIfFalse(|th.code| + 1));
    CodeAtOne(C, q - 1, Jump(|f.code|));
    GrowsSlots(sc, c.sc);
    GrowsSlots(c.sc, th.sc);
    GrowsSlots(th.sc, f.sc);
    TargetLater(rc, rt, n, pos, fin, nc, p - 1);
    TargetLater(rc, rt, n, pos, fin, nc, p);
    Last(C, fin, p, q - 1, c.sc, th.sc, rc, rt, h);
    First(C, fin, p - 1, q, c.sc, nt, rc, rt, h, end);
    var x, y := Part(p - 1, q, nc, nt), Part(q, end, nt, nf);
    FitMeets(C, x, y, h, end, end);
    TargetAround(rc, rt, nc, p - 1, fin, x);
    Sequel(C, fin, c.sc, th.sc, x, Ends(h, h, end, h), y, Ends(h, h, end, h), rt, {});
    Follow(C, fin, pos, p - 1, end, sc, c.sc, nf, rc, rt, h, end);
  }

  lemma {:induction false} LiesSequence(C: seq<Instr>, fin: Scope, e: Form, rc: RecurCtx, sc: Scopes, rt: Target, pos: nat, h: seq<nat>)
    requires e.Do? || e.And? || e.Or?
    requires WellFormed(sc) && Check(e, rc, sc.NoScope?) == None && TargetOk(rc, rt, SlotsOf(sc), pos, fin)
    requires Stands(C, fin, pos, Compile(e, sc, rt, pos)) && Earlier(h, pos)
    ensures var r := Compile(e, sc, rt, pos); Lies(C, fin, pos, pos + |r.code|, sc, r.sc, rt, h)
    decreases e, 0
  {
    hide Fit, Lies, WellFormed, Grows, Extends, CodeAt, NotCapture, Earlier, TargetOk, CompileBody, CompileChain, CheckAll;
    match e
    case Do(es) => LiesBody(C, fin, es, 0, rc, sc, rt, pos, h);
    case And(es) =>
      if |es| == 0 { Alone(C, fin, PushTrue, pos, sc, rt, h); } else { LiesChain(C, fin, es, 0, true, rc, sc, rt, pos, h); }
    case Or(es) =>
      if |es| == 0 { Alone(C, fin, PushNil, pos, sc, rt, h); } else { LiesChain(C, fin, es, 0, false, rc, sc, rt, pos, h); }
  }

  lemma AllChecked(es: seq<Form>, i: nat, rc: RecurCtx, top: bool)
    requires i < |es| && CheckAll(es, i, rc, top) == None
    ensures Check(es[i], rc, top) == None && CheckAll(es, i + 1, rc, top) == None
  {
    hide Check;
  }

  lemma {:induction false} LiesBody(C: seq<Instr>, fin: Scope, es: seq<Form>, i: nat, rc: RecurCtx, sc: Scopes, rt: Target, pos: nat, h: seq<nat>)
    requires i <= |es|
    requires WellFormed(sc) && CheckAll(es, i, rc, sc.NoScope?) == None && TargetOk(rc, rt, SlotsOf(sc), pos, fin)
    requires Stands(C, fin, pos, CompileBody(es, i, sc, rt, pos)) && Earlier(h, pos)
    ensures var r := CompileBody(es, i, sc, rt, pos); Lies(C, fin, pos, pos + |r.code|, sc, r.sc, rt, h)
    decreases es, |es| - i
  {
    hide Fit, Lies, WellFormed, Grows, Extends, CodeAt, NotCapture, Earlier, TargetOk, Compile, CheckAll;
    if i == |es| {
      Alone(C, fin, PushNil, pos, sc, rt, h);
    } else {
      AllChecked(es, i, rc, sc.NoScope?);
      if i + 1 == |es| {
        LiesForm(C, fin, es[i], rc, sc, rt, pos, h);
      } else {
        var c := Compile(es[i], sc, rt, pos);
        var p := pos + |c.code| + 1;
        var rest := CompileBody(es, i + 1, c.sc, rt, p);
        CodeAtSplit(C, pos, c.code + [Pop], rest.code);
        CodeAtSplit(C, pos, c.code, [Pop]);
        CompileGrows(es[i], sc, rt, pos);
        BodyGrows(es, i + 1, c.sc, rt, p);
        Between(sc, c.sc, rest.sc, fin);
        TargetLater(rc, rt, SlotsOf(sc), pos, fin, SlotsOf(c.sc), p);
        EarlierLater(h, pos);
        LiesForm(C, fin, es[i], rc, sc, rt, pos, h);
        LiesBody(C, fin, es, i + 1, rc, c.sc, rt, p, h);
        Popped(C, fin, pos, p - 1, p + |rest.code|, sc, c.sc, rest.sc, rc, rt, h);
      }
    }
  }

  /** A form's code, POP, and more code. */
  lemma Popped(C: seq<Instr>, fin: Scope, lo: nat, i: nat, hi: nat, sc: Scopes, sc1: Scopes, sc2: Scopes, rc: RecurCtx, rt: Target, h: seq<nat>)
    requires Lies(C, fin, lo, i, sc, sc1, rt, h) && Lies(C, fin, i + 1, hi, sc1, sc2, rt, h) && CodeAt(C, i, [Pop]) && lo <= i
    requires TargetOk(rc, rt, SlotsOf(sc), lo, fin) && Earlier(h, lo)
    requires Grows(sc, sc1) && WellFormed(sc) && WellFormed(sc1) && (sc1.Inner? ==> Extends(sc1.top, fin))
    ensures Lies(C, fin, lo, hi, sc, sc2, rt, h)
  {
    hide Fit, WellFormed, Grows, Extends, NotCapture, TargetOk;
    CodeAtOne(C, i, Pop);
    GrowsSlots(sc, sc1);
    TargetLater(rc, rt, SlotsOf(sc), lo, fin, SlotsOf(sc1), i);
    First(C, fin, i, hi, sc1, SlotsOf(sc2), rc, rt, h, hi);
    Follow(C, fin, lo, i, hi, sc, sc1, SlotsOf(sc2), rc, rt, h, hi);
  }

  lemma {:induction false} LiesEffects(C: seq<Instr>, fin: Scope, es: seq<Form>, i: nat, rc: RecurCtx, sc: Scopes, pos: nat, h: seq<nat>)
    requires i <= |es|
    requires WellFormed(sc) && CheckAll(es, i, rc, sc.NoScope?) == None && TargetOk(rc, NoTarget, SlotsOf(sc), pos, fin)
    requires Stands(C, fin, pos, CompileEffects(es, i, sc, pos)) && Earlier(h, pos)
    ensures var r := CompileEffects(es, i, sc, pos); Lies(C, fin, pos, pos + |r.code|, sc, r.sc, NoTarget, h)
    decreases es, |es| - i
  {
    hide Fit, WellFormed, Grows, Extends, NotCapture, Earlier, TargetOk, Compile, CheckAll;
    if i == |es| {
      Nothing(C, fin, pos, SlotsOf(sc), NoTarget, {}, Named(sc), h);
    } else {
      hide CodeAt, Lies;
      AllChecked(es, i, rc, sc.NoScope?);
      var c := Compile(es[i], sc, NoTarget, pos);
      var p := pos + |c.code| + 1;
      var rest := CompileEffects(es, i + 1, c.sc, p);
      CodeAtSplit(C, pos, c.code + [Pop], rest.code);
      CodeAtSplit(C, pos, c.code, [Pop]);
      CompileGrows(es[i], sc, NoTarget, pos);
      EffectsGrow(es, i + 1, c.sc, p);
      Between(sc, c.sc, rest.sc, fin);
      TargetLater(rc, NoTarget, SlotsOf(sc), pos, fin, SlotsOf(c.sc), p);
      EarlierLater(h, pos);
      LiesForm(C, fin, es[i], rc, sc, NoTarget, pos, h);
      LiesEffects(C, fin, es, i + 1, rc, c.sc, p, h);
      Popped(C, fin, pos, p - 1, p + |rest.code|, sc, c.sc, rest.sc, rc, NoTarget, h);
    }
  }

  lemma {:induction false} LiesChain(C: seq<Instr>, fin: Scope, es: seq<Form>, i: nat, conj: bool, rc: RecurCtx, sc: Scopes, rt: Target, pos: nat, h: seq<nat>)
    requires i < |es|
    requires WellFormed(sc) && CheckAll(es, i, rc, sc.NoScope?) == None && TargetOk(rc, rt, SlotsOf(sc), pos, fin)
    requires Stands(C, fin, pos, CompileChain(es, i, conj, sc, rt, pos)) && Earlier(h, pos)
    ensures var r := CompileChain(es, i, conj, sc, rt, pos); Lies(C, fin, pos, pos + |r.code|, sc, r.sc, rt, h)
    decreases es, |es| - i
  {
    hide Fit, Lies, WellFormed, Grows, Extends, CodeAt, NotCapture, Earlier, TargetOk, Compile, CheckAll, CompileChain;
    AllChecked(es, i, rc, sc.NoScope?);
    var c := Compile(es[i], sc, rt, pos);
    ChainCompiled(es, i, conj, sc, rt, pos, c);
    if i + 1 == |es| {
      LiesForm(C, fin, es[i], rc, sc, rt, pos, h);
    } else {
      var p := pos + |c.code| + 3;
      var rest := CompileChain(es, i + 1, conj, c.sc, rt, p);
      var link := ChainInstrs(conj, |rest.code| + 1);
      CodeAtSplit(C, pos, c.code + link, rest.code);
      CodeAtSplit(C, pos, c.code, link);
      CompileGrows(es[i], sc, rt, pos);
      ChainGrows(es, i + 1, conj, c.sc, rt, p);
      Between(sc, c.sc, rest.sc, fin);
      TargetLater(rc, rt, SlotsOf(sc), pos, fin, SlotsOf(c.sc), p);
      EarlierLater(h, pos);
      LiesForm(C, fin, es[i], rc, sc, rt, pos, h);
      LiesChain(C, fin, es, i + 1, conj, rc, c.sc, rt, p, h);
      Linked(C, fin, pos, p - 3, p + |rest.code|, conj, sc, c.sc, rest.sc, rc, rt, h);
    }
  }

  /** An operand of `and` / `or`, its test, and the rest. */
  lemma Linked(C: seq<Instr>, fin: Scope, lo: nat, i: nat, hi: nat, conj: bool, sc: Scopes, sc1: Scopes, sc2: Scopes, rc: RecurCtx, rt: Target, h: seq<nat>)
    requires lo <= i && hi >= i + 3 && CodeAt(C, i, ChainInstrs(conj, hi - i - 2))
    requires Lies(C, fin, lo, i, sc, sc1, rt, h) && Lies(C, fin, i + 3, hi, sc1, sc2, rt, h)
    requires TargetOk(rc, rt, SlotsOf(sc), lo, fin) && Earlier(h, lo)
    requires Grows(sc, sc1) && WellFormed(sc) && WellFormed(sc1) && (sc1.Inner? ==> Extends(sc1.top, fin))
    ensures Lies(C, fin, lo, hi, sc, sc2, rt, h)
  {
    hide Fit, WellFormed, Grows, Extends, NotCapture, TargetOk;
    var n1, n2 := SlotsOf(sc1), SlotsOf(sc2);
    ThreeInstrs(C, i, Dup, if conj then JumpIfFalse(hi - i - 2) else JumpIfTrue(hi - i - 2), Pop);
    CodeAtOne(C, i, Dup);
    CodeAtOne(C, i + 1, if conj then JumpIfFalse(hi - i - 2) else JumpIfTrue(hi - i - 2));
    CodeAtOne(C, i + 2, Pop);
    GrowsSlots(sc, sc1);
    TargetLater(rc, rt, SlotsOf(sc), lo, fin, n1, i);
    TargetLater(rc, rt, SlotsOf(sc), lo, fin, n1, i + 1);
    TargetLater(rc, rt, SlotsOf(sc), lo, fin, n1, i + 2);
    First(C, fin, i + 2, hi, sc1, n2, rc, rt, h, hi);
    First(C, fin, i + 1, hi, sc1, n2, rc, rt, h, hi);
    First(C, fin, i, hi, sc1, n2, rc, rt, h, hi);
    Follow(C, fin, lo, i, hi, sc, sc1, n2, rc, rt, h, hi);
  }

  lemma {:induction false} LiesArgs(C: seq<Instr>, fin: Scope, es: seq<Form>, i: nat, rc: RecurCtx, sc: Scopes, rt: Target, pos: nat, h: seq<nat>)
    requires i <= |es|
    requires WellFormed(sc) && CheckAll(es, i, rc, sc.NoScope?) == None && TargetOk(rc, rt, SlotsOf(sc), pos, fin)
    requires Stands(C, fin, pos, CompileArgs(es, i, sc, rt, pos)) && Earlier(h, pos)
    ensures var r := CompileArgs(es, i, sc, rt, pos); Lies(C, fin, pos, pos + |r.code|, sc, r.sc, rt, h)
    decreases es, |es| - i
  {
    hide Fit, WellFormed, Grows, Extends, NotCapture, Earlier, TargetOk, Compile, CheckAll;
    if i == |es| {
      Nothing(C, fin, pos, SlotsOf(sc), rt, {}, Named(sc), h);
    } else {
      hide CodeAt;
      AllChecked(es, i, rc, sc.NoScope?);
      var c := Compile(es[i], sc, rt, pos);
      var p := pos + |c.code|;
      var rest := CompileArgs(es, i + 1, c.sc, rt, p);
      CodeAtSplit(C, pos, c.code, rest.code);
      CompileGrows(es[i], sc, rt, pos);
      ArgsGrow(es, i + 1, c.sc, rt, p);
      Between(sc, c.sc, rest.sc, fin);
      TargetLater(rc, rt, SlotsOf(sc), pos, fin, SlotsOf(c.sc), p);
      EarlierLater(h, pos);
      LiesForm(C, fin, es[i], rc, sc, rt, pos, h);
      LiesArgs(C, fin, es, i + 1, rc, c.sc, rt, p, h);
      Follow(C, fin, pos, p, p + |rest.code|, sc, c.sc, SlotsOf(rest.sc), rc, rt, h, p + |rest.code|);
    }
  }

  lemma {:induction false} LiesCall(C: seq<Instr>, fin: Scope, e: Form, rc: RecurCtx, sc: Scopes, rt: Target, pos: nat, h: seq<nat>)
    requires e.Call?
    requires WellFormed(sc) && Check(e, rc, sc.NoScope?) == None && TargetOk(rc, rt, SlotsOf(sc), pos, fin)
    requires Stands(C, fin, pos, Compile(e, sc, rt, pos)) && Earlier(h, pos)
    ensures var r := Compile(e, sc, rt, pos); Lies(C, fin, pos, pos + |r.code|, sc, r.sc, rt, h)
    decreases e, 0
  {
    hide Fit, WellFormed, Grows, Extends, CodeAt, NotCapture, Earlier, TargetOk, CheckAll, CompileArgs;
    var c := Compile(e.head, sc, rt, pos);
    var p := pos + |c.code|;
    var a := CompileArgs(e.args, 0, c.sc, rt, p);
    CodeAtSplit(C, pos, c.code + a.code, [Invoke(|e.args|)]);
    CodeAtSplit(C, pos, c.code, a.code);
    CodeAtOne(C, p + |a.code|, Invoke(|e.args|));
    CompileGrows(e.head, sc, rt, pos);
    ArgsGrow(e.args, 0, c.sc, rt, p);
    Between(sc, c.sc, a.sc, fin);
    GrowsTrans(sc, c.sc, a.sc);
    TargetLater(rc, rt, SlotsOf(sc), pos, fin, SlotsOf(c.sc), p);
    EarlierLater(h, pos);
    LiesForm(C, fin, e.head, rc, sc, rt, pos, h);
    LiesArgs(C, fin, e.args, 0, rc, c.sc, rt, p, h);
    Follow(C, fin, pos, p, p + |a.code|, sc, c.sc, SlotsOf(a.sc), rc, rt, h, p + |a.code|);
    Last(C, fin, pos, p + |a.code|, sc, a.sc, rc, rt, h);
  }

  /** A closure made: the captured slots read, and MAKE_FN. */
  lemma LiesFn(C: seq<Instr>, fin: Scope, e: Form, rc: RecurCtx, sc: Scopes, rt: Target, pos: nat, h: seq<nat>)
    requires e.Fn?
    requires WellFormed(sc) && Check(e, rc, sc.NoScope?) == None && TargetOk(rc, rt, SlotsOf(sc), pos, fin)
    requires Stands(C, fin, pos, Compile(e, sc, rt, pos)) && Earlier(h, pos)
    ensures var r := Compile(e, sc, rt, pos); Lies(C, fin, pos, pos + |r.code|, sc, r.sc, rt, h)
  {
    hide Fit, Grows, Extends, CodeAt, NotCapture, Earlier, CheckAll, CompileFn, Around, Resolve;
    var r := CompileFn(e.params, e.body, sc);
    var m := FnModule(r, |e.params|);
    FnGrows(e.params, e.body, sc);
    assert MadeFrom(m, e.params, e.body, sc);
    var sc1 := r.sc.outer;
    var n1 := SlotsOf(sc1);
    CaptureReads(r.sc);
    hide WellFormed;
    NamedGrows(sc, sc1, fin);
    GrowsSlots(sc, sc1);
    EarlierLater(h, pos);
    LiesReads(C, fin, m, 0, pos, n1, rt, Named(sc1), h);
    var end := pos + |m.captures| + 1;
    var q := Part(pos, end, SlotsOf(sc), n1);
    TargetAround(rc, rt, SlotsOf(sc), pos, fin, q);
    Widen(C, fin, Part(pos, end, n1, n1), Ends(h, h, end, h), rt, {}, Named(sc1), q, rt, {}, Named(sc));
  }

  lemma CaptureReads(sc: Scopes)
    requires sc.Inner? && WellFormed(sc)
    ensures forall i | 0 <= i < |sc.top.captures| ::
              sc.top.captures[i].parentSlot in Named(sc.outer) && sc.top.captures[i].parentSlot < SlotsOf(sc.outer)
  {
    forall i | 0 <= i < |sc.top.captures|
      ensures sc.top.captures[i].parentSlot in Named(sc.outer) && sc.top.captures[i].parentSlot < SlotsOf(sc.outer)
    {
      assert CaptureOk(sc.top.captures[i], sc);
    }
  }

  lemma {:induction false} LiesReads(C: seq<Instr>, fin: Scope, m: Module, i: nat, pos: nat, n: nat, rt: Target, named: set<nat>, h: seq<nat>)
    requires i <= |m.captures| && CodeAt(C, pos, ReadCaptures(m.captures)[i..] + [MakeFn(m)]) && Earlier(h, pos) && Made(m)
    requires forall j | 0 <= j < |m.captures| :: m.captures[j].parentSlot in named && m.captures[j].parentSlot < n
    requires forall s | s in named :: s < n
    requires rt.Target? ==> rt.start <= pos && forall s | s in rt.slots :: s < n
    ensures Fit(C, fin, Part(pos, pos + |m.captures| - i + 1, n, n), rt, {}, named, Ends(h, h, pos + |m.captures| - i + 1, h))
    decreases |m.captures| - i
  {
    hide Fit, Made, NotCapture;
    var end := pos + |m.captures| - i + 1;
    if i == |m.captures| {
      CodeAtHead(C, pos, ReadCaptures(m.captures)[i..] + [MakeFn(m)]);
      Single(C, fin, pos, n, rt, {}, named, h);
    } else {
      ReadsFrom(m.captures, i);
      var rest := ReadCaptures(m.captures)[i + 1..] + [MakeFn(m)];
      assert ReadCaptures(m.captures)[i..] + [MakeFn(m)] == [PushLocal(m.captures[i].parentSlot)] + rest;
      CodeAtHead(C, pos, [PushLocal(m.captures[i].parentSlot)] + rest);
      Single(C, fin, pos, n, rt, {}, named, h);
      LiesReads(C, fin, m, i + 1, pos + 1, n, rt, named, h);
      var p, q := Part(pos, pos + 1, n, n), Part(pos + 1, end, n, n);
      FitMeets(C, p, q, h, pos + 1, end);
      hide Meets;
      Seam(C, fin, p, Ends(h, h, pos + 1, h), q, Ends(h, h, end, h), rt, {}, named, named);
    }
  }

  lemma {:induction false} LiesScoped(C: seq<Instr>, fin: Scope, e: Form, rc: RecurCtx, sc: Scopes, rt: Target, pos: nat, h: seq<nat>)
    requires e.Let? || e.Loop? || e.Try?
    requires WellFormed(sc) && Check(e, rc, sc.NoScope?) == None && TargetOk(rc, rt, SlotsOf(sc), pos, fin)
    requires Stands(C, fin, pos, Compile(e, sc, rt, pos)) && Earlier(h, pos)
    ensures var r := Compile(e, sc, rt, pos); Lies(C, fin, pos, pos + |r.code|, sc, r.sc, rt, h)
    decreases e, if sc.NoScope? then 2 else 1, 0
  {
    hide Fit, Lies, WellFormed, Grows, Extends, CodeAt, NotCapture, Earlier, TargetOk, CheckAll, CheckInits, CheckClauses,
      CompileLet, CompileLoop, CompileCatches, CompileEffects;
    if sc.NoScope? { LiesThunk(C, fin, e, rc, sc, rt, pos, h); }
    else if e.Let? { LiesLet(C, fin, e, 0, rc, sc, rt, pos, h); }
    else if e.Loop? {
      LiesLoop(C, fin, e, 0, [], rc, sc, rt, pos, h);
      NoneOwned(C, fin, pos, pos + |Compile(e, sc, rt, pos).code|, sc, Compile(e, sc, rt, pos).sc, rt, h);
    } else { LiesTry(C, fin, e, rc, sc, rt, pos, h); }
  }

  lemma NoneOwned(C: seq<Instr>, fin: Scope, lo: nat, hi: nat, sc: Scopes, sc1: Scopes, rt: Target, h: seq<nat>)
    requires Fit(C, fin, Part(lo, hi, SlotsOf(sc), SlotsOf(sc1)), rt, SlotSet([]), Named(sc), Ends(h, h, hi, h))
    ensures Lies(C, fin, lo, hi, sc, sc1, rt, h)
  {
    hide Fit;
    assert SlotSet([]) == {};
  }

  lemma LiesThunk(C: seq<Instr>, fin: Scope, e: Form, rc: RecurCtx, sc: Scopes, rt: Target, pos: nat, h: seq<nat>)
    requires (e.Let? || e.Loop? || e.Try?) && sc.NoScope? && Check(e, rc, true) == None && TargetOk(rc, rt, SlotsOf(sc), pos, fin)
    requires Stands(C, fin, pos, Compile(e, sc, rt, pos)) && Earlier(h, pos)
    ensures var r := Compile(e, sc, rt, pos); Lies(C, fin, pos, pos + |r.code|, sc, r.sc, rt, h)
  {
    hide Fit, Lies, Compile, Check, Made, CompileThunk, Earlier, TargetOk;
    ThunkIsFn(e, rc);
    ThunkCode(e, sc, rt, pos);
    CalledLies(C, fin, FnModule(Compile(e, Inner(ParamScope([]), sc), Target(0, []), 0), 0), rc, sc, rt, pos, h);
  }

  /** A fn made and called at once. */
  lemma CalledLies(C: seq<Instr>, fin: Scope, m: Module, rc: RecurCtx, sc: Scopes, rt: Target, pos: nat, h: seq<nat>)
    requires sc.NoScope? && CodeAt(C, pos, [MakeFn(m), Invoke(0)]) && Made(m) && TargetOk(rc, rt, SlotsOf(sc), pos, fin) && Earlier(h, pos)
    ensures Lies(C, fin, pos, pos + 2, sc, sc, rt, h)
  {
    hide Fit, Lies, CodeAt, Made;
    GrowsSelf(sc);
    EarlierLater(h, pos);
    assert [MakeFn(m), Invoke(0)] == [MakeFn(m)] + [Invoke(0)];
    CodeAtSplit(C, pos, [MakeFn(m)], [Invoke(0)]);
    Alone(C, fin, MakeFn(m), pos, sc, rt, h);
    Alone(C, fin, Invoke(0), pos + 1, sc, rt, h);
    LiesBoth(C, fin, pos, pos + 1, pos + 2, sc, rc, rt, h);
  }

  lemma ThunkCode(e: Form, sc: Scopes, rt: Target, pos: nat)
    requires (e.Let? || e.Loop? || e.Try?) && sc.NoScope?
    ensures Compile(e, sc, rt, pos) == Piece([MakeFn(FnModule(Compile(e, Inner(ParamScope([]), sc), Target(0, []), 0), 0)), Invoke(0)], sc)
  {
  }

  lemma LiesBoth(C: seq<Instr>, fin: Scope, lo: nat, mid: nat, hi: nat, sc: Scopes, rc: RecurCtx, rt: Target, h: seq<nat>)
    requires Lies(C, fin, lo, mid, sc, sc, rt, h) && Lies(C, fin, mid, hi, sc, sc, rt, h)
    requires TargetOk(rc, rt, SlotsOf(sc), lo, fin) && Earlier(h, lo) && sc.NoScope?
    ensures Lies(C, fin, lo, hi, sc, sc, rt, h)
  {
    hide Fit;
    Follow(C, fin, lo, mid, hi, sc, sc, SlotsOf(sc), rc, rt, h, hi);
  }

  lemma ThunkIsFn(e: Form, rc: RecurCtx)
    requires (e.Let? || e.Loop? || e.Try?) && Check(e, rc, true) == None
    ensures Made(FnModule(Compile(e, Inner(ParamScope([]), NoScope), Target(0, []), 0), 0))
  {
    assert Upto(0) == [];
    assert CheckAll([e], 1, InLoop(0, false), false) == None;
    var r := Compile(e, Inner(ParamScope([]), NoScope), Target(0, []), 0);
    assert CompileBody([e], 0, Inner(ParamScope([]), NoScope), Target(0, []), 0) == r;
    assert MadeFrom(FnModule(r, 0), [], [e], NoScope);
  }

  /** A binding of a `let` or `loop`: its value, STORE_LOCAL, and its scope. */
  lemma LiesBinding(C: seq<Instr>, fin: Scope, lo: nat, i: nat, hi: nat, sc: Scopes, sc1: Scopes, x: string, n2: nat,
                    rc: RecurCtx, rt: Target, own: set<nat>, h: seq<nat>)
    requires sc.Inner? && sc1.Inner? && lo <= i && Lies(C, fin, lo, i, sc, sc1, rt, h) && CodeAt(C, i, [StoreLocal(sc1.top.nextSlot)])
    requires Fit(C, fin, Part(i + 1, hi, sc1.top.nextSlot + 1, n2), rt, own + {sc1.top.nextSlot}, Named(Bind(sc1, x)), Ends(h, h, hi, h))
    requires TargetOk(rc, rt, SlotsOf(sc), lo, fin) && Earlier(h, lo) && forall s | s in own :: s < SlotsOf(sc)
    requires Grows(sc, sc1) && WellFormed(sc) && WellFormed(sc1) && Extends(Bind(sc1, x).top, fin)
    ensures Fit(C, fin, Part(lo, hi, SlotsOf(sc), n2), rt, own, Named(sc), Ends(h, h, hi, h))
  {
    hide CodeAt, Fit, WellFormed, Grows, Extends, NotCapture, TargetOk, Around, Bind, Named;
    var slot := sc1.top.nextSlot;
    var p, q, q0 := Part(lo, i, SlotsOf(sc), slot), Part(i, hi, slot, n2), Part(i + 1, hi, slot + 1, n2);
    CodeAtOne(C, i, StoreLocal(slot));
    BoundSlot(sc1, x, fin);
    GrowsSlots(sc, sc1);
    BindingAround(rc, rt, SlotsOf(sc), lo, fin, own, p, q);
    FitRange(C, fin, q0, rt, own + {slot}, Named(Bind(sc1, x)), Ends(h, h, hi, h));
    FitMeets(C, p, q, h, i, hi);
    hide Meets;
    Binds(C, fin, i, slot, q0, Ends(h, h, hi, h), rt, own, Named(Bind(sc1, x)));
    Widen(C, fin, q, Ends(h, h, hi, h), rt, own, Named(Bind(sc1, x)) - {slot}, q, rt, own, Named(sc1));
    TargetAround(rc, rt, SlotsOf(sc), lo, fin, p);
    Widen(C, fin, p, Ends(h, h, i, h), rt, {}, Named(sc), p, rt, own, Named(sc));
    Sequel(C, fin, sc, sc1, p, Ends(h, h, i, h), q, Ends(h, h, hi, h), rt, own);
  }

  lemma BoundSlot(sc: Scopes, x: string, fin: Scope)
    requires sc.Inner? && WellFormed(sc) && Extends(Bind(sc, x).top, fin)
    ensures NotCapture(sc.top.nextSlot, fin) && Extends(sc.top, fin)
    ensures forall s | s in Named(Bind(sc, x)) - {sc.top.nextSlot} :: s in Named(sc)
  {
    FreshSlot(sc, Bind(sc, x).top, fin);
    BindExtends(sc, x, fin);
  }

  lemma BindingAround(rc: RecurCtx, rt: Target, n: nat, pos: nat, fin: Scope, own: set<nat>, p: Part, q: Part)
    requires TargetOk(rc, rt, n, pos, fin) && (forall s | s in own :: s < n)
    requires p.lo == pos <= q.lo && p.n == n <= q.n
    ensures Around(p, rt, own) && Around(q, rt, own) && (rt.Target? ==> rt.start <= q.lo)
  {
  }

  lemma FitRange(C: seq<Instr>, fin: Scope, p: Part, rt: Target, own: set<nat>, named: set<nat>, E: Ends)
    requires Fit(C, fin, p, rt, own, named, E)
    ensures p.lo <= p.hi <= |C| && p.n <= p.n1
  {
  }

  lemma {:induction false} LiesLet(C: seq<Instr>, fin: Scope, e: Form, i: nat, rc: RecurCtx, sc: Scopes, rt: Target, pos: nat, h: seq<nat>)
    requires e.Let? && sc.Inner? && i <= |e.bs| && CheckInits(e.bs, i, rc) == None && CheckAll(e.body, 0, rc, false) == None
    requires WellFormed(sc) && TargetOk(rc, rt, SlotsOf(sc), pos, fin)
    requires Stands(C, fin, pos, CompileLet(e, i, sc, rt, pos)) && Earlier(h, pos)
    ensures var r := CompileLet(e, i, sc, rt, pos); Lies(C, fin, pos, pos + |r.code|, sc, r.sc, rt, h)
    decreases e, 0, |e.bs| - i
  {
    hide Fit, WellFormed, Grows, Extends, CodeAt, NotCapture, Earlier, TargetOk, CheckAll, CompileBody, Compile, Check, Restore, CompileLet;
    if i == |e.bs| {
      LetBodyCompiled(e, sc, rt, pos);
      LiesBody(C, fin, e.body, 0, rc, sc, rt, pos, h);
    } else {
      var x := e.bs[i].name;
      var c := Compile(e.bs[i].init, sc, rt, pos);
      var p := pos + |c.code| + 1;
      LetCompiled(e, i, sc, rt, pos, c);
      var slot := c.sc.top.nextSlot;
      var sc1 := Bind(c.sc, x);
      var rest := CompileLet(e, i + 1, sc1, rt, p);
      CodeAtSplit(C, pos, c.code + [StoreLocal(slot)], rest.code);
      CodeAtSplit(C, pos, c.code, [StoreLocal(slot)]);
      CompileGrows(e.bs[i].init, sc, rt, pos);
      BindWellFormed(c.sc, x);
      LetGrows(e, i + 1, sc1, rt, p);
      RestoredIn(rest.sc, x, c.sc, fin);
      ExtendsFrom(sc1, rest.sc, fin);
      BindExtends(c.sc, x, fin);
      GrowsSlots(sc, c.sc);
      TargetLater(rc, rt, SlotsOf(sc), pos, fin, SlotsOf(sc1), p);
      EarlierLater(h, pos);
      LiesForm(C, fin, e.bs[i].init, rc, sc, rt, pos, h);
      LiesLet(C, fin, e, i + 1, rc, sc1, rt, p, h);
      var q := Part(p, p + |rest.code|, slot + 1, SlotsOf(rest.sc));
      TargetAround(rc, rt, slot + 1, p, fin, q);
      Widen(C, fin, q, Ends(h, h, q.hi, h), rt, {}, Named(sc1), q, rt, {slot}, Named(sc1));
      assert {} + {slot} == {slot};
      LiesBinding(C, fin, pos, p - 1, q.hi, sc, c.sc, x, q.n1, rc, rt, {}, h);
    }
  }

  lemma RestoredIn(d: Scopes, x: string, c: Scopes, fin: Scope)
    requires d.Inner? && c.Inner? && Extends(Restore(d, x, c).top, fin)
    ensures Extends(d.top, fin) && SlotsOf(Restore(d, x, c)) == SlotsOf(d)
  {
  }

  lemma {:induction false} LiesLoop(C: seq<Instr>, fin: Scope, e: Form, i: nat, slots: seq<nat>, rc: RecurCtx, sc: Scopes, rt: Target, pos: nat, h: seq<nat>)
    requires e.Loop? && sc.Inner? && i <= |e.bs| && |slots| == i
    requires CheckInits(e.bs, i, rc) == None && CheckAll(e.body, 0, InLoop(|e.bs|, false), false) == None
    requires WellFormed(sc) && TargetOk(rc, rt, SlotsOf(sc), pos, fin)
    requires forall s | s in slots :: s < SlotsOf(sc) && NotCapture(s, fin)
    requires Stands(C, fin, pos, CompileLoop(e, i, slots, sc, rt, pos)) && Earlier(h, pos)
    ensures var r := CompileLoop(e, i, slots, sc, rt, pos);
            Fit(C, fin, Part(pos, pos + |r.code|, SlotsOf(sc), SlotsOf(r.sc)), rt, SlotSet(slots), Named(sc), Ends(h, h, pos + |r.code|, h))
    decreases e, 0, |e.bs| - i
  {
    hide Fit, WellFormed, Grows, Extends, CodeAt, NotCapture, Earlier, CheckAll, CompileBody, Compile, Check, Restore, CompileLoop;
    if i == |e.bs| {
      var b := CompileBody(e.body, 0, sc, Target(pos, slots), pos);
      LoopBodyCompiled(e, slots, sc, rt, pos);
      LiesBody(C, fin, e.body, 0, InLoop(|e.bs|, false), sc, Target(pos, slots), pos, h);
      Closes(C, fin, Part(pos, pos + |b.code|, SlotsOf(sc), SlotsOf(b.sc)), Ends(h, h, pos + |b.code|, h), Target(pos, slots), rt, Named(sc));
    } else {
      hide TargetOk;
      var x := e.bs[i].name;
      var c := Compile(e.bs[i].init, sc, rt, pos);
      var p := pos + |c.code| + 1;
      LoopCompiled(e, i, slots, sc, rt, pos, c);
      var slot := c.sc.top.nextSlot;
      var sc1 := Bind(c.sc, x);
      var rest := CompileLoop(e, i + 1, slots + [slot], sc1, rt, p);
      CodeAtSplit(C, pos, c.code + [StoreLocal(slot)], rest.code);
      CodeAtSplit(C, pos, c.code, [StoreLocal(slot)]);
      CompileGrows(e.bs[i].init, sc, rt, pos);
      BindWellFormed(c.sc, x);
      LoopGrows(e, i + 1, slots + [slot], sc1, rt, p);
      RestoredIn(rest.sc, x, c.sc, fin);
      ExtendsFrom(sc1, rest.sc, fin);
      BindExtends(c.sc, x, fin);
      FreshSlot(c.sc, sc1.top, fin);
      GrowsSlots(sc, c.sc);
      TargetLater(rc, rt, SlotsOf(sc), pos, fin, SlotsOf(sc1), p);
      EarlierLater(h, pos);
      LiesForm(C, fin, e.bs[i].init, rc, sc, rt, pos, h);
      LiesLoop(C, fin, e, i + 1, slots + [slot], rc, sc1, rt, p, h);
      assert SlotSet(slots + [slot]) == SlotSet(slots) + {slot};
      LiesBinding(C, fin, pos, p - 1, p + |rest.code|, sc, c.sc, x, SlotsOf(rest.sc), rc, rt, SlotSet(slots), h);
    }
  }

  lemma {:induction false} StoresAt(slots: seq<nat>, n: nat)
    requires n <= |slots|
    ensures |StoresDown(slots, n)| == n && forall i | 0 <= i < n :: StoresDown(slots, n)[i] == StoreLocal(slots[n - 1 - i])
  {
    if n > 0 { StoresAt(slots, n - 1); }
  }

  lemma {:induction false} LiesRecur(C: seq<Instr>, fin: Scope, e: Form, rc: RecurCtx, sc: Scopes, rt: Target, pos: nat, h: seq<nat>)
    requires e.Recur?
    requires WellFormed(sc) && Check(e, rc, sc.NoScope?) == None && TargetOk(rc, rt, SlotsOf(sc), pos, fin)
    requires Stands(C, fin, pos, Compile(e, sc, rt, pos)) && Earlier(h, pos)
    ensures var r := Compile(e, sc, rt, pos); Lies(C, fin, pos, pos + |r.code|, sc, r.sc, rt, h)
    decreases e, 0
  {
    hide Fit, WellFormed, Grows, Extends, CodeAt, NotCapture, Earlier, CheckAll, CompileArgs;
    var n := |rt.slots|;
    var a := CompileArgs(e.args, 0, sc, rt, pos);
    var at := pos + |a.code|;
    var j := at + n;
    var stores := StoresDown(rt.slots, n);
    StoresAt(rt.slots, n);
    assert Compile(e, sc, rt, pos) == Piece(a.code + stores + [JumpBack(j + 1 - rt.start)], a.sc);
    CodeAtSplit(C, pos, a.code + stores, [JumpBack(j + 1 - rt.start)]);
    CodeAtSplit(C, pos, a.code, stores);
    CodeAtOne(C, j, JumpBack(j + 1 - rt.start));
    ArgsGrow(e.args, 0, sc, rt, pos);
    ExtendsFrom(sc, a.sc, fin);
    GrowsSlots(sc, a.sc);
    EarlierLater(h, pos);
    LiesArgs(C, fin, e.args, 0, rc, sc, rt, pos, h);
    RecurStores(C, fin, rt, at, SlotsOf(a.sc), h, Named(a.sc));
    Follow(C, fin, pos, at, j + 1, sc, a.sc, SlotsOf(a.sc), rc, rt, h, j + 1);
  }

  lemma RecurStores(C: seq<Instr>, fin: Scope, rt: Target, at: nat, n: nat, h: seq<nat>, named: set<nat>)
    requires rt.Target? && rt.start <= at && CodeAt(C, at, StoresDown(rt.slots, |rt.slots|)) && Earlier(h, at)
    requires var j := at + |rt.slots|; j < |C| && C[j] == JumpBack(j + 1 - rt.start)
    requires forall s | s in rt.slots :: s < n && NotCapture(s, fin)
    ensures var j := at + |rt.slots|; Fit(C, fin, Part(at, j + 1, n, n), rt, {}, named, Ends(h, h, j + 1, h))
  {
    hide Fit, NotCapture;
    var k := |rt.slots|;
    StoresAt(rt.slots, k);
    forall q | at <= q < at + k
      ensures C[q] == StoreLocal(rt.slots[k - 1 - (q - at)]) && C[q].slot in rt.slots
    {
      assert C[at..at + k][q - at] == C[q];
    }
    forall s | s in rt.slots ensures exists q :: at <= q < at + k && Stores(C, q, s) {
      var i :| 0 <= i < k && rt.slots[i] == s;
      var q := at + k - 1 - i;
      assert C[q] == StoreLocal(rt.slots[k - 1 - (q - at)]);
      assert Stores(C, q, s);
    }
    Recurs(C, fin, at, at + k, n, rt, {}, named, h);
  }

  lemma {:induction false} LiesTry(C: seq<Instr>, fin: Scope, e: Form, rc: RecurCtx, sc: Scopes, rt: Target, pos: nat, h: seq<nat>)
    requires e.Try? && sc.Inner?
    requires WellFormed(sc) && Check(e, rc, false) == None && TargetOk(rc, rt, SlotsOf(sc), pos, fin)
    requires Stands(C, fin, pos, Compile(e, sc, rt, pos)) && Earlier(h, pos)
    ensures var r := Compile(e, sc, rt, pos); Lies(C, fin, pos, pos + |r.code|, sc, r.sc, rt, h)
    decreases e, 0, 2
  {
    hide Fit, WellFormed, Grows, Extends, CodeAt, NotCapture, Earlier, Around, CheckAll, CheckClauses,
      CompileCatches, CompileEffects;
    var r := Compile(e, sc, rt, pos);
    if e.fin.NoFinally? {
      LiesCatches(C, fin, e, rc, sc, pos, h);
    } else {
      var t := CompileCatches(e, sc, pos + 1);
      var n := CompileEffects(e.fin.forms, 0, t.sc, pos + 1 + |t.code| + 1);
      LiesFinally(C, fin, e, rc, sc, pos, h, t, n);
    }
    var p := Part(pos, pos + |r.code|, SlotsOf(sc), SlotsOf(r.sc));
    NoneAround(p);
    Widen(C, fin, p, Ends(h, h, p.hi, h), NoTarget, {}, Named(sc), p, rt, {}, Named(sc));
  }

  lemma NoneAround(p: Part)
    ensures Around(p, NoTarget, {})
  {
  }

  lemma {:induction false} LiesCatches(C: seq<Instr>, fin: Scope, e: Form, rc: RecurCtx, sc: Scopes, pos: nat, h: seq<nat>)
    requires e.Try? && sc.Inner? && WellFormed(sc)
    requires CheckAll(e.body, 0, IntoTry(rc), false) == None && CheckClauses(e.catches, 0, IntoTry(rc)) == None
    requires Stands(C, fin, pos, CompileCatches(e, sc, pos)) && Earlier(h, pos)
    ensures var r := CompileCatches(e, sc, pos); Lies(C, fin, pos, pos + |r.code|, sc, r.sc, NoTarget, h)
    decreases e, 0, 0
  {
    hide Fit, Lies, WellFormed, Grows, Extends, CodeAt, NotCapture, Earlier, CheckAll, CheckClauses, CompileBody, CompileClauses, IntoTry, TargetOk;
    NoTargetOk(rc, SlotsOf(sc), pos, fin);
    if |e.catches| == 0 {
      LiesBody(C, fin, e.body, 0, IntoTry(rc), sc, NoTarget, pos, h);
    } else {
      var b := CompileBody(e.body, 0, sc, NoTarget, pos + 1);
      var slot := b.sc.top.nextSlot;
      var at := pos + 1 + |b.code| + 3;
      var c := CompileClauses(e.catches, 0, slot, Reserve(b.sc), at);
      CatchCode(C, pos, TryBegin(|b.code| + 2), b.code, TryEnd, Jump(|c.code| + 2), StoreCaught(slot), c.code, Rethrow(slot));
      BodyGrows(e.body, 0, sc, NoTarget, pos + 1);
      ReserveGrows(b.sc);
      ClausesGrow(e.catches, 0, slot, Reserve(b.sc), at);
      ExtendsFrom(Reserve(b.sc), c.sc, fin);
      ExtendsFrom(b.sc, Reserve(b.sc), fin);
      Between(sc, b.sc, Reserve(b.sc), fin);
      GuardedEarlier(h, pos);
      NoTargetOk(rc, SlotsOf(sc), pos + 1, fin);
      LiesBody(C, fin, e.body, 0, IntoTry(rc), sc, NoTarget, pos + 1, h + [pos]);
      LiesClauses(C, fin, e.catches, 0, slot, rc, Reserve(b.sc), at, h);
      ClausesStand(C, e.catches, 0, slot, Reserve(b.sc), at);
      CatchesHandler(C, at, slot);
      CatchesLie(C, fin, pos, |b.code|, |c.code|, slot, sc, b.sc, SlotsOf(c.sc), h);
      SameLies(C, fin, pos, pos + 1 + |b.code| + 3 + |c.code| + 1, sc, c.sc, h);
    }
  }

  lemma {:induction false} ClausesStand(C: seq<Instr>, cs: seq<Clause>, i: nat, slot: nat, sc: Scopes, pos: nat)
    requires i <= |cs| && sc.Inner? && CodeAt(C, pos, CompileClauses(cs, i, slot, sc, pos).code)
    requires CodeAt(C, pos + |CompileClauses(cs, i, slot, sc, pos).code|, [Rethrow(slot)])
    ensures ClausesAt(C, pos, slot)
    decreases |cs| - i
  {
    hide CompileClauses, CompileBody, Restore, CodeAt;
    if i == |cs| {
      ClausesEnd(C, cs, slot, sc, pos);
    } else {
      hide ClausesAt;
      var b := CompileBody(cs[i].body, 0, Alias(sc, cs[i].name, slot), NoTarget, pos + 3);
      ClausesCompiled(cs, i, slot, sc, pos, b);
      var sc1 := Restore(b.sc, cs[i].name, sc);
      var p := pos + 3 + |b.code| + 1;
      var rest := CompileClauses(cs, i + 1, slot, sc1, p);
      ClauseCode(C, pos, PushLocal(slot), ExcMatch(cs[i].classId), JumpIfFalse(|b.code| + 1), b.code, Jump(|rest.code| + 1), rest.code);
      RestoredInner(b.sc, cs[i].name, sc);
      ClausesStand(C, cs, i + 1, slot, sc1, p);
      ClausesGo(C, pos, slot, cs[i].classId, |b.code| + 1);
    }
  }

  lemma ClausesEnd(C: seq<Instr>, cs: seq<Clause>, slot: nat, sc: Scopes, pos: nat)
    requires sc.Inner? && CodeAt(C, pos + |CompileClauses(cs, |cs|, slot, sc, pos).code|, [Rethrow(slot)])
    ensures pos < |C| && C[pos] == Rethrow(slot)
  {
    CodeAtOne(C, pos, Rethrow(slot));
  }

  lemma ClausesGo(C: seq<Instr>, pos: nat, slot: nat, classId: nat, off: nat)
    requires CodeAt(C, pos, [PushLocal(slot)]) && CodeAt(C, pos + 1, [ExcMatch(classId)]) && CodeAt(C, pos + 2, [JumpIfFalse(off)])
    requires ClausesAt(C, pos + 3 + off, slot)
    ensures ClausesAt(C, pos, slot)
  {
    CodeAtOne(C, pos, PushLocal(slot));
    CodeAtOne(C, pos + 1, ExcMatch(classId));
    CodeAtOne(C, pos + 2, JumpIfFalse(off));
  }

  lemma RestoredInner(b: Scopes, x: string, sc: Scopes)
    requires b.Inner? && sc.Inner?
    ensures Restore(b, x, sc).Inner?
  {
  }

  lemma CatchesHandler(C: seq<Instr>, at: nat, slot: nat)
    requires at > 0 && CodeAt(C, at - 1, [StoreCaught(slot)]) && ClausesAt(C, at, slot)
    ensures HandlerCode(C, at - 1)
  {
  }

  lemma FinallyHandler(C: seq<Instr>, fin: Scope, at: nat, lx: nat, slot: nat, nx: nat, named: set<nat>, h: seq<nat>)
    requires at > 0 && slot + 1 <= nx && (forall s: nat | s in named :: s < slot)
    requires CodeAt(C, at - 1, [StoreCaught(slot)]) && CodeAt(C, at + lx, [Rethrow(slot)])
    requires Fit(C, fin, Part(at, at + lx, slot + 1, nx), NoTarget, {}, named, Ends(h, h, at + lx, h))
    ensures HandlerCode(C, at - 1)
  {
    CodeAtOne(C, at - 1, StoreCaught(slot));
    CodeAtOne(C, at + lx, Rethrow(slot));
    assert !ReadsSlot(C[at], slot);
    assert FinallyAt(C, at, slot);
  }

  lemma SameLies(C: seq<Instr>, fin: Scope, lo: nat, hi: nat, sc: Scopes, sc1: Scopes, h: seq<nat>)
    requires Fit(C, fin, Part(lo, hi, SlotsOf(sc), SlotsOf(sc1)), NoTarget, {}, Named(sc), Ends(h, h, hi, h))
    ensures Lies(C, fin, lo, hi, sc, sc1, NoTarget, h)
  {
  }

  lemma NoTargetOk(rc: RecurCtx, n: nat, pos: nat, fin: Scope)
    ensures TargetOk(IntoTry(rc), NoTarget, n, pos, fin)
  {
  }

  lemma GuardedEarlier(h: seq<nat>, pos: nat)
    requires Earlier(h, pos)
    ensures Earlier(h + [pos], pos + 1) && forall p | p >= pos :: Earlier(h, p)
  {
  }

  /** A guarded body, the jump past its clauses, and the clauses. */
  lemma CatchesLie(C: seq<Instr>, fin: Scope, pos: nat, lb: nat, lc: nat, slot: nat, sc: Scopes, sc1: Scopes, n2: nat, h: seq<nat>)
    requires WellFormed(sc) && sc.Inner? && sc1.Inner? && slot == SlotsOf(sc1) >= SlotsOf(sc) && Grows(sc, sc1) && WellFormed(sc1)
    requires Extends(sc1.top, fin) && Earlier(h, pos)
    requires CodeAt(C, pos, [TryBegin(lb + 2)]) && CodeAt(C, pos + 1 + lb, [TryEnd]) && CodeAt(C, pos + 1 + lb + 1, [Jump(lc + 2)])
    requires CodeAt(C, pos + 1 + lb + 2, [StoreCaught(slot)]) && CodeAt(C, pos + 1 + lb + 3 + lc, [Rethrow(slot)])
    requires HandlerCode(C, pos + 1 + lb + 2)
    requires Lies(C, fin, pos + 1, pos + 1 + lb, sc, sc1, NoTarget, h + [pos])
    requires var at := pos + 1 + lb + 3;
             Fit(C, fin, Part(at, at + lc, slot + 1, n2), NoTarget, {}, Named(sc1) + {slot}, Ends(h, h, at + lc + 1, h))
    ensures Fit(C, fin, Part(pos, pos + 1 + lb + 3 + lc + 1, SlotsOf(sc), n2), NoTarget, {}, Named(sc),
                Ends(h, h, pos + 1 + lb + 3 + lc + 1, h))
  {
    hide CodeAt, Fit, NotCapture, Named, Grows, WellFormed, Extends, HandlerCode;
    var e, t, n, end := pos + 1 + lb, pos + 1 + lb + 2, SlotsOf(sc), pos + 1 + lb + 3 + lc + 1;
    var named := Named(sc1) + {slot};
    CodeAtOne(C, pos, TryBegin(lb + 2));
    CodeAtOne(C, e, TryEnd);
    CodeAtOne(C, e + 1, Jump(lc + 2));
    CodeAtOne(C, t, StoreCaught(slot));
    CodeAtOne(C, end - 1, Rethrow(slot));
    NamedBelow(sc);
    NamedBelow(sc1);
    ReadsGrown(fin, sc, sc1, {});
    assert Named(sc) + {} == Named(sc) && Named(sc1) + {} == Named(sc1);
    FitRange(C, fin, Part(t + 1, end - 1, slot + 1, n2), NoTarget, {}, named, Ends(h, h, end, h));
    EarlierLater(h, pos);
    Guards(C, fin, pos, e, t, n, slot, Named(sc), h);
    hide Earlier, Reads;
    Behind(C, fin, pos, e + 1, n, slot, Named(sc), h, t);
    Ahead(C, fin, t, end - 1, slot + 1, n2, named, h, end);
    Behind(C, fin, t, end - 1, slot + 1, n2, named, h, end);
    WidenTo(C, fin, t, end, slot + 1, n2, named, h, slot, Named(sc1));
    Adjoin(C, fin, pos, t, end, n, slot, slot, n2, Named(sc), Named(sc1), h, end, end);
  }

  /** A part that reads slots of its own only has no need of their names. */
  lemma WidenTo(C: seq<Instr>, fin: Scope, lo: nat, hi: nat, n: nat, n1: nat, named: set<nat>, h: seq<nat>, n0: nat, named0: set<nat>)
    requires Fit(C, fin, Part(lo, hi, n, n1), NoTarget, {}, named, Ends(h, h, hi, h)) && n0 <= n
    requires forall s: nat | s in named :: s in named0 || n0 <= s
    ensures Fit(C, fin, Part(lo, hi, n0, n1), NoTarget, {}, named0, Ends(h, h, hi, h))
  {
    hide Fit;
    Widen(C, fin, Part(lo, hi, n, n1), Ends(h, h, hi, h), NoTarget, {}, named, Part(lo, hi, n0, n1), NoTarget, {}, named0);
  }

  /** The clauses, which read the exception in `slot` and jump past the
      RETHROW that follows them. */
  lemma {:induction false} LiesClauses(C: seq<Instr>, fin: Scope, cs: seq<Clause>, i: nat, slot: nat, rc: RecurCtx, sc: Scopes, pos: nat, h: seq<nat>)
    requires i <= |cs| && sc.Inner? && WellFormed(sc) && CheckClauses(cs, i, IntoTry(rc)) == None
    requires slot < sc.top.nextSlot && Unnamed(slot, sc.top) && Earlier(h, pos)
    requires Stands(C, fin, pos, CompileClauses(cs, i, slot, sc, pos))
    ensures var r := CompileClauses(cs, i, slot, sc, pos);
            Fit(C, fin, Part(pos, pos + |r.code|, SlotsOf(sc), SlotsOf(r.sc)), NoTarget, {}, Named(sc) + {slot}, Ends(h, h, pos + |r.code| + 1, h))
    decreases cs, |cs| - i
  {
    hide Fit, WellFormed, Grows, Extends, NotCapture, CheckAll, CompileBody, IntoTry, TargetOk, Restore, CompileClauses, CheckClauses, Unnamed;
    if i == |cs| {
      EmptyClauses(C, fin, cs, slot, sc, pos, h);
    } else {
      hide Earlier, CodeAt;
      var al := Alias(sc, cs[i].name, slot);
      var b := CompileBody(cs[i].body, 0, al, NoTarget, pos + 3);
      var sc1 := Restore(b.sc, cs[i].name, sc);
      var p := pos + 3 + |b.code| + 1;
      ClausesCompiled(cs, i, slot, sc, pos, b);
      ClauseChecked(cs, i, IntoTry(rc));
      var rest := CompileClauses(cs, i + 1, slot, sc1, p);
      ClauseCode(C, pos, PushLocal(slot), ExcMatch(cs[i].classId), JumpIfFalse(|b.code| + 1), b.code, Jump(|rest.code| + 1), rest.code);
      AliasWellFormed(sc, cs[i].name, slot);
      BodyGrows(cs[i].body, 0, al, NoTarget, pos + 3);
      ClauseScope(sc, cs[i].name, slot, b.sc);
      ClausesGrow(cs, i + 1, slot, sc1, p);
      ExtendsFrom(sc1, rest.sc, fin);
      RestoredIn(b.sc, cs[i].name, sc, fin);
      NoTargetOk(rc, SlotsOf(al), pos + 3, fin);
      EarlierLater(h, pos);
      LiesBody(C, fin, cs[i].body, 0, IntoTry(rc), al, NoTarget, pos + 3, h);
      LiesClauses(C, fin, cs, i + 1, slot, rc, sc1, p, h);
      ClauseLies(C, fin, pos, p, |rest.code|, cs[i].classId, cs[i].name, slot, sc, al, b.sc, sc1, SlotsOf(rest.sc), h);
    }
  }

  lemma EmptyClauses(C: seq<Instr>, fin: Scope, cs: seq<Clause>, slot: nat, sc: Scopes, pos: nat, h: seq<nat>)
    requires sc.Inner? && pos <= |C| && Earlier(h, pos)
    ensures CompileClauses(cs, |cs|, slot, sc, pos) == Piece([], sc)
    ensures Fit(C, fin, Part(pos, pos, SlotsOf(sc), SlotsOf(sc)), NoTarget, {}, Named(sc) + {slot}, Ends(h, h, pos + 1, h))
  {
    var p := Part(pos, pos, SlotsOf(sc), SlotsOf(sc));
    GuardedBelow(C, p, map[pos := h]);
    assert Fits(C, fin, p, NoTarget, {}, Named(sc) + {slot}, Ends(h, h, pos + 1, h), map[pos := h], map[]);
  }

  lemma ClauseChecked(cs: seq<Clause>, i: nat, rc: RecurCtx)
    requires i < |cs| && CheckClauses(cs, i, rc) == None
    ensures CheckAll(cs[i].body, 0, rc, false) == None && CheckClauses(cs, i + 1, rc) == None
  {
    hide CheckAll;
  }

  /** A clause: its test, its body and the jump past the rest. */
  lemma ClauseLies(C: seq<Instr>, fin: Scope, pos: nat, p: nat, lr: nat, classId: nat, name: string, slot: nat,
                   sc: Scopes, al: Scopes, scb: Scopes, sc1: Scopes, n2: nat, h: seq<nat>)
    requires sc.Inner? && scb.Inner? && al == Alias(sc, name, slot) && sc1 == Restore(scb, name, sc) && slot < SlotsOf(sc) && p >= pos + 4
    requires WellFormed(sc) && WellFormed(sc1) && Grows(sc, sc1) && Extends(sc1.top, fin) && Earlier(h, pos)
    requires CodeAt(C, pos, [PushLocal(slot)]) && CodeAt(C, pos + 1, [ExcMatch(classId)]) && CodeAt(C, pos + 2, [JumpIfFalse(p - pos - 3)])
    requires CodeAt(C, p - 1, [Jump(lr + 1)]) && Lies(C, fin, pos + 3, p - 1, al, scb, NoTarget, h)
    requires Fit(C, fin, Part(p, p + lr, SlotsOf(sc1), n2), NoTarget, {}, Named(sc1) + {slot}, Ends(h, h, p + lr + 1, h))
    ensures Fit(C, fin, Part(pos, p + lr, SlotsOf(sc), n2), NoTarget, {}, Named(sc) + {slot}, Ends(h, h, p + lr + 1, h))
  {
    hide CodeAt, Fit, NotCapture, Grows, WellFormed, Extends, Reads, Named, Alias, Restore;
    var n, nb, out := SlotsOf(sc), SlotsOf(sc1), p + lr + 1;
    var named := Named(sc) + {slot};
    NamedBelow(sc);
    ReadsGrown(fin, sc, sc1, {slot});
    GrowsSlots(sc, sc1);
    ClauseNames(sc, name, slot, scb);
    FitRange(C, fin, Part(p, p + lr, nb, n2), NoTarget, {}, Named(sc1) + {slot}, Ends(h, h, out, h));
    WidenTo(C, fin, pos + 3, p - 1, n, nb, Named(al), h, n, named);
    ClauseBodyLies(C, fin, pos, p, out, classId, slot, n, nb, named, h);
    Adjoin(C, fin, pos, p, p + lr, n, nb, nb, n2, named, Named(sc1) + {slot}, h, out, out);
  }

  lemma ClauseNames(sc: Scopes, name: string, slot: nat, scb: Scopes)
    requires sc.Inner? && scb.Inner?
    ensures forall s | s in Named(Alias(sc, name, slot)) :: s in Named(sc) + {slot}
    ensures SlotsOf(Alias(sc, name, slot)) == SlotsOf(sc) && SlotsOf(Restore(scb, name, sc)) == SlotsOf(scb)
  {
  }

  lemma ClauseBodyLies(C: seq<Instr>, fin: Scope, pos: nat, p: nat, out: nat, classId: nat, slot: nat, n: nat, nb: nat, named: set<nat>, h: seq<nat>)
    requires slot < n <= nb && slot in named && (forall s: nat | s in named :: s < n) && p >= pos + 4 && out >= p && Earlier(h, pos)
    requires CodeAt(C, pos, [PushLocal(slot)]) && CodeAt(C, pos + 1, [ExcMatch(classId)]) && CodeAt(C, pos + 2, [JumpIfFalse(p - pos - 3)])
    requires CodeAt(C, p - 1, [Jump(out - p)])
    requires Fit(C, fin, Part(pos + 3, p - 1, n, nb), NoTarget, {}, named, Ends(h, h, p - 1, h))
    ensures Fit(C, fin, Part(pos, p, n, nb), NoTarget, {}, named, Ends(h, h, out, h))
  {
    hide CodeAt, Fit, NotCapture;
    CodeAtOne(C, pos, PushLocal(slot));
    CodeAtOne(C, pos + 1, ExcMatch(classId));
    CodeAtOne(C, pos + 2, JumpIfFalse(p - pos - 3));
    CodeAtOne(C, p - 1, Jump(out - p));
    EarlierLater(h, pos);
    hide Earlier;
    Behind(C, fin, pos + 3, p - 1, n, nb, named, h, p - 1);
    Ahead(C, fin, pos + 2, p, n, nb, named, h, out);
    Ahead(C, fin, pos + 1, p, n, nb, named, h, out);
    Ahead(C, fin, pos, p, n, nb, named, h, out);
  }

  lemma {:induction false} LiesFinally(C: seq<Instr>, fin: Scope, e: Form, rc: RecurCtx, sc: Scopes, pos: nat, h: seq<nat>, t: Piece, n: Piece)
    requires e.Try? && e.fin.Finally? && sc.Inner? && WellFormed(sc) && Earlier(h, pos)
    requires CheckAll(e.body, 0, IntoTry(rc), false) == None && CheckClauses(e.catches, 0, IntoTry(rc)) == None
    requires CheckAll(e.fin.forms, 0, IntoTry(rc), false) == None
    requires t == CompileCatches(e, sc, pos + 1) && n == CompileEffects(e.fin.forms, 0, t.sc, pos + 1 + |t.code| + 1) && n.sc.Inner?
    requires var x := CompileEffects(e.fin.forms, 0, Reserve(n.sc), pos + 1 + |t.code| + 1 + |n.code| + 2);
             && CodeAt(C, pos, [TryBegin(|t.code| + 1 + |n.code| + 1)] + t.code + [TryEnd] + n.code + [Jump(|x.code| + 2)] +
                       [StoreCaught(n.sc.top.nextSlot)] + x.code + [Rethrow(n.sc.top.nextSlot)])
             && (x.sc.Inner? ==> Extends(x.sc.top, fin))
    ensures var at := pos + 1 + |t.code| + 1 + |n.code| + 2;
            var x := CompileEffects(e.fin.forms, 0, Reserve(n.sc), at);
            Lies(C, fin, pos, at + |x.code| + 1, sc, x.sc, NoTarget, h)
    decreases e, 0, 1
  {
    hide Fit, Lies, WellFormed, Grows, Extends, CodeAt, NotCapture, Earlier, CheckAll, CheckClauses, CompileCatches, CompileEffects, IntoTry, TargetOk;
    var forms, slot := e.fin.forms, n.sc.top.nextSlot;
    var pn := pos + 1 + |t.code| + 1;
    var at := pn + |n.code| + 2;
    var x := CompileEffects(forms, 0, Reserve(n.sc), at);
    FinallyCode(C, pos, TryBegin(|t.code| + 1 + |n.code| + 1), t.code, TryEnd, n.code, Jump(|x.code| + 2), StoreCaught(slot), x.code, Rethrow(slot));
    CatchesGrow(e, sc, pos + 1);
    EffectsGrow(forms, 0, t.sc, pn);
    ReserveGrows(n.sc);
    EffectsGrow(forms, 0, Reserve(n.sc), at);
    ExtendsFrom(Reserve(n.sc), x.sc, fin);
    ExtendsFrom(n.sc, Reserve(n.sc), fin);
    Between(sc, t.sc, n.sc, fin);
    GuardedEarlier(h, pos);
    NoTargetOk(rc, SlotsOf(t.sc), pn, fin);
    NoTargetOk(rc, SlotsOf(Reserve(n.sc)), at, fin);
    LiesCatches(C, fin, e, rc, sc, pos + 1, h + [pos]);
    LiesEffects(C, fin, forms, 0, IntoTry(rc), t.sc, pn, h);
    LiesEffects(C, fin, forms, 0, IntoTry(rc), Reserve(n.sc), at, h);
    FinallyLies(C, fin, pos, |t.code|, |n.code|, |x.code|, slot, sc, t.sc, n.sc, x.sc, h);
  }

  lemma FinallyLies(C: seq<Instr>, fin: Scope, pos: nat, lt: nat, ln: nat, lx: nat, slot: nat, sc: Scopes, sct: Scopes, scn: Scopes, scx: Scopes, h: seq<nat>)
    requires sc.Inner? && sct.Inner? && scn.Inner? && slot == scn.top.nextSlot && Earlier(h, pos)
    requires WellFormed(sc) && WellFormed(sct) && WellFormed(scn) && Grows(sc, sct) && Grows(sct, scn)
    requires Extends(sct.top, fin) && Extends(scn.top, fin)
    requires var pn := pos + 1 + lt + 1; var at := pn + ln + 2;
             && CodeAt(C, pos, [TryBegin(lt + 1 + ln + 1)]) && CodeAt(C, pn - 1, [TryEnd]) && CodeAt(C, at - 2, [Jump(lx + 2)])
             && CodeAt(C, at - 1, [StoreCaught(slot)]) && CodeAt(C, at + lx, [Rethrow(slot)])
             && Lies(C, fin, pos + 1, pn - 1, sc, sct, NoTarget, h + [pos]) && Lies(C, fin, pn, pn + ln, sct, scn, NoTarget, h)
             && Lies(C, fin, at, at + lx, Reserve(scn), scx, NoTarget, h)
    ensures Lies(C, fin, pos, pos + 1 + lt + 1 + ln + 2 + lx + 1, sc, scx, NoTarget, h)
  {
    hide CodeAt, Fit, NotCapture, Grows, WellFormed, Extends, Named, Reads, Reserve, HandlerCode;
    var pn := pos + 1 + lt + 1;
    var at := pn + ln + 2;
    var end := at + lx + 1;
    var n, nt, nx := SlotsOf(sc), SlotsOf(sct), SlotsOf(scx);
    NamedBelow(sc);
    NamedBelow(scn);
    ReservedNames(scn);
    GrowsTrans(sc, sct, scn);
    ReadsGrown(fin, sc, scn, {});
    assert Named(sc) + {} == Named(sc) && Named(scn) + {} == Named(scn);
    FitRange(C, fin, Part(at, at + lx, slot + 1, nx), NoTarget, {}, Named(scn), Ends(h, h, at + lx, h));
    FinallyHandler(C, fin, at, lx, slot, nx, Named(scn), h);
    GuardedLies(C, fin, pos, pn, at, end, slot, sc, sct, scn, h);
    HandlerLies(C, fin, at, lx, slot, nx, Named(scn), h, pos);
    GrowsSlots(sc, scn);
    Adjoin(C, fin, pos, at - 1, end, n, slot, slot, nx, Named(sc), Named(scn), h, end, end);
  }

  /** The guarded code, the finally forms on its normal way out, the jump. */
  lemma GuardedLies(C: seq<Instr>, fin: Scope, pos: nat, pn: nat, at: nat, end: nat, slot: nat, sc: Scopes, sct: Scopes, scn: Scopes, h: seq<nat>)
    requires sc.Inner? && sct.Inner? && scn.Inner? && slot == scn.top.nextSlot && Earlier(h, pos) && pos + 2 <= pn && pn + 2 <= at < end
    requires WellFormed(sc) && WellFormed(sct) && Grows(sc, sct) && Extends(sct.top, fin)
    requires CodeAt(C, pos, [TryBegin(at - pos - 2)]) && CodeAt(C, pn - 1, [TryEnd]) && CodeAt(C, at - 2, [Jump(end - at + 1)])
    requires Lies(C, fin, pos + 1, pn - 1, sc, sct, NoTarget, h + [pos]) && Lies(C, fin, pn, at - 2, sct, scn, NoTarget, h)
    requires HandlerCode(C, at - 1)
    ensures Fit(C, fin, Part(pos, at - 1, SlotsOf(sc), slot), NoTarget, {}, Named(sc), Ends(h, h, end, h))
  {
    hide CodeAt, Fit, NotCapture, Grows, WellFormed, Extends, Named, Reads, HandlerCode;
    var n, nt := SlotsOf(sc), SlotsOf(sct);
    CodeAtOne(C, pos, TryBegin(at - pos - 2));
    CodeAtOne(C, pn - 1, TryEnd);
    CodeAtOne(C, at - 2, Jump(end - at + 1));
    NamedBelow(sc);
    NamedBelow(sct);
    ReadsGrown(fin, sc, sct, {});
    assert Named(sc) + {} == Named(sc) && Named(sct) + {} == Named(sct);
    FitRange(C, fin, Part(pos + 1, pn - 1, n, nt), NoTarget, {}, Named(sc), Ends(h + [pos], h + [pos], pn - 1, h + [pos]));
    FitRange(C, fin, Part(pn, at - 2, nt, slot), NoTarget, {}, Named(sct), Ends(h, h, at - 2, h));
    Guards(C, fin, pos, pn - 1, at - 1, n, nt, Named(sc), h);
    EarlierLater(h, pos);
    hide Earlier;
    Behind(C, fin, pn, at - 2, nt, slot, Named(sct), h, at - 2);
    Adjoin(C, fin, pos, pn, at - 1, n, nt, nt, slot, Named(sc), Named(sct), h, at - 1, end);
  }

  /** STORE_CAUGHT, the finally forms, RETHROW. */
  lemma HandlerLies(C: seq<Instr>, fin: Scope, at: nat, lx: nat, slot: nat, nx: nat, named: set<nat>, h: seq<nat>, pos: nat)
    requires pos < at && Earlier(h, pos) && slot + 1 <= nx && forall s: nat | s in named :: s < slot
    requires CodeAt(C, at - 1, [StoreCaught(slot)]) && CodeAt(C, at + lx, [Rethrow(slot)])
    requires Fit(C, fin, Part(at, at + lx, slot + 1, nx), NoTarget, {}, named, Ends(h, h, at + lx, h))
    ensures Fit(C, fin, Part(at - 1, at + lx + 1, slot, nx), NoTarget, {}, named, Ends(h, h, at + lx + 1, h))
  {
    hide CodeAt, Fit, NotCapture;
    CodeAtOne(C, at - 1, StoreCaught(slot));
    CodeAtOne(C, at + lx, Rethrow(slot));
    EarlierLater(h, pos);
    hide Earlier;
    Ahead(C, fin, at - 1, at + lx, slot + 1, nx, named, h, at + lx);
    Behind(C, fin, at - 1, at + lx, slot + 1, nx, named, h, at + lx);
    WidenTo(C, fin, at - 1, at + lx + 1, slot + 1, nx, named, h, slot, named);
  }

  lemma ReservedNames(sc: Scopes)
    requires sc.Inner?
    ensures Named(Reserve(sc)) == Named(sc) && SlotsOf(Reserve(sc)) == SlotsOf(sc) + 1
  {
  }

  /** What holds of the code of every fn body. */
  ghost predicate Laid(m: Module) {
    exists n1: nat, fin: Scope, named: set<nat> :: LaidIn(m, n1, fin, named)
  }

  ghost predicate LaidIn(m: Module, n1: nat, fin: Scope, named: set<nat>) {
    && |m.code| > 0 && m.code[|m.code| - 1] == Return && fin.captures == m.captures
    && Fit(m.code, fin, Part(0, |m.code| - 1, m.arity, n1), NoTarget, SlotSet(Upto(m.arity)), named, Ends([], [], |m.code| - 1, []))
  }

  lemma MadeLaid(m: Module)
    requires Made(m)
    ensures Laid(m)
  {
    hide MadeFrom, LaidIn;
    var params, body, outer :| MadeFrom(m, params, body, outer);
    BodyLaid(m, params, body, outer);
  }

  lemma BodyLaid(m: Module, params: seq<string>, body: seq<Form>, outer: Scopes)
    requires MadeFrom(m, params, body, outer)
    ensures Laid(m)
  {
    var sc := Inner(ParamScope(params), outer);
    var rt := Target(0, Upto(|params|));
    var r := CompileBody(body, 0, sc, rt, 0);
    hide CompileBody, WellFormed;
    BodyStands(m, params, body, outer);
    hide Fit, CheckAll, NotCapture, Stands, TargetOk, MadeFrom;
    LiesBody(m.code, r.sc.top, body, 0, InLoop(|params|, false), sc, rt, 0, []);
    Closes(m.code, r.sc.top, Part(0, |r.code|, |params|, SlotsOf(r.sc)), Ends([], [], |r.code|, []), rt, NoTarget, Named(sc));
    assert LaidIn(m, SlotsOf(r.sc), r.sc.top, Named(sc));
  }

  /** The body of a fn stands at the start of its code, before the return. */
  lemma BodyStands(m: Module, params: seq<string>, body: seq<Form>, outer: Scopes)
    requires MadeFrom(m, params, body, outer)
    ensures var sc := Inner(ParamScope(params), outer);
            var rt := Target(0, Upto(|params|));
            var r := CompileBody(body, 0, sc, rt, 0);
            && WellFormed(sc) && r.sc.Inner? && CheckAll(body, 0, InLoop(|params|, false), false) == None
            && TargetOk(InLoop(|params|, false), rt, SlotsOf(sc), 0, r.sc.top)
            && Stands(m.code, r.sc.top, 0, r)
            && m.code == r.code + [Return] && r.sc.top.captures == m.captures && m.arity == |params|
  {
    var sc := Inner(ParamScope(params), outer);
    var rt := Target(0, Upto(|params|));
    var r := CompileBody(body, 0, sc, rt, 0);
    FnGrows(params, body, outer);
    ParamScopeWellFormed(params, outer);
    ExtendsAll(r.sc.top);
    hide WellFormed, CheckAll, CompileBody;
    ParamTarget(params, outer, r.sc, rt);
    hide Grows, TargetOk;
    assert m.code[0..|r.code|] == r.code;
  }

  lemma ExtendsAll(a: Scope)
    ensures Extends(a, a)
  {
  }

  lemma ParamTarget(params: seq<string>, outer: Scopes, sc1: Scopes, rt: Target)
    requires rt == Target(0, Upto(|params|)) && sc1.Inner? && Grows(Inner(ParamScope(params), outer), sc1)
    ensures TargetOk(InLoop(|params|, false), rt, |params|, 0, sc1.top)
  {
  }
}
