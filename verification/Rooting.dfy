/** How primitives keep what they hold from the collector without a context of
    their own: scopes that nest, the window of traced slots each primitive
    call gets, and the young chains. One action is one step of the program,
    of another thread or of the collector. */
module Rooting {
  import opened Options

  /** A heap cell, by its address. Addresses of freed cells may be used again. */
  type Obj = nat

  /** A cell: everything reachable from it, itself included, and for a list its
      elements. Cells do not change. */
  datatype Cell = Cell(holds: set<Obj>, elems: seq<Obj>)

  type Contents = seq<Option<Obj>>

  /** The counters of a window. */
  datatype Tally = Tally(depth: nat, permits: nat, local: nat, next: nat)

  datatype Window = Window(frame: nat, slots: Contents, tally: Tally, submissions: nat)

  /** Where a CallerSlots has its slots: in the window from `first` on, or in
      an array of its own. */
  datatype Place = Traced(first: nat) | Untraced

  /** The scopes that nest: frames of Clojure fns, calls of primitives from
      them, and what primitives declare. `counted` says the scope's `w_` is
      not null. `Local` is a C++ local that holds a value. */
  datatype Scope =
    | Frame(ctx: nat)
    | PrimitiveCall
    | Nested(counted: bool)
    | Permit(counted: bool)
    | Block(counted: bool, held: bool)
    | Slots(ctx: nat, n: nat, place: Place, counted: bool, start: nat)
    | Local

  /** The scopes alive, outermost first, and what each has: a frame its locals
      and operands, untraced slots their values, a block what is parked under
      it. One window per `PrimitiveCall`; the last one is current. */
  datatype State = State(scopes: seq<Scope>, contents: seq<Contents>, windows: seq<Window>,
                         heap: map<Obj, Cell>, young: map<nat, set<Obj>>, shared: set<Obj>)

  const MAX_SLOTS: nat := 8

  // ---- the scopes

  function Calls(ss: seq<Scope>): nat {
    if ss == [] then 0 else Calls(ss[..|ss| - 1]) + (if ss[|ss| - 1].PrimitiveCall? then 1 else 0)
  }

  /** The index of the innermost `PrimitiveCall`. */
  function CallAt(ss: seq<Scope>): (p: nat)
    requires Calls(ss) > 0
    ensures p < |ss| && ss[p].PrimitiveCall?
  {
    if ss[|ss| - 1].PrimitiveCall? then |ss| - 1 else CallAt(ss[..|ss| - 1])
  }

  /** What one scope adds to the counters of the window current around it. */
  function Counted(t: Tally, x: Scope): Tally {
    match x
    case Nested(true) => t.(depth := t.depth + 1)
    case Permit(true) => t.(permits := t.permits + 1)
    case Block(true, true) => t.(local := t.local + 1)
    case Slots(_, n, Traced(_), _, _) => t.(next := t.next + n)
    case Slots(_, _, Untraced, true, _) => t.(local := t.local + 1)
    case _ => t
  }

  /** The counters the scopes since the innermost `PrimitiveCall` amount to. */
  function TallyOf(ss: seq<Scope>): Tally {
    if ss == [] || ss[|ss| - 1].PrimitiveCall? then Tally(1, 0, 0, 0)
    else Counted(TallyOf(ss[..|ss| - 1]), ss[|ss| - 1])
  }

  /** No C++ local since the innermost `PrimitiveCall`. */
  predicate NoLocals(ss: seq<Scope>) {
    ss == [] || ss[|ss| - 1].PrimitiveCall? || (!ss[|ss| - 1].Local? && NoLocals(ss[..|ss| - 1]))
  }

  predicate Live(ss: seq<Scope>, c: nat) { exists p :: 0 <= p < |ss| && ss[p] == Frame(c) }

  /** `x` may stand on `ss`. */
  predicate Fits(ss: seq<Scope>, x: Scope) {
    match x
    case Frame(c) => !Live(ss, c)
    case PrimitiveCall => ss != [] && ss[|ss| - 1].Frame?
    case Nested(counted) => counted == (Calls(ss) > 0)
    case Permit(counted) => counted ==> Calls(ss) > 0 && TallyOf(ss).depth == 1 && NoLocals(ss)
    case Block(counted, _) => counted == (Calls(ss) > 0)
    case Slots(c, _, place, counted, _) =>
      && Live(ss, c) && counted == (Calls(ss) > 0)
      && (place.Traced? ==> counted && place.first == TallyOf(ss).next)
    case Local => TallyOf(ss).permits == 0 || TallyOf(ss).depth > 1
  }

  predicate Nests(ss: seq<Scope>) {
    ss == [] || (Nests(ss[..|ss| - 1]) && Fits(ss[..|ss| - 1], ss[|ss| - 1]))
  }

  /** A window agrees with the scopes since its `PrimitiveCall`; its free slots are
      clear. */
  predicate Agrees(w: Window, ss: seq<Scope>)
    requires Calls(ss) > 0
  {
    && w.tally == TallyOf(ss) && w.tally.next <= |w.slots|
    && (forall j | w.tally.next <= j < |w.slots| :: w.slots[j] == None)
    && CallAt(ss) > 0 && ss[CallAt(ss) - 1] == Frame(w.frame)
  }

  predicate Match(ss: seq<Scope>, ws: seq<Window>)
    decreases |ws|
  {
    && |ws| == Calls(ss)
    && (|ws| > 0 ==>
        Agrees(ws[|ws| - 1], ss) && Match(ss[..CallAt(ss)], ws[..|ws| - 1]))
  }

  // ---- what keeps a value alive

  predicate InSlots(s: State, r: Obj) { exists k :: 0 <= k < |s.windows| && Some(r) in s.windows[k].slots }

  predicate InFrames(s: State, r: Obj)
    requires |s.contents| == |s.scopes|
  {
    exists p :: 0 <= p < |s.scopes| && s.scopes[p].Frame? && Some(r) in s.contents[p]
  }

  predicate InYoung(s: State, r: Obj) { exists c :: c in s.young && r in s.young[c] }

  /** What the collector starts from. */
  predicate Root(s: State, r: Obj)
    requires |s.contents| == |s.scopes|
  {
    InSlots(s, r) || InFrames(s, r) || InYoung(s, r) || r in s.shared
  }

  predicate Holds(s: State, r: Obj, v: Obj) { r in s.heap && v in s.heap[r].holds }

  /** The collector will not free `v`. */
  ghost predicate Kept(s: State, v: Obj)
    requires |s.contents| == |s.scopes|
  {
    exists r :: Root(s, r) && Holds(s, r, v)
  }

  predicate RootedIn(s: State, q: nat, r: Obj)
    requires q < |s.scopes| == |s.contents| && s.scopes[q].Frame?
  {
    Some(r) in s.contents[q] || (s.scopes[q].ctx in s.young && r in s.young[s.scopes[q].ctx])
  }

  /** A frame outside the `p`-th scope keeps `v` alive: its operands or its
      young chain. */
  ghost predicate Anchored(s: State, p: nat, v: Obj)
    requires p <= |s.scopes| == |s.contents|
  {
    exists q: nat, r :: q < p && s.scopes[q].Frame? && RootedIn(s, q, r) && Holds(s, r, v)
  }

  /** The window of the `p`-th scope. */
  function WindowAt(s: State, p: nat): int
    requires p <= |s.scopes|
  {
    Calls(s.scopes[..p]) - 1
  }

  // ---- actions

  datatype Action =
    | EnterFrame(c: nat, values: Contents)
    | LeaveFrame(result: Option<Obj>, to: nat)
    | Compute(values: Contents)
    | FrameSafepoint
    | Allocate(c: nat, o: Obj, refs: set<Obj>, elems: seq<Obj>)
    | EnterCall(size: nat)
    | EnterNested
    | EnterPermit(c: nat)
    | NewBlock
    | Hold(p: nat)
    | Release(p: nat)
    | Park(p: nat, v: Obj)
    | Acquire(c: nat, n: nat)
    | TakeLocal(v: Obj)
    | Leave
    | Put(p: nat, i: nat, value: Option<Obj>)
    | Pin(p: nat, i: nat, v: Obj)
    | Safepoint(p: nat)
    | Ret(p: nat, v: Obj)
    | Publish(v: Obj)
    | Unpublish(v: Obj)
    | Collect(dead: set<Obj>)

  /** Whether the window is full for `n` slots more. */
  predicate HasRoom(s: State, n: nat) {
    s.windows != [] && var w := s.windows[|s.windows| - 1]; w.tally.next + n <= |w.slots|
  }

  predicate SlotsAt(s: State, p: nat) { p < |s.scopes| && s.scopes[p].Slots? }

  predicate BlockAt(s: State, p: nat) {
    p < |s.scopes| && s.scopes[p].Block? && Calls(s.scopes[p..]) == 0
  }

  /** CallerSlots::safepoint submits. */
  predicate Submits(s: State, p: nat)
    requires SlotsAt(s, p)
  {
    && s.scopes[p].place.Traced? && s.windows != [] && WindowAt(s, p) == |s.windows| - 1
    && var w := s.windows[|s.windows| - 1];
       w.frame == s.scopes[p].ctx && w.tally.depth == 1 && w.tally.permits > 0 && w.tally.local == 0
  }

  /** A submission happened since the `p`-th scope began. */
  predicate Submitted(s: State, p: nat)
    requires SlotsAt(s, p)
  {
    var k := WindowAt(s, p);
    s.scopes[p].counted && 0 <= k < |s.windows| && s.windows[k].submissions != s.scopes[p].start
  }

  ghost predicate AllKept(s: State, values: Contents)
    requires |s.contents| == |s.scopes|
  {
    forall v | Some(v) in values :: Kept(s, v)
  }

  /** What the source asks of the code that takes each step: frames hold only
      values they can reach, a value set in an untraced slot is a young cell
      or an argument, a permit's holder keeps nothing in C++ locals. */
  ghost predicate Enabled(s: State, a: Action)
    requires |s.contents| == |s.scopes| > 0
  {
    var last := s.scopes[|s.scopes| - 1];
    match a
    case EnterFrame(c, values) => c !in s.young && !Live(s.scopes, c) && AllKept(s, values)
    case LeaveFrame(result, to) =>
      last.Frame? && |s.scopes| > 1 && to in s.young && to != last.ctx && AllKept(s, [result])
    case Compute(values) => last.Frame? && AllKept(s, values)
    case FrameSafepoint => last.Frame?
    case Allocate(c, o, refs, elems) =>
      && c in s.young && o !in s.heap && (forall r | r in refs :: Kept(s, r))
      && (forall e | e in elems :: exists r :: r in refs && Holds(s, r, e))
    case EnterCall(_) => last.Frame?
    case EnterNested => true
    case EnterPermit(c) => Permitted(s, c) ==> NoLocals(s.scopes)
    case NewBlock => true
    case Hold(p) => BlockAt(s, p)
    case Release(p) => BlockAt(s, p)
    case Park(p, v) => BlockAt(s, p) && s.scopes[p].held && Anchored(s, p, v)
    case Acquire(c, n) => Live(s.scopes, c) && n <= MAX_SLOTS
    case TakeLocal(v) =>
      && Anchored(s, |s.scopes|, v)
      && (s.windows != [] ==> var t := s.windows[|s.windows| - 1].tally; t.permits == 0 || t.depth > 1)
    case Leave => !last.Frame?
    case Put(p, i, v) =>
      && SlotsAt(s, p) && i < s.scopes[p].n
      && (v.Some? ==> if s.scopes[p].place.Traced? then Kept(s, v.value) else Anchored(s, p, v.value))
    case Pin(p, i, v) => SlotsAt(s, p) && i < s.scopes[p].n && Kept(s, v)
    case Safepoint(p) => SlotsAt(s, p)
    case Ret(p, v) => SlotsAt(s, p) && Kept(s, v)
    case Publish(v) => Kept(s, v)
    case Unpublish(_) => true
    case Collect(dead) =>
      && (forall v | v in dead :: !Kept(s, v))
      && (forall o | o in s.heap && o !in dead :: s.heap[o].holds !! dead)
  }

  predicate Permitted(s: State, c: nat) {
    s.windows != [] && var w := s.windows[|s.windows| - 1]; w.frame == c && w.tally.depth == 1
  }

  // ---- what each action does

  function Enter(s: State, x: Scope, values: Contents): State {
    s.(scopes := s.scopes + [x], contents := s.contents + [values])
  }

  function Exit(s: State): State
    requires |s.contents| == |s.scopes| > 0
  {
    s.(scopes := s.scopes[..|s.scopes| - 1], contents := s.contents[..|s.contents| - 1])
  }

  /** The counters of the current window changed. */
  function Counting(s: State, t: Tally): State {
    if s.windows == [] then s
    else s.(windows := s.windows[|s.windows| - 1 := s.windows[|s.windows| - 1].(tally := t)])
  }

  function Current(s: State): Tally {
    if s.windows == [] then Tally(1, 0, 0, 0) else s.windows[|s.windows| - 1].tally
  }

  function Anchor(s: State, c: nat, v: Obj): State {
    s.(young := s.young[c := (if c in s.young then s.young[c] else {}) + {v}])
  }

  /** The window with the slots of a CallerSlots taken, or given back. */
  function Cleared(w: Window, first: nat): Window {
    w.(slots := seq(|w.slots|, j requires 0 <= j < |w.slots| => if j < first then w.slots[j] else None),
       tally := w.tally.(next := first))
  }

  function Store(s: State, p: nat, i: nat, v: Option<Obj>): State
    requires SlotsAt(s, p) && |s.contents| == |s.scopes|
  {
    match s.scopes[p].place
    case Traced(first) =>
      var k := WindowAt(s, p);
      if 0 <= k < |s.windows| && first + i < |s.windows[k].slots| then
        s.(windows := s.windows[k := s.windows[k].(slots := s.windows[k].slots[first + i := v])])
      else s
    case Untraced =>
      if i < |s.contents[p]| then s.(contents := s.contents[p := s.contents[p][i := v]]) else s
  }

  function Minus(n: nat): nat { if n > 0 then n - 1 else 0 }

  function LeaveScope(s: State): State
    requires |s.contents| == |s.scopes| > 0
  {
    var t := Current(s);
    match s.scopes[|s.scopes| - 1]
    case PrimitiveCall => Exit(s).(windows := if s.windows == [] then [] else s.windows[..|s.windows| - 1])
    case Nested(true) => Counting(Exit(s), t.(depth := Minus(t.depth)))
    case Permit(true) => Counting(Exit(s), t.(permits := Minus(t.permits)))
    case Block(true, true) => Counting(Exit(s), t.(local := Minus(t.local)))
    case Slots(_, _, Traced(first), _, _) =>
      if s.windows == [] then Exit(s)
      else Exit(s).(windows := s.windows[|s.windows| - 1 := Cleared(s.windows[|s.windows| - 1], first)])
    case Slots(_, _, Untraced, true, _) => Counting(Exit(s), t.(local := Minus(t.local)))
    case _ => Exit(s)
  }

  function Apply(s: State, a: Action): State
    requires |s.contents| == |s.scopes| > 0
  {
    var top := |s.scopes| - 1;
    var t := Current(s);
    var counted := s.windows != [];
    match a
    case EnterFrame(c, values) => Enter(s, Frame(c), values).(young := s.young[c := {}])
    case LeaveFrame(result, to) =>
      if !s.scopes[top].Frame? then s else
      var s1 := Exit(s).(young := s.young - {s.scopes[top].ctx});
      if result.Some? then Anchor(s1, to, result.value) else s1
    case Compute(values) => s.(contents := s.contents[top := values])
    case FrameSafepoint => if s.scopes[top].Frame? then s.(young := s.young[s.scopes[top].ctx := {}]) else s
    case Allocate(c, o, refs, elems) =>
      Anchor(s.(heap := s.heap[o := Cell({o} + (set r, h | r in refs && r in s.heap && h in s.heap[r].holds :: h), elems)]), c, o)
    case EnterCall(size) =>
      if !s.scopes[top].Frame? then s else
      Enter(s, PrimitiveCall, []).(windows := s.windows + [Window(s.scopes[top].ctx, seq(size, _ => None), Tally(1, 0, 0, 0), 0)])
    case EnterNested => Counting(Enter(s, Nested(counted), []), t.(depth := t.depth + 1))
    case EnterPermit(c) =>
      if Permitted(s, c) then Counting(Enter(s, Permit(true), []), t.(permits := t.permits + 1))
      else Enter(s, Permit(false), [])
    case NewBlock => Enter(s, Block(counted, false), [])
    case Hold(p) =>
      if !BlockAt(s, p) || s.scopes[p].held then s else
      var s1 := s.(scopes := s.scopes[p := s.scopes[p].(held := true)]);
      if s.scopes[p].counted then Counting(s1, t.(local := t.local + 1)) else s1
    case Release(p) =>
      if !BlockAt(s, p) || !s.scopes[p].held then s else
      var s1 := s.(scopes := s.scopes[p := s.scopes[p].(held := false)], contents := s.contents[p := []]);
      if s.scopes[p].counted then Counting(s1, t.(local := Minus(t.local))) else s1
    case Park(p, v) => if p < |s.contents| then s.(contents := s.contents[p := s.contents[p] + [Some(v)]]) else s
    case Acquire(c, n) =>
      var start := if counted then s.windows[|s.windows| - 1].submissions else 0;
      if HasRoom(s, n) then Counting(Enter(s, Slots(c, n, Traced(t.next), true, start), []), t.(next := t.next + n))
      else Counting(Enter(s, Slots(c, n, Untraced, counted, start), seq(n, _ => None)), t.(local := t.local + 1))
    case TakeLocal(v) => Enter(s, Local, [Some(v)])
    case Leave => LeaveScope(s)
    case Put(p, i, v) => if SlotsAt(s, p) then Store(s, p, i, v) else s
    case Pin(p, i, v) =>
      if !SlotsAt(s, p) then s
      else if s.scopes[p].place.Traced? then Store(s, p, i, Some(v))
      else Anchor(Store(s, p, i, Some(v)), s.scopes[p].ctx, v)
    case Safepoint(p) =>
      if SlotsAt(s, p) && Submits(s, p) then
        var k := |s.windows| - 1;
        s.(windows := s.windows[k := s.windows[k].(submissions := s.windows[k].submissions + 1)],
           young := s.young[s.scopes[p].ctx := {}])
      else s
    case Ret(p, v) => if SlotsAt(s, p) && Submitted(s, p) then Anchor(s, s.scopes[p].ctx, v) else s
    case Publish(v) => s.(shared := s.shared + {v})
    case Unpublish(v) => s.(shared := s.shared - {v})
    case Collect(dead) => s.(heap := map o | o in s.heap && o !in dead :: s.heap[o])
  }

  // ---- what every reachable state satisfies

  /** Scopes nest, and the windows' counters and free slots match them. */
  ghost predicate Formed(s: State) {
    && |s.contents| == |s.scopes| > 0 && s.scopes[0].Frame?
    && Nests(s.scopes) && Match(s.scopes, s.windows)
    && (forall p | 0 <= p < |s.scopes| && s.scopes[p].Slots? && s.scopes[p].place.Untraced? :: |s.contents[p]| == s.scopes[p].n)
    && (forall p | 0 <= p < |s.scopes| && s.scopes[p].Block? && !s.scopes[p].held :: s.contents[p] == [])
  }

  ghost predicate Shape(s: State) {
    Formed(s) && forall c | Live(s.scopes, c) :: c in s.young
  }

  /** Nothing reachable has been freed. */
  ghost predicate Sound(s: State)
    requires |s.contents| == |s.scopes|
  {
    && (forall o | o in s.heap :: o in s.heap[o].holds && s.heap[o].holds <= s.heap.Keys)
    && (forall o, h | o in s.heap && h in s.heap[o].holds && h in s.heap :: s.heap[h].holds <= s.heap[o].holds)
    && (forall o, e | o in s.heap && e in s.heap[o].elems :: e in s.heap[o].holds)
    && (forall r | Root(s, r) :: r in s.heap)
  }

  /** The scopes the collector does not look into. */
  predicate Hidden(x: Scope) { x.Local? || (x.Block? && x.held) || (x.Slots? && x.place.Untraced?) }

  ghost predicate HiddenAnchored(s: State)
    requires |s.contents| == |s.scopes|
  {
    forall p: nat, v | p < |s.scopes| && Hidden(s.scopes[p]) && Some(v) in s.contents[p] :: Anchored(s, p, v)
  }

  ghost predicate Inv(s: State) { Shape(s) && Sound(s) && HiddenAnchored(s) }
}
