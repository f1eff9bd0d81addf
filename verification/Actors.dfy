/** The actor scheduler as a transition system: one step for each access to
    what threads share. Accesses are sequentially consistent. */
module Actors {

  import opened Options

  /** A message, and an actor's value, by identity; 0 is nil. */
  type Msg = int
  type Value = int

  const NIL: Value := 0

  /** What a message's function makes of the actor's value; Throw: it throws. */
  datatype Outcome = Answer(value: Value) | Throw
  type Handler = (Value, Msg) -> Outcome

  /** Bands 0, 1, 2: high, medium, low. `pushed`, `log` and `offers` are the
      history: messages pushed on each band, messages handled with their band,
      and the results offered to their promises. */
  datatype Actor = Actor(
    claimed: bool, mail: seq<seq<Msg>>, value: Value,
    initial: Value, pushed: seq<seq<Msg>>, log: seq<(nat, Msg)>, offers: seq<(Msg, Value)>)

  /** A send: the message pushed and the claim not tried yet; or the claim won
      and the actor not queued yet. */
  datatype Sending = NotSending | Pushed(actor: nat, band: nat) | Won(actor: nat, band: nat)

  /** A worker's place in its loop. `since` is how long the actor's log was
      when the turn began. */
  datatype Work =
    | Outside                                             // not a worker
    | Idle
    | Taking(actor: nat, batches: seq<seq<Msg>>, since: nat)   // some bands emptied
    | Draining(actor: nat, batches: seq<seq<Msg>>, band: nat, at: nat, since: nat)
    | Releasing(actor: nat)
    | Scanning(actor: nat, band: nat)                     // claim dropped, bands before `band` seen empty
    | Found(actor: nat)                                   // a band was not empty
    | Choosing(actor: nat, band: nat)                     // claim won again
    | Requeuing(actor: nat, band: nat)
    | Exited

  datatype Thread = Thread(work: Work, send: Sending)

  datatype State = State(actors: seq<Actor>, ready: seq<seq<nat>>, threads: seq<Thread>, shuttingDown: bool)

  datatype Action =
    | Push(t: nat, actor: nat, band: nat, msg: Msg)
    | Claim(t: nat)
    | Enqueue(t: nat)
    | Pop(t: nat)
    | Take(t: nat)
    | Handle(t: nat)
    | Advance(t: nat)
    | Release(t: nat)
    | Look(t: nat)
    | Reclaim(t: nat)
    | Choose(t: nat)
    | Requeue(t: nat)
    | Shutdown
    | Exit(t: nat)

  predicate Shaped(s: State) {
    && |s.ready| == 3
    && (forall a | 0 <= a < |s.actors| :: |s.actors[a].mail| == 3 && |s.actors[a].pushed| == 3)
    && (forall b, i | 0 <= b < 3 && 0 <= i < |s.ready[b]| :: s.ready[b][i] < |s.actors|)
    && (forall t | 0 <= t < |s.threads| :: ThreadShaped(s.threads[t], |s.actors|))
  }

  predicate ThreadShaped(t: Thread, actors: nat) {
    && (match t.send case NotSending => true case Pushed(a, b) => a < actors && b < 3 case Won(a, b) => a < actors && b < 3)
    && (match t.work
        case Outside => true
        case Idle => true
        case Exited => true
        case Taking(a, batches, _) => a < actors && |batches| < 3
        case Draining(a, batches, band, at, _) => a < actors && |batches| == 3 && band < 3 && at <= |batches[band]|
        case Releasing(a) => a < actors
        case Scanning(a, band) => a < actors && band < 3
        case Found(a) => a < actors
        case Choosing(a, band) => a < actors && band < 2
        case Requeuing(a, band) => a < actors && band < 3)
  }

  /** A thread may send from outside, or as the handler a worker runs. */
  predicate MaySend(t: Thread) {
    t.send == NotSending &&
    (t.work.Outside? || (t.work.Draining? && t.work.band < |t.work.batches| && t.work.at < |t.work.batches[t.work.band]|))
  }

  function FirstReady(ready: seq<seq<nat>>): Option<nat>
    requires |ready| == 3
  {
    if ready[0] != [] then Some(0) else if ready[1] != [] then Some(1) else if ready[2] != [] then Some(2) else None
  }

  function Queued(ready: seq<seq<nat>>, band: nat, a: nat): seq<seq<nat>>
    requires band < |ready|
  {
    ready[band := ready[band] + [a]]
  }

  function Result(h: Handler, v: Value, m: Msg): Value {
    match h(v, m) case Answer(r) => r case Throw => NIL
  }

  /** One thread's step: its own new state, and one actor and the ready queues
      as it leaves them. */
  datatype Change = Change(t: nat, thread: Thread, a: nat, actor: Actor, ready: seq<seq<nat>>)

  function Apply(s: State, c: Change): State
    requires c.t < |s.threads| && c.a < |s.actors|
  {
    s.(actors := s.actors[c.a := c.actor], threads := s.threads[c.t := c.thread], ready := c.ready)
  }

  /** A send's steps: push, claim, queue. */
  function SendStep(s: State, x: Action): Option<Change>
    requires Shaped(s) && (x.Push? || x.Claim? || x.Enqueue?)
    ensures SendStep(s, x).Some? ==> SendStep(s, x).value.t == x.t < |s.threads| && SendStep(s, x).value.a < |s.actors|
  {
    if x.t >= |s.threads| then None else
    var th := s.threads[x.t];
    match x
    case Push(t, a, b, m) =>
      if a < |s.actors| && b < 3 && MaySend(th) then
        var actor := s.actors[a];
        Some(Change(t, th.(send := Pushed(a, b)), a,
                    actor.(mail := actor.mail[b := actor.mail[b] + [m]], pushed := actor.pushed[b := actor.pushed[b] + [m]]), s.ready))
      else None
    case Claim(t) =>
      if th.send.Pushed? then
        var a := th.send.actor;
        if s.actors[a].claimed then Some(Change(t, th.(send := NotSending), a, s.actors[a], s.ready))
        else Some(Change(t, th.(send := Won(a, th.send.band)), a, s.actors[a].(claimed := true), s.ready))
      else None
    case Enqueue(t) =>
      if th.send.Won? then
        Some(Change(t, th.(send := NotSending), th.send.actor, s.actors[th.send.actor], Queued(s.ready, th.send.band, th.send.actor)))
      else None
  }

  /** A worker's turn: pop, three takeAlls, a handler run each message, and the
      claim dropped. */
  function TurnStep(h: Handler, s: State, x: Action): Option<Change>
    requires Shaped(s) && (x.Pop? || x.Take? || x.Handle? || x.Advance? || x.Release?)
    ensures TurnStep(h, s, x).Some? ==> TurnStep(h, s, x).value.t == x.t < |s.threads| && TurnStep(h, s, x).value.a < |s.actors|
  {
    if x.t >= |s.threads| then None else
    var th := s.threads[x.t];
    match x
    case Pop(t) =>
      if th == Thread(Idle, NotSending) && FirstReady(s.ready).Some? then
        var b := FirstReady(s.ready).value;
        var a := s.ready[b][0];
        Some(Change(t, Thread(Taking(a, [], |s.actors[a].log|), NotSending), a, s.actors[a], s.ready[b := s.ready[b][1..]]))
      else None
    case Take(t) =>
      if th.work.Taking? then
        var w, a, b := th.work, th.work.actor, |th.work.batches|;
        var batches := w.batches + [s.actors[a].mail[b]];
        Some(Change(t, th.(work := if b == 2 then Draining(a, batches, 0, 0, w.since) else Taking(a, batches, w.since)), a,
                    s.actors[a].(mail := s.actors[a].mail[b := []]), s.ready))
      else None
    case Handle(t) =>
      if th.work.Draining? && th.send == NotSending && th.work.at < |th.work.batches[th.work.band]| then
        var w, actor := th.work, s.actors[th.work.actor];
        var m := w.batches[w.band][w.at];
        var v := Result(h, actor.value, m);
        Some(Change(t, th.(work := w.(at := w.at + 1)), w.actor,
                    actor.(value := v, log := actor.log + [(w.band, m)], offers := actor.offers + [(m, v)]), s.ready))
      else None
    case Advance(t) =>
      if th.work.Draining? && th.send == NotSending && th.work.at == |th.work.batches[th.work.band]| then
        var w := th.work;
        Some(Change(t, th.(work := if w.band < 2 then w.(band := w.band + 1, at := 0) else Releasing(w.actor)), w.actor,
                    s.actors[w.actor], s.ready))
      else None
    case Release(t) =>
      if th.work.Releasing? then
        var a := th.work.actor;
        Some(Change(t, th.(work := Scanning(a, 0)), a, s.actors[a].(claimed := false), s.ready))
      else None
  }

  /** After a turn: three loads, the claim again, two loads, and the queue; or
      the end of a worker. */
  function ScanStep(s: State, x: Action): Option<Change>
    requires Shaped(s) && (x.Look? || x.Reclaim? || x.Choose? || x.Requeue?)
    ensures ScanStep(s, x).Some? ==> ScanStep(s, x).value.t == x.t < |s.threads| && ScanStep(s, x).value.a < |s.actors|
  {
    if x.t >= |s.threads| then None else
    var th := s.threads[x.t];
    match x
    case Look(t) =>
      if th.work.Scanning? then
        var a, b := th.work.actor, th.work.band;
        Some(Change(t, th.(work := if s.actors[a].mail[b] != [] then Found(a) else if b < 2 then Scanning(a, b + 1) else Idle), a,
                    s.actors[a], s.ready))
      else None
    case Reclaim(t) =>
      if th.work.Found? then
        var a := th.work.actor;
        if s.actors[a].claimed then Some(Change(t, th.(work := Idle), a, s.actors[a], s.ready))
        else Some(Change(t, th.(work := Choosing(a, 0)), a, s.actors[a].(claimed := true), s.ready))
      else None
    case Choose(t) =>
      if th.work.Choosing? then
        var a, b := th.work.actor, th.work.band;
        Some(Change(t, th.(work := if s.actors[a].mail[b] != [] then Requeuing(a, b) else if b == 0 then Choosing(a, 1) else Requeuing(a, 2)),
                    a, s.actors[a], s.ready))
      else None
    case Requeue(t) =>
      if th.work.Requeuing? then
        Some(Change(t, th.(work := Idle), th.work.actor, s.actors[th.work.actor], Queued(s.ready, th.work.band, th.work.actor)))
      else None
  }

  /** The state after an action, if the action can happen. */
  function Act(h: Handler, s: State, x: Action): Option<State>
    requires Shaped(s)
  {
    match x
    case Shutdown => Some(s.(shuttingDown := true))
    case Exit(t) =>
      if t < |s.threads| && s.threads[t] == Thread(Idle, NotSending) && FirstReady(s.ready).None? && s.shuttingDown then
        Some(s.(threads := s.threads[t := Thread(Exited, NotSending)]))
      else None
    case _ =>
      match Step(h, s, x) case Some(c) => Some(Apply(s, c)) case None => None
  }

  function Step(h: Handler, s: State, x: Action): Option<Change>
    requires Shaped(s) && !x.Shutdown? && !x.Exit?
    ensures Step(h, s, x).Some? ==> Step(h, s, x).value.t == x.t < |s.threads| && Step(h, s, x).value.a < |s.actors|
  {
    if x.Push? || x.Claim? || x.Enqueue? then SendStep(s, x)
    else if x.Look? || x.Reclaim? || x.Choose? || x.Requeue? then ScanStep(s, x)
    else TurnStep(h, s, x)
  }

  predicate ChangeShaped(s: State, c: Change) {
    && |c.ready| == 3 && |c.actor.mail| == 3 && |c.actor.pushed| == 3 && ThreadShaped(c.thread, |s.actors|)
    && (forall b, i | 0 <= b < 3 && 0 <= i < |c.ready[b]| :: c.ready[b][i] < |s.actors|)
  }

  lemma SendShaped(s: State, x: Action)
    requires Shaped(s) && (x.Push? || x.Claim? || x.Enqueue?) && SendStep(s, x).Some?
    ensures ChangeShaped(s, SendStep(s, x).value)
  {
  }

  lemma TurnShaped(h: Handler, s: State, x: Action)
    requires Shaped(s) && (x.Pop? || x.Take? || x.Handle? || x.Advance? || x.Release?) && TurnStep(h, s, x).Some?
    ensures ChangeShaped(s, TurnStep(h, s, x).value)
  {
  }

  lemma ScanShaped(s: State, x: Action)
    requires Shaped(s) && (x.Look? || x.Reclaim? || x.Choose? || x.Requeue?) && ScanStep(s, x).Some?
    ensures ChangeShaped(s, ScanStep(s, x).value)
  {
  }

  lemma StepShaped(h: Handler, s: State, x: Action)
    requires Shaped(s) && !x.Shutdown? && !x.Exit? && Step(h, s, x).Some?
    ensures ChangeShaped(s, Step(h, s, x).value)
  {
    hide SendStep, ScanStep, TurnStep, ChangeShaped;
    if x.Push? || x.Claim? || x.Enqueue? { SendShaped(s, x); }
    else if x.Look? || x.Reclaim? || x.Choose? || x.Requeue? { ScanShaped(s, x); }
    else { TurnShaped(h, s, x); }
  }

  lemma ActShaped(h: Handler, s: State, x: Action)
    requires Shaped(s) && Act(h, s, x).Some?
    ensures Shaped(Act(h, s, x).value)
  {
    hide Step, FirstReady;
    if !x.Shutdown? && !x.Exit? { StepShaped(h, s, x); }
  }
}
