/** The ready queues: which actor a worker serves next, and where an actor
    waits. */
module ActorQueues {
  import opened Options
  import opened Actors
  import opened ActorRuns

  /** The queues, with one actor more at the back of band `b`. */
  ghost predicate Joins(ready: seq<seq<nat>>, b: nat, a: nat, ready1: seq<seq<nat>>)
    requires |ready| == |ready1| == 3
  {
    b < 3 && ready1[b] == ready[b] + [a] && forall c | 0 <= c < 3 && c != b :: ready1[c] == ready[c]
  }

  /** The queues, with the actor at the front of band `b` gone; no band of
      higher priority had one. */
  ghost predicate Serves(ready: seq<seq<nat>>, b: nat, a: nat, ready1: seq<seq<nat>>)
    requires |ready| == |ready1| == 3
  {
    && b < 3 && ready[b] == [a] + ready1[b]
    && (forall c | 0 <= c < b :: ready[c] == []) && (forall c | 0 <= c < 3 && c != b :: ready1[c] == ready[c])
  }

  /** A worker that is idle pops as soon as some actor waits, and takes the one
      that has waited longest at the highest priority. */
  lemma PopServes(h: Handler, s: State, t: nat)
    requires Shaped(s)
    ensures Act(h, s, Pop(t)).Some? <==>
              t < |s.threads| && s.threads[t] == Thread(Idle, NotSending) && exists b: nat :: b < 3 && s.ready[b] != []
    ensures Act(h, s, Pop(t)).Some? ==>
              var s1 := Act(h, s, Pop(t)).value;
              && |s1.ready| == 3 && |s1.threads| == |s.threads| && s1.threads[t].work.Taking? && s1.actors == s.actors
              && exists b: nat :: Serves(s.ready, b, s1.threads[t].work.actor, s1.ready)
  {
    hide SendStep, ScanStep, Result;
    var r := s.ready;
    assert (exists b: nat :: b < 3 && r[b] != []) <==> r[0] != [] || r[1] != [] || r[2] != [];
    if Act(h, s, Pop(t)).Some? {
      var s1 := Act(h, s, Pop(t)).value;
      var b := if r[0] != [] then 0 else if r[1] != [] then 1 else 2;
      assert r[b] == [r[b][0]] + r[b][1..];
      assert Serves(r, b, s1.threads[t].work.actor, s1.ready);
    }
  }

  /** An actor waits in the band of the message whose sender claimed it, or in
      the band its worker chose; nothing but these two and a pop changes the
      queues. */
  lemma WaitsIn(h: Handler, s: State, x: Action)
    requires Shaped(s) && Act(h, s, x).Some? && !x.Pop?
    ensures var s1 := Act(h, s, x).value;
            && |s1.ready| == 3
            && (x.Enqueue? ==> s.threads[x.t].send.Won? && Joins(s.ready, s.threads[x.t].send.band, s.threads[x.t].send.actor, s1.ready))
            && (x.Requeue? ==> s.threads[x.t].work.Requeuing? && Joins(s.ready, s.threads[x.t].work.band, s.threads[x.t].work.actor, s1.ready))
            && (!x.Enqueue? && !x.Requeue? ==> s1.ready == s.ready)
  {
    hide Result;
  }

  /** The band of a claim is the message's, which went to the back of that band
      of the mailbox; a worker's choice is the first band it sees a message in,
      low if it sees none. */
  lemma BandChosen(h: Handler, s: State, x: Action)
    requires Shaped(s) && Act(h, s, x).Some?
    ensures var s1 := Act(h, s, x).value;
            && (x.Push? ==>
                && x.band < 3 && x.actor < |s.actors| && s1.threads[x.t].send == Pushed(x.actor, x.band)
                && s1.actors[x.actor].mail == s.actors[x.actor].mail[x.band := s.actors[x.actor].mail[x.band] + [x.msg]])
            && (x.Claim? ==>
                s.threads[x.t].send.Pushed? &&
                var p := s.threads[x.t].send;
                s1.threads[x.t].send == if s.actors[p.actor].claimed then NotSending else Won(p.actor, p.band))
            && (x.Choose? ==>
                s.threads[x.t].work.Choosing? &&
                var w := s.threads[x.t].work;
                && w.band < 2
                && s1.threads[x.t].work ==
                     if s.actors[w.actor].mail[w.band] != [] then Requeuing(w.actor, w.band)
                     else if w.band == 0 then Choosing(w.actor, 1) else Requeuing(w.actor, 2))
  {
    hide Result;
  }

  /** A worker leaves exactly when it is idle, no actor waits and the scheduler
      is shutting down. */
  lemma ExitsWhen(h: Handler, s: State, t: nat)
    requires Shaped(s)
    ensures Act(h, s, Exit(t)).Some? <==>
              t < |s.threads| && s.threads[t] == Thread(Idle, NotSending) && s.ready[0] == s.ready[1] == s.ready[2] == [] && s.shuttingDown
  {
    hide Step;
  }

  /** After a turn a worker looks at the bands in order until it sees a message,
      and is idle again if it sees none; if it does it claims the actor, unless
      a sender has. */
  lemma Rescans(h: Handler, s: State, x: Action)
    requires Shaped(s) && Act(h, s, x).Some?
    ensures var s1 := Act(h, s, x).value;
            && (x.Release? ==>
                s.threads[x.t].work.Releasing? &&
                var a := s.threads[x.t].work.actor;
                s1.threads[x.t].work == Scanning(a, 0) && !s1.actors[a].claimed)
            && (x.Look? ==>
                s.threads[x.t].work.Scanning? &&
                var a, b := s.threads[x.t].work.actor, s.threads[x.t].work.band;
                s1.threads[x.t].work ==
                  if s.actors[a].mail[b] != [] then Found(a) else if b == 2 then Idle else Scanning(a, b + 1))
            && (x.Reclaim? ==>
                s.threads[x.t].work.Found? &&
                var a := s.threads[x.t].work.actor;
                && s1.actors[a].claimed
                && s1.threads[x.t].work == if s.actors[a].claimed then Idle else Choosing(a, 0))
  {
    hide Result;
  }

  /** No thread is ever stuck: one that is sending, or a worker with an actor,
      has a next step; and a thread outside, or a handler, may send to any actor
      in any of the three bands. */
  lemma NoneStuck(h: Handler, s: State, t: nat, a: nat, b: nat, m: Msg)
    requires Shaped(s) && t < |s.threads|
    ensures var th := s.threads[t];
            if th.send.Pushed? then Act(h, s, Claim(t)).Some?
            else if th.send.Won? then Act(h, s, Enqueue(t)).Some?
            else match th.work
              case Outside => true
              case Exited => true
              case Idle => (exists c: nat :: c < 3 && s.ready[c] != []) ==> Act(h, s, Pop(t)).Some?
              case Taking(_, _, _) => Act(h, s, Take(t)).Some?
              case Draining(_, batches, band, at, _) =>
                if at < |batches[band]| then Act(h, s, Handle(t)).Some? else Act(h, s, Advance(t)).Some?
              case Releasing(_) => Act(h, s, Release(t)).Some?
              case Scanning(_, _) => Act(h, s, Look(t)).Some?
              case Found(_) => Act(h, s, Reclaim(t)).Some?
              case Choosing(_, _) => Act(h, s, Choose(t)).Some?
              case Requeuing(_, _) => Act(h, s, Requeue(t)).Some?
    ensures var th := s.threads[t];
            a < |s.actors| && b < 3 && th.send.NotSending? &&
            (th.work.Outside? || (th.work.Draining? && th.work.at < |th.work.batches[th.work.band]|)) ==>
              Act(h, s, Push(t, a, b, m)).Some?
  {
    hide Result, FirstReady;
    if s.threads[t].work.Idle? { PopServes(h, s, t); }
  }

  /** The actors a step put at the back of band `b`, and those it took from its
      front. */
  function CameIn(s: State, x: Action, b: nat): seq<nat> {
    if x.Enqueue? && x.t < |s.threads| && s.threads[x.t].send.Won? && s.threads[x.t].send.band == b then [s.threads[x.t].send.actor]
    else if x.Requeue? && x.t < |s.threads| && s.threads[x.t].work.Requeuing? && s.threads[x.t].work.band == b then [s.threads[x.t].work.actor]
    else []
  }

  function WentIn(s: State, x: Action, s1: State, b: nat): seq<nat>
    requires |s.ready| == |s1.ready| == 3 && b < 3
  {
    if x.Pop? && x.t < |s1.threads| && s1.threads[x.t].work.Taking? && s1.ready[b] != s.ready[b] then [s1.threads[x.t].work.actor] else []
  }

  function Came(h: Handler, s: State, xs: seq<Action>, b: nat): seq<nat>
    requires Shaped(s) && Run(h, s, xs).Some?
    decreases |xs|
  {
    if xs == [] then [] else
    ActShaped(h, s, xs[0]);
    CameIn(s, xs[0], b) + Came(h, Act(h, s, xs[0]).value, xs[1..], b)
  }

  function Went(h: Handler, s: State, xs: seq<Action>, b: nat): seq<nat>
    requires Shaped(s) && Run(h, s, xs).Some? && b < 3
    decreases |xs|
  {
    if xs == [] then [] else
    ActShaped(h, s, xs[0]);
    var s1 := Act(h, s, xs[0]).value;
    WentIn(s, xs[0], s1, b) + Went(h, s1, xs[1..], b)
  }

  lemma QueueStep(h: Handler, s: State, x: Action, b: nat)
    requires Shaped(s) && Act(h, s, x).Some? && b < 3
    ensures var s1 := Act(h, s, x).value;
            |s1.ready| == 3 && s.ready[b] + CameIn(s, x, b) == WentIn(s, x, s1, b) + s1.ready[b]
  {
    if x.Pop? { PopServes(h, s, x.t); } else { WaitsIn(h, s, x); }
    hide Act, Shaped;
  }

  /** Every band is first in, first out: over any run, in any interleaving,
      those that waited at its start and those that came are those that were
      served and those that still wait, in this order. */
  lemma {:induction false} FirstComeFirstServed(h: Handler, s: State, xs: seq<Action>, b: nat)
    requires Shaped(s) && Run(h, s, xs).Some? && b < 3
    ensures s.ready[b] + Came(h, s, xs, b) == Went(h, s, xs, b) + Run(h, s, xs).value.ready[b]
    decreases |xs|
  {
    hide Act, CameIn, WentIn;
    if xs != [] {
      var x, s1 := xs[0], Act(h, s, xs[0]).value;
      ActShaped(h, s, x);
      FirstComeFirstServed(h, s1, xs[1..], b);
      QueueStep(h, s, x, b);
      var r, r1, came, went := s.ready[b], s1.ready[b], Came(h, s1, xs[1..], b), Went(h, s1, xs[1..], b);
      calc {
        r + (CameIn(s, x, b) + came);
        (r + CameIn(s, x, b)) + came;
        WentIn(s, x, s1, b) + (r1 + came);
        WentIn(s, x, s1, b) + (went + Run(h, s1, xs[1..]).value.ready[b]);
      }
    }
  }
}
