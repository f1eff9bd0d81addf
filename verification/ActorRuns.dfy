/** Whole runs of the actor scheduler, from any start with nothing sent yet. */
module ActorRuns {
  import opened Options
  import opened Actors
  import opened ActorSafety

  /** The value after the messages of `log`, each handled on the value the one
      before it left. */
  function Fold(h: Handler, v: Value, log: seq<(nat, Msg)>): Value {
    if |log| == 0 then v else
    match h(Fold(h, v, log[..|log| - 1]), log[|log| - 1].1) case Answer(r) => r case Throw => 0
  }

  /** Each message's promise with the value its handler left, once, in order. */
  function Offers(h: Handler, v: Value, log: seq<(nat, Msg)>): seq<(Msg, Value)> {
    if |log| == 0 then []
    else Offers(h, v, log[..|log| - 1]) + [(log[|log| - 1].1, Fold(h, v, log))]
  }

  ghost predicate Valued(h: Handler, x: Actor) {
    x.value == Fold(h, x.initial, x.log) && x.offers == Offers(h, x.initial, x.log)
  }

  ghost predicate AllValued(h: Handler, s: State) {
    forall a | 0 <= a < |s.actors| :: Valued(h, s.actors[a])
  }

  lemma FoldOne(h: Handler, v: Value, log: seq<(nat, Msg)>, b: nat, m: Msg)
    ensures Fold(h, v, log + [(b, m)]) == Result(h, Fold(h, v, log), m)
    ensures Offers(h, v, log + [(b, m)]) == Offers(h, v, log) + [(m, Result(h, Fold(h, v, log), m))]
  {
    assert (log + [(b, m)])[..|log|] == log;
  }

  lemma StepValued(h: Handler, s: State, x: Action)
    requires Shaped(s) && !x.Shutdown? && !x.Exit? && Step(h, s, x).Some?
    requires AllValued(h, s)
    ensures Valued(h, Step(h, s, x).value.actor)
  {
    hide Fold, Offers;
    var c := Step(h, s, x).value;
    assert Valued(h, s.actors[c.a]);
    if x.Handle? {
      var w := s.threads[x.t].work;
      FoldOne(h, s.actors[w.actor].initial, s.actors[w.actor].log, w.band, w.batches[w.band][w.at]);
    }
  }

  /** Messages with their band. */
  function Tagged(band: nat, xs: seq<Msg>): (r: seq<(nat, Msg)>)
    ensures |r| == |xs|
  {
    seq(|xs|, i requires 0 <= i < |xs| => (band, xs[i]))
  }

  /** The bands before `band`, highest priority first. */
  function Before(batches: seq<seq<Msg>>, band: nat): seq<(nat, Msg)>
    requires band <= |batches|
  {
    if band == 0 then [] else Before(batches, band - 1) + Tagged(band - 1, batches[band - 1])
  }

  /** The log since a turn began: its high batch, then medium, then low, as far
      as the turn has got. */
  ghost predicate InOrder(w: Work, log: seq<(nat, Msg)>) {
    && (w.Taking? ==> w.since == |log|)
    && (w.Draining? ==>
        && w.since <= |log| && w.band < |w.batches| && w.at <= |w.batches[w.band]|
        && log[w.since..] == Before(w.batches, w.band) + Tagged(w.band, w.batches[w.band][..w.at]))
  }

  ghost predicate TurnsInOrder(s: State)
    requires Shaped(s)
  {
    forall t | 0 <= t < |s.threads| && (s.threads[t].work.Taking? || s.threads[t].work.Draining?) ::
      InOrder(s.threads[t].work, s.actors[s.threads[t].work.actor].log)
  }

  lemma TaggedOne(band: nat, xs: seq<Msg>, at: nat)
    requires at < |xs|
    ensures Tagged(band, xs[..at + 1]) == Tagged(band, xs[..at]) + [(band, xs[at])]
  {
  }

  /** The acting thread's turn stays in order, and only it extends its actor's
      log. */
  lemma StepInOrder(h: Handler, s: State, x: Action)
    requires Shaped(s) && !x.Shutdown? && !x.Exit? && Step(h, s, x).Some? && TurnsInOrder(s)
    ensures var c := Step(h, s, x).value;
            && ((c.thread.work.Taking? || c.thread.work.Draining?) ==>
                 c.thread.work.actor < |s.actors| &&
                 InOrder(c.thread.work, (if c.thread.work.actor == c.a then c.actor else s.actors[c.thread.work.actor]).log))
            && (c.actor.log != s.actors[c.a].log ==> WorkHolds(s.threads[c.t].work, c.a) == 1)
  {
    hide Before, Result;
    StepShaped(h, s, x);
    var c := Step(h, s, x).value;
    var w := s.threads[c.t].work;
    assert w.Taking? || w.Draining? ==> InOrder(w, s.actors[w.actor].log);
    if x.Handle? {
      TaggedOne(w.band, w.batches[w.band], w.at);
      var log, m := s.actors[w.actor].log, w.batches[w.band][w.at];
      assert (log + [(w.band, m)])[w.since..] == log[w.since..] + [(w.band, m)];
    } else if x.Advance? {
      assert w.batches[w.band][..w.at] == w.batches[w.band];
      BeforeNext(w.batches, w.band);
    } else if x.Take? {
      BeforeNone(w.batches + [s.actors[w.actor].mail[|w.batches|]]);
      var log := s.actors[w.actor].log;
      assert log[|log|..] == [];
    }
    hide InOrder;
  }

  lemma BeforeNext(batches: seq<seq<Msg>>, band: nat)
    requires band < |batches|
    ensures Before(batches, band + 1) == Before(batches, band) + Tagged(band, batches[band])
  {
  }

  lemma BeforeNone(batches: seq<seq<Msg>>)
    ensures Before(batches, 0) == []
  {
  }

  lemma OrderKept(h: Handler, s: State, x: Action)
    requires Shaped(s) && AllSingle(s) && TurnsInOrder(s) && Act(h, s, x).Some?
    ensures Shaped(Act(h, s, x).value) && TurnsInOrder(Act(h, s, x).value)
  {
    ActShaped(h, s, x);
    var s1 := Act(h, s, x).value;
    if !x.Shutdown? && !x.Exit? {
      StepInOrder(h, s, x);
      var c := Step(h, s, x).value;
      hide Step, InOrder;
      forall t | 0 <= t < |s1.threads| && (s1.threads[t].work.Taking? || s1.threads[t].work.Draining?)
        ensures InOrder(s1.threads[t].work, s1.actors[s1.threads[t].work.actor].log)
      {
        if t != c.t {
          var a := s.threads[t].work.actor;
          assert InOrder(s.threads[t].work, s.actors[a].log);
          assert Holds(s.threads[t], a) > 0;
          if c.actor.log != s.actors[c.a].log { HeldClaimed(s, c.t, c.a); }
          assert s1.actors[a].log == s.actors[a].log;
        }
      }
    } else {
      forall t | 0 <= t < |s1.threads| && (s1.threads[t].work.Taking? || s1.threads[t].work.Draining?)
        ensures InOrder(s1.threads[t].work, s1.actors[s1.threads[t].work.actor].log)
      {
        assert s1.threads[t] == s.threads[t];
      }
    }
  }

  /** Nothing sent, nobody at work. */
  predicate Initial(s: State)
    requires Shaped(s)
  {
    && s.ready == [[], [], []] && !s.shuttingDown
    && (forall t | 0 <= t < |s.threads| :: s.threads[t].send == NotSending && (s.threads[t].work.Outside? || s.threads[t].work.Idle?))
    && (forall a | 0 <= a < |s.actors| ::
          var x := s.actors[a];
          !x.claimed && x.mail == [[], [], []] && x.pushed == [[], [], []] && x.log == [] && x.offers == [] && x.value == x.initial)
  }

  ghost predicate Safe(h: Handler, s: State) {
    Shaped(s) && AllSingle(s) && NoneLost(s) && AllConserved(s) && AllValued(h, s) && TurnsInOrder(s)
  }

  lemma InitialSafe(h: Handler, s: State)
    requires Shaped(s) && Initial(s)
    ensures Safe(h, s)
  {
    forall a | 0 <= a < |s.actors| ensures Single(s, a) { NoHolders(s.threads, a); }
    forall a, band | 0 <= a < |s.actors| && 0 <= band < 3 ensures Conserved(s, a, band) && NotLost(s, a, band) {
      NoRest(s.threads, a, band);
    }
  }

  lemma ActSafe(h: Handler, s: State, x: Action)
    requires Safe(h, s) && Act(h, s, x).Some?
    ensures Safe(h, Act(h, s, x).value)
  {
    ActShaped(h, s, x);
    SingleKept(h, s, x);
    NoneLostKept(h, s, x);
    ConservedKept(h, s, x);
    OrderKept(h, s, x);
    ValuedKept(h, s, x);
  }

  lemma ValuedKept(h: Handler, s: State, x: Action)
    requires Shaped(s) && AllValued(h, s) && Act(h, s, x).Some?
    ensures AllValued(h, Act(h, s, x).value)
  {
    hide Valued;
    if !x.Shutdown? && !x.Exit? {
      StepValued(h, s, x);
      hide Step;
    }
  }

  /** The state after a sequence of actions, if all of them can happen. */
  function Run(h: Handler, s: State, xs: seq<Action>): Option<State>
    requires Shaped(s)
    ensures Run(h, s, xs).Some? ==> Shaped(Run(h, s, xs).value)
    decreases |xs|
  {
    if |xs| == 0 then Some(s) else
    match Act(h, s, xs[0])
    case None => None
    case Some(s1) =>
      ActShaped(h, s, xs[0]);
      Run(h, s1, xs[1..])
  }

  /** In every reachable state an actor is in one place, no message is lost,
      each pushed message is handled once and in order, and the value is the
      fold of the handlers over the messages handled. */
  lemma {:induction false} RunSafe(h: Handler, s: State, xs: seq<Action>)
    requires Safe(h, s) && Run(h, s, xs).Some?
    ensures Safe(h, Run(h, s, xs).value)
    decreases |xs|
  {
    hide Safe, Act;
    SafeShaped(h, s);
    if |xs| > 0 {
      ActSafe(h, s, xs[0]);
      RunSafe(h, Act(h, s, xs[0]).value, xs[1..]);
    }
  }

  lemma SafeShaped(h: Handler, s: State)
    requires Safe(h, s)
    ensures Shaped(s)
  {
  }

  /** Whatever is sent, and however senders and workers interleave: once nothing
      is going on, every message pushed has been handled, in the order pushed on
      its band, the value is the fold over them, and each promise has had its
      result. */
  lemma AllHandled(h: Handler, s: State, xs: seq<Action>)
    requires Shaped(s) && Initial(s) && Run(h, s, xs).Some? && Quiescent(Run(h, s, xs).value)
    ensures var s1 := Run(h, s, xs).value;
            forall a | 0 <= a < |s1.actors| ::
              && (forall band | 0 <= band < 3 :: OfBand(s1.actors[a].log, band) == s1.actors[a].pushed[band])
              && s1.actors[a].value == Fold(h, s1.actors[a].initial, s1.actors[a].log)
              && s1.actors[a].offers == Offers(h, s1.actors[a].initial, s1.actors[a].log)
  {
    InitialSafe(h, s);
    RunSafe(h, s, xs);
    var s1 := Run(h, s, xs).value;
    QuiescentEmpty(s1);
    hide Run, Fold, Offers, OfBand;
    forall a | 0 <= a < |s1.actors|
      ensures forall band | 0 <= band < 3 :: OfBand(s1.actors[a].log, band) == s1.actors[a].pushed[band]
      ensures Valued(h, s1.actors[a])
    {
      forall band | 0 <= band < 3 ensures OfBand(s1.actors[a].log, band) == s1.actors[a].pushed[band] {
        assert Conserved(s1, a, band);
        NoRest(s1.threads, a, band);
      }
    }
  }

  /** Every worker has exited and no thread is sending. */
  predicate Over(s: State) {
    forall t | 0 <= t < |s.threads| :: s.threads[t].send == NotSending && (s.threads[t].work.Outside? || s.threads[t].work.Exited?)
  }

  /** No thread but the workers acts, and none but they is sending. */
  predicate Internal(s: State, xs: seq<Action>) {
    && (forall t | 0 <= t < |s.threads| && (s.threads[t].work.Outside? || s.threads[t].work.Exited?) :: s.threads[t].send == NotSending)
    && (forall i | 0 <= i < |xs| :: xs[i].Push? ==> xs[i].t < |s.threads| && !s.threads[xs[i].t].work.Outside?)
  }

  /** A worker leaves only when nothing is queued. */
  ghost predicate LeftEmpty(s: State)
    requires |s.ready| == 3
  {
    Over(s) ==> s.ready[0] == [] && s.ready[1] == [] && s.ready[2] == []
  }

  lemma ActInternal(h: Handler, s: State, x: Action, xs: seq<Action>)
    requires Shaped(s) && Internal(s, [x] + xs) && LeftEmpty(s) && Act(h, s, x).Some?
    ensures Shaped(Act(h, s, x).value) && Internal(Act(h, s, x).value, xs) && LeftEmpty(Act(h, s, x).value)
  {
    ActShaped(h, s, x);
    var s1 := Act(h, s, x).value;
    assert ([x] + xs)[0] == x;
    forall i | 0 <= i < |xs| && xs[i].Push? ensures xs[i].t < |s.threads| && !s.threads[xs[i].t].work.Outside? {
      assert ([x] + xs)[i + 1] == xs[i];
    }
    if !x.Shutdown? && !x.Exit? {
      StepWorker(h, s, x);
      var c := Step(h, s, x).value;
      assert x.Push? ==> !s.threads[x.t].work.Outside?;
      assert !s.threads[c.t].work.Outside? && !s.threads[c.t].work.Exited?;
      assert s1.threads[c.t] == c.thread && !Over(s1);
      hide Step;
    }
  }

  /** A step that is no worker's is a send's; workers stay workers. */
  lemma StepWorker(h: Handler, s: State, x: Action)
    requires Shaped(s) && !x.Shutdown? && !x.Exit? && Step(h, s, x).Some?
    ensures var c := Step(h, s, x).value;
            && (c.thread.work.Outside? <==> s.threads[c.t].work.Outside?)
            && (s.threads[c.t].work.Outside? ==> x.Push? || s.threads[c.t].send != NotSending)
            && (!s.threads[c.t].work.Outside? ==> !c.thread.work.Exited? || s.threads[c.t].work.Exited?)
            && (s.threads[c.t].work.Exited? ==> s.threads[c.t].send != NotSending)
  {
    hide Result;
  }

  lemma {:induction false} RunInternal(h: Handler, s: State, xs: seq<Action>)
    requires Shaped(s) && Internal(s, xs) && LeftEmpty(s) && Run(h, s, xs).Some?
    ensures LeftEmpty(Run(h, s, xs).value)
    decreases |xs|
  {
    if |xs| > 0 {
      assert [xs[0]] + xs[1..] == xs;
      ActInternal(h, s, xs[0], xs[1..]);
      hide Internal, LeftEmpty, Act;
      RunInternal(h, Act(h, s, xs[0]).value, xs[1..]);
    }
  }

  /** Once every worker has exited, with no sender outside since a time when one
      had not, no message is left in any mailbox. */
  lemma ExitedEmpty(h: Handler, s: State, xs: seq<Action>)
    requires Safe(h, s) && Internal(s, xs) && !Over(s) && Run(h, s, xs).Some? && Over(Run(h, s, xs).value)
    ensures var s1 := Run(h, s, xs).value;
            forall a, band | 0 <= a < |s1.actors| && 0 <= band < 3 :: s1.actors[a].mail[band] == []
  {
    RunInternal(h, s, xs);
    RunSafe(h, s, xs);
    QuiescentEmpty(Run(h, s, xs).value);
  }
}
