/** What every run of the actor scheduler keeps: an actor is in one place, no
    message is lost, and messages are handled in order, each once. */
module ActorSafety {
  import opened Actors

  /** Claims on actor `a` that a thread holds: as a worker between pop and
      release or between winning the claim again and queueing, as a sender
      between winning the claim and queueing. */
  function WorkHolds(w: Work, a: nat): nat {
    if (w.Taking? || w.Draining? || w.Releasing? || w.Choosing? || w.Requeuing?) && w.actor == a then 1 else 0
  }

  function SendHolds(x: Sending, a: nat): nat {
    if x.Won? && x.actor == a then 1 else 0
  }

  function Holds(t: Thread, a: nat): nat { WorkHolds(t.work, a) + SendHolds(t.send, a) }

  function Holders(ts: seq<Thread>, a: nat): nat {
    if |ts| == 0 then 0 else Holds(ts[0], a) + Holders(ts[1..], a)
  }

  function Count(xs: seq<nat>, a: nat): nat { multiset(xs)[a] }

  function Entries(ready: seq<seq<nat>>, a: nat): nat
    requires |ready| == 3
  {
    Count(ready[0], a) + Count(ready[1], a) + Count(ready[2], a)
  }

  /** Single-method invariant: a claimed actor is in one place, queued or with
      one thread; an unclaimed one is in none. */
  ghost predicate Single(s: State, a: nat)
    requires Shaped(s) && a < |s.actors|
  {
    Entries(s.ready, a) + Holders(s.threads, a) == if s.actors[a].claimed then 1 else 0
  }

  lemma {:induction false} HoldersUpdate(ts: seq<Thread>, i: nat, t: Thread, a: nat)
    requires i < |ts|
    ensures Holders(ts[i := t], a) == Holders(ts, a) - Holds(ts[i], a) + Holds(t, a)
  {
    if i == 0 {
      assert ts[0 := t][1..] == ts[1..];
    } else {
      assert ts[i := t][1..] == ts[1..][i - 1 := t];
      HoldersUpdate(ts[1..], i - 1, t, a);
    }
  }

  lemma {:induction false} HoldersAtLeast(ts: seq<Thread>, i: nat, a: nat)
    requires i < |ts|
    ensures Holders(ts, a) >= Holds(ts[i], a)
  {
    if i > 0 { HoldersAtLeast(ts[1..], i - 1, a); }
  }

  lemma {:induction false} TwoHolders(ts: seq<Thread>, i: nat, j: nat, a: nat)
    requires i < |ts| && j < |ts| && i != j
    ensures Holders(ts, a) >= Holds(ts[i], a) + Holds(ts[j], a)
  {
    if i == 0 { HoldersAtLeast(ts[1..], j - 1, a); }
    else if j == 0 { HoldersAtLeast(ts[1..], i - 1, a); }
    else { TwoHolders(ts[1..], i - 1, j - 1, a); }
  }

  lemma CountAppend(xs: seq<nat>, x: nat, a: nat)
    ensures Count(xs + [x], a) == Count(xs, a) + if x == a then 1 else 0
  {
  }

  lemma CountHead(xs: seq<nat>, a: nat)
    requires |xs| > 0
    ensures Count(xs[1..], a) == Count(xs, a) - if xs[0] == a then 1 else 0
  {
    assert xs == [xs[0]] + xs[1..];
  }

  lemma EntriesQueued(ready: seq<seq<nat>>, band: nat, x: nat, a: nat)
    requires |ready| == 3 && band < 3
    ensures Entries(Queued(ready, band, x), a) == Entries(ready, a) + if x == a then 1 else 0
  {
    CountAppend(ready[band], x, a);
  }

  lemma EntriesPopped(ready: seq<seq<nat>>, band: nat, a: nat)
    requires |ready| == 3 && band < 3 && ready[band] != []
    ensures Entries(ready[band := ready[band][1..]], a) == Entries(ready, a) - if ready[band][0] == a then 1 else 0
  {
    CountHead(ready[band], a);
  }

  /** A step moves claims, entries and holders of each actor together. */
  ghost predicate Balanced(s: State, c: Change, a: nat)
    requires Shaped(s) && c.t < |s.threads| && c.a < |s.actors| && |c.ready| == 3 && a < |s.actors|
  {
    var was := if s.actors[a].claimed then 1 else 0;
    var now := if (if a == c.a then c.actor else s.actors[a]).claimed then 1 else 0;
    Entries(c.ready, a) + Holds(c.thread, a) - Entries(s.ready, a) - Holds(s.threads[c.t], a) == now - was
  }

  lemma SendBalanced(s: State, x: Action, a: nat)
    requires Shaped(s) && (x.Push? || x.Claim? || x.Enqueue?) && SendStep(s, x).Some? && a < |s.actors|
    ensures Balanced(s, SendStep(s, x).value, a)
  {
    hide Entries;
    if x.Enqueue? {
      var p := s.threads[x.t].send;
      EntriesQueued(s.ready, p.band, p.actor, a);
    }
  }

  lemma TurnBalanced(h: Handler, s: State, x: Action, a: nat)
    requires Shaped(s) && (x.Pop? || x.Take? || x.Handle? || x.Advance? || x.Release?) && TurnStep(h, s, x).Some?
    requires a < |s.actors| && (x.Release? ==> s.actors[s.threads[x.t].work.actor].claimed)
    ensures Balanced(s, TurnStep(h, s, x).value, a)
  {
    hide Entries, Result;
    if x.Pop? { EntriesPopped(s.ready, FirstReady(s.ready).value, a); }
  }

  lemma ScanBalanced(s: State, x: Action, a: nat)
    requires Shaped(s) && (x.Look? || x.Reclaim? || x.Choose? || x.Requeue?) && ScanStep(s, x).Some? && a < |s.actors|
    ensures Balanced(s, ScanStep(s, x).value, a)
  {
    hide Entries;
    if x.Requeue? {
      var w := s.threads[x.t].work;
      EntriesQueued(s.ready, w.band, w.actor, a);
    }
  }

  ghost predicate AllSingle(s: State)
    requires Shaped(s)
  {
    forall a | 0 <= a < |s.actors| :: Single(s, a)
  }

  /** What a thread holds is claimed. */
  lemma HeldClaimed(s: State, t: nat, a: nat)
    requires Shaped(s) && AllSingle(s) && t < |s.threads| && a < |s.actors| && Holds(s.threads[t], a) > 0
    ensures s.actors[a].claimed && forall u | 0 <= u < |s.threads| && u != t :: Holds(s.threads[u], a) == 0
  {
    HoldersAtLeast(s.threads, t, a);
    assert Single(s, a);
    forall u | 0 <= u < |s.threads| && u != t ensures Holds(s.threads[u], a) == 0 { TwoHolders(s.threads, t, u, a); }
  }

  lemma SingleKept(h: Handler, s: State, x: Action)
    requires Shaped(s) && AllSingle(s) && Act(h, s, x).Some?
    ensures Shaped(Act(h, s, x).value) && AllSingle(Act(h, s, x).value)
  {
    ActShaped(h, s, x);
    if x.Exit? || x.Shutdown? { SingleStopping(h, s, x); }
    else {
      hide Step, AllSingle;
      SingleGoes(h, s, x);
    }
  }

  lemma SingleStopping(h: Handler, s: State, x: Action)
    requires Shaped(s) && AllSingle(s) && (x.Exit? || x.Shutdown?) && Act(h, s, x).Some? && Shaped(Act(h, s, x).value)
    ensures AllSingle(Act(h, s, x).value)
  {
    hide Entries;
    forall a | 0 <= a < |s.actors| ensures Single(Act(h, s, x).value, a) {
      assert Single(s, a);
      if x.Exit? { HoldersUpdate(s.threads, x.t, Thread(Exited, NotSending), a); }
    }
  }

  lemma SingleGoes(h: Handler, s: State, x: Action)
    requires Shaped(s) && AllSingle(s) && !x.Exit? && !x.Shutdown? && Step(h, s, x).Some? && Shaped(Apply(s, Step(h, s, x).value))
    ensures AllSingle(Apply(s, Step(h, s, x).value))
  {
    hide Step, Single, Balanced, ChangeShaped, Shaped;
    forall a | 0 <= a < |s.actors| ensures Single(Apply(s, Step(h, s, x).value), a) {
      assert Single(s, a);
      StepBalanced(h, s, x, a);
      SingleStep(s, Step(h, s, x).value, a);
    }
  }

  lemma SingleStep(s: State, c: Change, a: nat)
    requires Shaped(s) && c.t < |s.threads| && c.a < |s.actors| && ChangeShaped(s, c) && Shaped(Apply(s, c))
    requires a < |s.actors| && Single(s, a) && Balanced(s, c, a)
    ensures Single(Apply(s, c), a)
  {
    HoldersUpdate(s.threads, c.t, c.thread, a);
    hide Shaped, Entries, Holds;
  }

  lemma StepBalanced(h: Handler, s: State, x: Action, a: nat)
    requires Shaped(s) && AllSingle(s) && !x.Shutdown? && !x.Exit? && Step(h, s, x).Some? && a < |s.actors|
    ensures ChangeShaped(s, Step(h, s, x).value) && Balanced(s, Step(h, s, x).value, a)
  {
    StepShaped(h, s, x);
    if x.Release? {
      assert s.threads[x.t].work.Releasing?;
      HeldClaimed(s, x.t, s.threads[x.t].work.actor);
    }
    hide SendStep, ScanStep, TurnStep, ChangeShaped, Balanced, Shaped, AllSingle;
    if x.Push? || x.Claim? || x.Enqueue? { SendBalanced(s, x, a); }
    else if x.Look? || x.Reclaim? || x.Choose? || x.Requeue? { ScanBalanced(s, x, a); }
    else { TurnBalanced(h, s, x, a); }
  }

  /** Someone will see that actor `a` has a message on `band`: a sender that
      pushed and has not tried the claim, or a worker that dropped the claim
      and has not passed that band. */
  predicate Witness(t: Thread, a: nat, band: nat) {
    || (t.send.Pushed? && t.send.actor == a)
    || (t.work.Scanning? && t.work.actor == a && t.work.band <= band)
    || (t.work.Found? && t.work.actor == a)
  }

  ghost predicate NotLost(s: State, a: nat, band: nat)
    requires Shaped(s) && a < |s.actors| && band < 3
  {
    s.actors[a].mail[band] != [] && !s.actors[a].claimed ==> exists t :: 0 <= t < |s.threads| && Witness(s.threads[t], a, band)
  }

  ghost predicate NoneLost(s: State)
    requires Shaped(s)
  {
    forall a, band | 0 <= a < |s.actors| && 0 <= band < 3 :: NotLost(s, a, band)
  }

  /** A step by `c.t` leaves a witness where one is needed. */
  ghost predicate Watches(s: State, c: Change, a: nat, band: nat)
    requires Shaped(s) && c.t < |s.threads| && c.a < |s.actors| && |c.actor.mail| == 3 && a < |s.actors| && band < 3
  {
    var actor := if a == c.a then c.actor else s.actors[a];
    actor.mail[band] != [] && !actor.claimed ==>
      Witness(c.thread, a, band) ||
      (s.actors[a].mail[band] != [] && !s.actors[a].claimed && !Witness(s.threads[c.t], a, band))
  }

  lemma SendWatches(s: State, x: Action, a: nat, band: nat)
    requires Shaped(s) && (x.Push? || x.Claim? || x.Enqueue?) && SendStep(s, x).Some? && a < |s.actors| && band < 3
    ensures Watches(s, SendStep(s, x).value, a, band)
  {
  }

  lemma TurnWatches(h: Handler, s: State, x: Action, a: nat, band: nat)
    requires Shaped(s) && (x.Pop? || x.Take? || x.Handle? || x.Advance? || x.Release?) && TurnStep(h, s, x).Some?
    requires a < |s.actors| && band < 3
    ensures Watches(s, TurnStep(h, s, x).value, a, band)
  {
  }

  lemma ScanWatches(s: State, x: Action, a: nat, band: nat)
    requires Shaped(s) && (x.Look? || x.Reclaim? || x.Choose? || x.Requeue?) && ScanStep(s, x).Some? && a < |s.actors| && band < 3
    ensures Watches(s, ScanStep(s, x).value, a, band)
  {
  }

  lemma StepWatches(h: Handler, s: State, x: Action, a: nat, band: nat)
    requires Shaped(s) && !x.Shutdown? && !x.Exit? && Step(h, s, x).Some? && a < |s.actors| && band < 3
    ensures ChangeShaped(s, Step(h, s, x).value) && Watches(s, Step(h, s, x).value, a, band)
  {
    StepShaped(h, s, x);
    hide SendStep, ScanStep, TurnStep, ChangeShaped, Watches, Shaped;
    if x.Push? || x.Claim? || x.Enqueue? { SendWatches(s, x, a, band); }
    else if x.Look? || x.Reclaim? || x.Choose? || x.Requeue? { ScanWatches(s, x, a, band); }
    else { TurnWatches(h, s, x, a, band); }
  }

  lemma NoneLostKept(h: Handler, s: State, x: Action)
    requires Shaped(s) && NoneLost(s) && Act(h, s, x).Some?
    ensures Shaped(Act(h, s, x).value) && NoneLost(Act(h, s, x).value)
  {
    ActShaped(h, s, x);
    var s1 := Act(h, s, x).value;
    if x.Shutdown? || x.Exit? {
      var t0 := if x.Exit? then x.t else 0;
      hide FirstReady;
      forall a, band | 0 <= a < |s.actors| && 0 <= band < 3 ensures NotLost(s1, a, band) {
        assert NotLost(s, a, band);
        if s1.actors[a].mail[band] != [] && !s1.actors[a].claimed {
          var t :| 0 <= t < |s.threads| && Witness(s.threads[t], a, band);
          assert Witness(s1.threads[t], a, band);
        }
      }
    } else {
      forall a, band | 0 <= a < |s.actors| && 0 <= band < 3 ensures NotLost(s1, a, band) {
        assert NotLost(s, a, band);
        StepWatches(h, s, x, a, band);
        NotLostStep(s, Step(h, s, x).value, a, band);
      }
    }
  }

  lemma NotLostStep(s: State, c: Change, a: nat, band: nat)
    requires Shaped(s) && c.t < |s.threads| && c.a < |s.actors| && ChangeShaped(s, c) && Shaped(Apply(s, c))
    requires a < |s.actors| && band < 3 && NotLost(s, a, band) && Watches(s, c, a, band)
    ensures NotLost(Apply(s, c), a, band)
  {
    var s1 := Apply(s, c);
    assert |s1.actors[a].mail| == 3;
    hide Shaped, ChangeShaped;
    if s1.actors[a].mail[band] != [] && !s1.actors[a].claimed {
      if Witness(c.thread, a, band) {
        assert Witness(s1.threads[c.t], a, band);
      } else {
        var t :| 0 <= t < |s.threads| && Witness(s.threads[t], a, band);
        assert Witness(s1.threads[t], a, band);
      }
    }
  }

  /** Nothing is going on: no send under way, no worker at work, nothing queued. */
  predicate Quiescent(s: State)
    requires |s.ready| == 3
  {
    && (forall t | 0 <= t < |s.threads| ::
          s.threads[t].send == NotSending && (s.threads[t].work.Outside? || s.threads[t].work.Idle? || s.threads[t].work.Exited?))
    && s.ready[0] == [] && s.ready[1] == [] && s.ready[2] == []
  }

  lemma {:induction false} NoHolders(ts: seq<Thread>, a: nat)
    requires forall t | 0 <= t < |ts| :: Holds(ts[t], a) == 0
    ensures Holders(ts, a) == 0
  {
    if |ts| > 0 { NoHolders(ts[1..], a); }
  }

  /** When nothing is going on, every mailbox is empty and nothing is claimed. */
  lemma QuiescentEmpty(s: State)
    requires Shaped(s) && AllSingle(s) && NoneLost(s) && Quiescent(s)
    ensures forall a, band | 0 <= a < |s.actors| && 0 <= band < 3 :: s.actors[a].mail[band] == []
    ensures forall a | 0 <= a < |s.actors| :: !s.actors[a].claimed
  {
    forall a | 0 <= a < |s.actors|
      ensures !s.actors[a].claimed && forall band | 0 <= band < 3 :: s.actors[a].mail[band] == []
    {
      NoHolders(s.threads, a);
      assert Single(s, a);
      forall band | 0 <= band < 3 ensures s.actors[a].mail[band] == [] { assert NotLost(s, a, band); }
    }
  }

  /** The messages of `band` in a log, in order. */
  function OfBand(log: seq<(nat, Msg)>, band: nat): seq<Msg> {
    if |log| == 0 then []
    else OfBand(log[..|log| - 1], band) + if log[|log| - 1].0 == band then [log[|log| - 1].1] else []
  }

  /** What a turn has taken from `band` of `a` and not handled. */
  function Rest(w: Work, a: nat, band: nat): seq<Msg> {
    match w
    case Taking(x, batches, _) => if x == a && band < |batches| then batches[band] else []
    case Draining(x, batches, b, at, _) =>
      if x != a || band < b || band >= |batches| then []
      else if band == b then (if at <= |batches[b]| then batches[b][at..] else [])
      else batches[band]
    case _ => []
  }

  function AllRest(ts: seq<Thread>, a: nat, band: nat): seq<Msg> {
    if |ts| == 0 then [] else Rest(ts[0].work, a, band) + AllRest(ts[1..], a, band)
  }

  lemma {:induction false} OneRest(ts: seq<Thread>, i: nat, a: nat, band: nat)
    requires i < |ts| && forall u | 0 <= u < |ts| && u != i :: Holds(ts[u], a) == 0
    ensures AllRest(ts, a, band) == Rest(ts[i].work, a, band)
  {
    if i == 0 {
      NoRest(ts[1..], a, band);
    } else {
      assert Holds(ts[0], a) == 0;
      OneRest(ts[1..], i - 1, a, band);
    }
  }

  lemma {:induction false} NoRest(ts: seq<Thread>, a: nat, band: nat)
    requires forall u | 0 <= u < |ts| :: Holds(ts[u], a) == 0
    ensures AllRest(ts, a, band) == []
  {
    if |ts| > 0 {
      assert Holds(ts[0], a) == 0;
      NoRest(ts[1..], a, band);
    }
  }

  lemma {:induction false} SameRest(ts: seq<Thread>, i: nat, t: Thread, a: nat, band: nat)
    requires i < |ts| && Rest(t.work, a, band) == Rest(ts[i].work, a, band)
    ensures AllRest(ts[i := t], a, band) == AllRest(ts, a, band)
  {
    if i == 0 {
      assert ts[0 := t][1..] == ts[1..];
    } else {
      assert ts[i := t][1..] == ts[1..][i - 1 := t];
      SameRest(ts[1..], i - 1, t, a, band);
    }
  }

  /** Every message pushed on a band has been handled, is in the turn's batch,
      or is in the mailbox: in that order, each once. */
  ghost predicate Conserved(s: State, a: nat, band: nat)
    requires Shaped(s) && a < |s.actors| && band < 3
  {
    s.actors[a].pushed[band] == OfBand(s.actors[a].log, band) + AllRest(s.threads, a, band) + s.actors[a].mail[band]
  }

  ghost predicate AllConserved(s: State)
    requires Shaped(s)
  {
    forall a, band | 0 <= a < |s.actors| && 0 <= band < 3 :: Conserved(s, a, band)
  }

  /** What one step does to the account of a band, given what its thread's turn
      held and holds. */
  ghost predicate Accounts(s: State, c: Change, a: nat, band: nat)
    requires Shaped(s) && c.t < |s.threads| && c.a < |s.actors| && |c.actor.mail| == 3 && |c.actor.pushed| == 3 && a < |s.actors| && band < 3
  {
    var was, now := Rest(s.threads[c.t].work, a, band), Rest(c.thread.work, a, band);
    var was0, now0 := s.actors[a], if a == c.a then c.actor else s.actors[a];
    && (was == now || Holds(s.threads[c.t], a) > 0)
    && (was0.pushed[band] == OfBand(was0.log, band) + was + was0.mail[band] ==> now0.pushed[band] == OfBand(now0.log, band) + now + now0.mail[band])
    && (was == now && Holds(s.threads[c.t], a) == 0 ==>
          OfBand(now0.log, band) == OfBand(was0.log, band) &&
          exists m: seq<Msg> :: now0.mail[band] == was0.mail[band] + m && now0.pushed[band] == was0.pushed[band] + m)
  }

  lemma LogOne(log: seq<(nat, Msg)>, b: nat, m: Msg, band: nat)
    ensures OfBand(log + [(b, m)], band) == OfBand(log, band) + if b == band then [m] else []
  {
    assert (log + [(b, m)])[..|log|] == log;
  }

  lemma SendAccounts(s: State, x: Action, a: nat, band: nat)
    requires Shaped(s) && (x.Push? || x.Claim? || x.Enqueue?) && SendStep(s, x).Some? && a < |s.actors| && band < 3
    ensures ChangeShaped(s, SendStep(s, x).value) && Accounts(s, SendStep(s, x).value, a, band)
  {
    SendShaped(s, x);
    hide OfBand;
    var c := SendStep(s, x).value;
    var was0, now0 := s.actors[a], if a == c.a then c.actor else s.actors[a];
    var m := if x.Push? && a == c.a && x.band == band then [x.msg] else [];
    assert now0.mail[band] == was0.mail[band] + m && now0.pushed[band] == was0.pushed[band] + m;
  }

  lemma TurnAccounts(h: Handler, s: State, x: Action, a: nat, band: nat)
    requires Shaped(s) && (x.Pop? || x.Take? || x.Handle? || x.Advance? || x.Release?) && TurnStep(h, s, x).Some?
    requires a < |s.actors| && band < 3
    ensures ChangeShaped(s, TurnStep(h, s, x).value) && Accounts(s, TurnStep(h, s, x).value, a, band)
  {
    TurnShaped(h, s, x);
    if x.Handle? { HandleAccounts(h, s, x, a, band); return; }
    hide OfBand;
    var c := TurnStep(h, s, x).value;
    var was0, now0 := s.actors[a], if a == c.a then c.actor else s.actors[a];
    if Holds(s.threads[c.t], a) == 0 || x.Pop? {
      assert now0.mail[band] == was0.mail[band] + [] && now0.pushed[band] == was0.pushed[band] + [];
    }
  }

  lemma HandleAccounts(h: Handler, s: State, x: Action, a: nat, band: nat)
    requires Shaped(s) && x.Handle? && TurnStep(h, s, x).Some? && a < |s.actors| && band < 3
    ensures ChangeShaped(s, TurnStep(h, s, x).value) && Accounts(s, TurnStep(h, s, x).value, a, band)
  {
    TurnShaped(h, s, x);
    var c := TurnStep(h, s, x).value;
    var w := s.threads[x.t].work;
    var was0, now0 := s.actors[a], if a == c.a then c.actor else s.actors[a];
    LogOne(s.actors[w.actor].log, w.band, w.batches[w.band][w.at], band);
    hide OfBand, Result;
    assert w.batches[w.band][w.at..] == [w.batches[w.band][w.at]] + w.batches[w.band][w.at + 1..];
    if a != w.actor {
      assert now0.mail[band] == was0.mail[band] + [] && now0.pushed[band] == was0.pushed[band] + [];
    }
  }

  lemma ScanAccounts(s: State, x: Action, a: nat, band: nat)
    requires Shaped(s) && (x.Look? || x.Reclaim? || x.Choose? || x.Requeue?) && ScanStep(s, x).Some? && a < |s.actors| && band < 3
    ensures ChangeShaped(s, ScanStep(s, x).value) && Accounts(s, ScanStep(s, x).value, a, band)
  {
    ScanShaped(s, x);
    hide OfBand;
    var c := ScanStep(s, x).value;
    var was0, now0 := s.actors[a], if a == c.a then c.actor else s.actors[a];
    assert now0.mail[band] == was0.mail[band] + [] && now0.pushed[band] == was0.pushed[band] + [];
  }

  lemma StepAccounts(h: Handler, s: State, x: Action, a: nat, band: nat)
    requires Shaped(s) && !x.Shutdown? && !x.Exit? && Step(h, s, x).Some? && a < |s.actors| && band < 3
    ensures ChangeShaped(s, Step(h, s, x).value) && Accounts(s, Step(h, s, x).value, a, band)
  {
    hide SendStep, ScanStep, TurnStep, ChangeShaped, Accounts, Shaped;
    if x.Push? || x.Claim? || x.Enqueue? { SendAccounts(s, x, a, band); }
    else if x.Look? || x.Reclaim? || x.Choose? || x.Requeue? { ScanAccounts(s, x, a, band); }
    else { TurnAccounts(h, s, x, a, band); }
  }

  lemma ConservedKept(h: Handler, s: State, x: Action)
    requires Shaped(s) && AllSingle(s) && AllConserved(s) && Act(h, s, x).Some?
    ensures Shaped(Act(h, s, x).value) && AllConserved(Act(h, s, x).value)
  {
    ActShaped(h, s, x);
    SingleKept(h, s, x);
    var s1 := Act(h, s, x).value;
    forall a, band | 0 <= a < |s.actors| && 0 <= band < 3 ensures Conserved(s1, a, band) {
      assert Conserved(s, a, band);
      if x.Exit? {
        SameRest(s.threads, x.t, Thread(Exited, NotSending), a, band);
      } else if !x.Shutdown? {
        StepAccounts(h, s, x, a, band);
        ConservedStep(s, Step(h, s, x).value, a, band);
      }
      hide Step;
    }
  }

  lemma ConservedStep(s: State, c: Change, a: nat, band: nat)
    requires Shaped(s) && AllSingle(s) && c.t < |s.threads| && c.a < |s.actors| && ChangeShaped(s, c)
    requires a < |s.actors| && band < 3 && Conserved(s, a, band) && Accounts(s, c, a, band)
    requires Shaped(Apply(s, c))
    ensures Conserved(Apply(s, c), a, band)
  {
    hide OfBand;
    var s1 := Apply(s, c);
    if Holds(s.threads[c.t], a) > 0 {
      HeldClaimed(s, c.t, a);
      OneRest(s.threads, c.t, a, band);
      forall u | 0 <= u < |s1.threads| && u != c.t ensures Holds(s1.threads[u], a) == 0 { assert s1.threads[u] == s.threads[u]; }
      OneRest(s1.threads, c.t, a, band);
    } else {
      SameRest(s.threads, c.t, c.thread, a, band);
    }
  }
}
