/** Request coalescing (src/proxy/singleflight.rs) as a transition system.

    `resolve` and `fail` send first and drop the guard afterwards; a drop takes the key
    out of the map, then sends a failure if nothing was sent, and then lets go of the
    sender. A watch channel keeps its last value, refuses a send nobody can receive, and
    the map itself holds one receiver per key. */
module SingleFlight {
  import opened Prelude

  datatype Outcome = Fetched(meta: nat) | Failure(message: nat)

  /** "fetch abandoned by leader". */
  const ABANDONED: Outcome := Failure(0)

  /** How far the leader's guard has got. */
  datatype Guard = Live | Sent | Removed(resolved: bool) | Closed

  /** A channel: its value, `None` while pending, and how often it was sent. `decided` is
      history: the outcome the leader settled on. */
  datatype Flight = Flight(key: string, value: Option<Outcome>, version: nat, guard: Guard, decided: Option<Outcome>)

  /** Where a follower is in `wait`. */
  datatype Wait = Poll | Await | Got(outcome: Outcome) | Vanished

  datatype Follower = Follower(flight: nat, seen: nat, wait: Wait)

  datatype System = System(inFlight: map<string, nat>, flights: map<nat, Flight>, followers: map<nat, Follower>)

  const IDLE: System := System(map[], map[], map[])

  datatype Step =
    | Begin(caller: nat, key: string)
    | Send(flight: nat, outcome: Outcome)
    | Remove(flight: nat)
    | Close(flight: nat)
    | PollValue(follower: nat)
    | Changed(follower: nat)
    | Leave(follower: nat)

  /** A follower holds its receiver until `wait` returns. */
  predicate Listens(w: Follower, flight: nat) {
    w.flight == flight && (w.wait.Poll? || w.wait.Await?)
  }

  ghost predicate HasReceiver(s: System, flight: nat)
    requires flight in s.flights
  {
    || (s.flights[flight].key in s.inFlight && s.inFlight[s.flights[flight].key] == flight)
    || exists w :: w in s.followers && Listens(s.followers[w], flight)
  }

  /** `watch::Sender::send`: stored only if someone can receive it. */
  ghost function AfterSend(s: System, flight: nat, outcome: Outcome): Flight
    requires flight in s.flights
  {
    var f := s.flights[flight];
    if HasReceiver(s, flight) then f.(value := Some(outcome), version := f.version + 1) else f
  }

  predicate Enabled(s: System, step: Step) {
    match step
    case Begin(caller, _) => caller !in s.flights && caller !in s.followers
    case Send(f, _) => f in s.flights && s.flights[f].guard.Live?
    case Remove(f) => f in s.flights && (s.flights[f].guard.Live? || s.flights[f].guard.Sent?)
    case Close(f) => f in s.flights && s.flights[f].guard.Removed?
    case PollValue(w) => w in s.followers && s.followers[w].wait.Poll? && s.followers[w].flight in s.flights
    case Changed(w) =>
      && w in s.followers && s.followers[w].wait.Await? && s.followers[w].flight in s.flights
      && var f := s.flights[s.followers[w].flight];
         f.version != s.followers[w].seen || f.guard.Closed?
    case Leave(w) => w in s.followers
  }

  ghost function Apply(s: System, step: Step): System
    requires Enabled(s, step)
  {
    match step
    case Begin(caller, key) =>
      if key in s.inFlight then
        s.(followers := s.followers[caller := Follower(s.inFlight[key], 0, Poll)])
      else
        s.(inFlight := s.inFlight[key := caller], flights := s.flights[caller := Flight(key, None, 0, Live, None)])
    case Send(f, outcome) =>
      s.(flights := s.flights[f := AfterSend(s, f, outcome).(guard := Sent, decided := Some(outcome))])
    case Remove(f) =>
      var x := s.flights[f];
      s.(inFlight := s.inFlight - {x.key},
         flights := s.flights[f := x.(guard := Removed(x.guard.Sent?), decided := if x.guard.Sent? then x.decided
           else Some(ABANDONED))])
    case Close(f) =>
      var x := if s.flights[f].guard.resolved then s.flights[f] else AfterSend(s, f, ABANDONED);
      s.(flights := s.flights[f := x.(guard := Closed)])
    case PollValue(w) =>
      var x := s.followers[w];
      var f := s.flights[x.flight];
      s.(followers := s.followers[w := if f.value.Some? then x.(wait := Got(f.value.value))
        else x.(seen := f.version, wait := Await)])
    case Changed(w) =>
      var x := s.followers[w];
      var f := s.flights[x.flight];
      s.(followers := s.followers[w :=
        if f.version != x.seen then x.(seen := f.version, wait := Poll)
        else if f.value.Some? then x.(wait := Got(f.value.value))
        else x.(wait := Vanished)])
    case Leave(w) => s.(followers := s.followers - {w})
  }

  ghost predicate IsRun(states: seq<System>, steps: seq<Step>) {
    && |states| == |steps| + 1 && states[0] == IDLE
    && forall n :: 0 <= n < |steps| ==> Enabled(states[n], steps[n]) && states[n + 1] == Apply(states[n], steps[n])
  }

  // ----- The invariant -----

  predicate Holds(s: System, f: nat)
    requires f in s.flights
  {
    s.flights[f].key in s.inFlight && s.inFlight[s.flights[f].key] == f
  }

  /** What a flight is like at each stage of its guard. */
  predicate FlightOk(x: Flight, held: bool) {
    match x.guard
    case Live => held && x.value == None && x.version == 0 && x.decided == None
    case Sent => held && x.decided.Some? && x.value == x.decided && x.version == 1
    case Removed(resolved) =>
      !held && x.decided.Some? && if resolved then x.value == x.decided && x.version == 1
                                  else x.value == None && x.version == 0 && x.decided == Some(ABANDONED)
    case Closed => !held && x.decided.Some? && if x.value.Some? then x.value == x.decided && x.version == 1
      else x.version == 0
  }

  /** A follower listens to an open flight, or to a closed one that left its outcome; what
      it got is what its leader decided. */
  predicate FollowerOk(w: Follower, x: Flight) {
    match w.wait
    case Poll => w.seen <= x.version && (x.guard.Closed? ==> x.value.Some?)
    case Await => w.seen == 0 && (x.guard.Closed? ==> x.value.Some?)
    case Got(outcome) => x.decided == Some(outcome)
    case Vanished => false
  }

  ghost predicate Inv(s: System) {
    && (forall f :: f in s.flights ==> FlightOk(s.flights[f], Holds(s, f)))
    && (forall w :: w in s.followers ==>
          s.followers[w].flight in s.flights &&
          FollowerOk(s.followers[w], s.flights[s.followers[w].flight]))
    && (forall k :: k in s.inFlight ==> s.inFlight[k] in s.flights && s.flights[s.inFlight[k]].key == k)
  }

  lemma GuardStepKeeps(s: System, step: Step)
    requires Inv(s) && Enabled(s, step) && (step.Begin? || step.Send? || step.Remove? || step.Close?)
    ensures Inv(Apply(s, step))
  {
    match step
    case Begin(_, _) => BeginKeeps(s, step);
    case Send(f, outcome) => SendKeeps(s, f, outcome);
    case Remove(f) => RemoveKeeps(s, f);
    case Close(f) => CloseKeeps(s, f);
  }

  lemma BeginKeeps(s: System, step: Step)
    requires Inv(s) && Enabled(s, step) && step.Begin?
    ensures Inv(Apply(s, step))
  {
  }

  lemma SendKeeps(s: System, f: nat, outcome: Outcome)
    requires Inv(s) && Enabled(s, Send(f, outcome))
    ensures Inv(Apply(s, Send(f, outcome)))
  {
  }

  lemma RemoveKeeps(s: System, f: nat)
    requires Inv(s) && Enabled(s, Remove(f))
    ensures Inv(Apply(s, Remove(f)))
  {
  }

  lemma CloseKeeps(s: System, f: nat)
    requires Inv(s) && Enabled(s, Close(f))
    ensures Inv(Apply(s, Close(f)))
  {
  }

  lemma FollowerStepKeeps(s: System, step: Step)
    requires Inv(s) && Enabled(s, step) && (step.PollValue? || step.Changed? || step.Leave?)
    ensures Inv(Apply(s, step))
  {
  }

  lemma {:induction false} RunKeeps(states: seq<System>, steps: seq<Step>, n: nat)
    requires IsRun(states, steps) && n < |states|
    ensures Inv(states[n])
    decreases n
  {
    if n > 0 {
      RunKeeps(states, steps, n - 1);
      var step := steps[n - 1];
      if step.PollValue? || step.Changed? || step.Leave? {
        FollowerStepKeeps(states[n - 1], step);
      } else {
        GuardStepKeeps(states[n - 1], step);
      }
    }
  }

  // ----- Every run -----

  /** The guard is alive until its drop takes the key out of the map. */
  predicate Alive(x: Flight) {
    x.guard.Live? || x.guard.Sent?
  }

  /** `f` leads the fetch of `key`. */
  predicate Leads(s: System, f: nat, key: string) {
    f in s.flights && s.flights[f].key == key && Alive(s.flights[f])
  }

  /** A key is in the map exactly while a guard for it is alive, and only one ever is. */
  lemma OneLeaderPerKey(states: seq<System>, steps: seq<Step>, n: nat, key: string)
    requires IsRun(states, steps) && n < |states|
    ensures var s := states[n];
            && (key in s.inFlight <==> exists f :: Leads(s, f, key))
            && (forall f, g :: Leads(s, f, key) && Leads(s, g, key) ==> f == g)
  {
    RunKeeps(states, steps, n);
    var s := states[n];
    if key in s.inFlight {
      var f := s.inFlight[key];
      assert FlightOk(s.flights[f], Holds(s, f));
      assert Leads(s, f, key);
    }
    forall f | Leads(s, f, key) ensures Holds(s, f) {
      assert FlightOk(s.flights[f], Holds(s, f));
    }
  }

  /** Nothing was sent on `f` in the first `n` steps. */
  ghost predicate NothingSent(steps: seq<Step>, n: nat, f: nat)
    requires n <= |steps|
  {
    forall k :: 0 <= k < n ==> !(steps[k].Send? && steps[k].flight == f)
  }

  /** What the first `n` steps come to for `f`: what was sent on it, once, or the
      abandonment failure if it was dropped without a send. */
  ghost predicate Settles(steps: seq<Step>, n: nat, f: nat, o: Outcome)
    requires n <= |steps|
  {
    || (exists k :: 0 <= k < n && steps[k] == Send(f, o))
    || (NothingSent(steps, n, f) && Remove(f) in steps[..n] && o == Failure(0))
  }

  /** Before it is settled nothing was sent on a flight; the outcome it settled on is the
      one the steps say. */
  ghost predicate ToldBySteps(steps: seq<Step>, n: nat, f: nat, s: System)
    requires n <= |steps|
  {
    if f !in s.flights || s.flights[f].guard.Live? then NothingSent(steps, n, f)
    else s.flights[f].decided.Some? && Settles(steps, n, f, s.flights[f].decided.value)
  }

  lemma StillSettles(steps: seq<Step>, n: nat, f: nat, o: Outcome)
    requires n < |steps| && Settles(steps, n, f, o) && !(steps[n].Send? && steps[n].flight == f)
    ensures Settles(steps, n + 1, f, o)
  {
    assert steps[..n + 1] == steps[..n] + [steps[n]];
  }

  lemma StepTells(steps: seq<Step>, n: nat, f: nat, s: System)
    requires n < |steps| && Inv(s) && Enabled(s, steps[n]) && ToldBySteps(steps, n, f, s)
    ensures ToldBySteps(steps, n + 1, f, Apply(s, steps[n]))
  {
    var step, t := steps[n], Apply(s, steps[n]);
    if f in s.flights && !s.flights[f].guard.Live? {
      DecidedStays(s, step, f);
      StillSettles(steps, n, f, s.flights[f].decided.value);
    } else if step == Remove(f) {
      assert steps[..n + 1][n] == step;
    } else if step.Send? && step.flight == f {
      assert steps[n] == Send(f, step.outcome);
    }
  }

  lemma {:induction false} RunTells(states: seq<System>, steps: seq<Step>, n: nat, f: nat)
    requires IsRun(states, steps) && n < |states|
    ensures ToldBySteps(steps, n, f, states[n])
  {
    if n > 0 {
      RunTells(states, steps, n - 1, f);
      RunKeeps(states, steps, n - 1);
      StepTells(steps, n - 1, f, states[n - 1]);
    }
  }

  /** Whatever a follower got is what its leader sent, or the abandonment failure if the
      leader was dropped without a send; none finds the leader vanished. */
  lemma FollowersGetTheOutcome(states: seq<System>, steps: seq<Step>, n: nat, w: nat)
    requires IsRun(states, steps) && n < |states| && w in states[n].followers
    ensures var x := states[n].followers[w];
            && x.flight in states[n].flights && !x.wait.Vanished?
            && (forall o :: x.wait == Got(o) ==>
                  || (exists k :: 0 <= k < n && steps[k] == Send(x.flight, o))
                  || (&& (forall k :: 0 <= k < n ==> !(steps[k].Send? && steps[k].flight == x.flight))
                      && Remove(x.flight) in steps[..n] && o == Failure(0)))
  {
    RunKeeps(states, steps, n);
    RunTells(states, steps, n, states[n].followers[w].flight);
  }

  /** A leader sends once at most. */
  lemma SentOnce(states: seq<System>, steps: seq<Step>, m: nat, n: nat, f: nat)
    requires IsRun(states, steps) && m < |steps| && n < |steps|
    requires steps[m].Send? && steps[n].Send? && steps[m].flight == steps[n].flight == f
    ensures m == n
  {
    RunTells(states, steps, m, f);
    RunTells(states, steps, n, f);
  }

  lemma DecidedStays(s: System, step: Step, f: nat)
    requires Inv(s) && Enabled(s, step) && f in s.flights && s.flights[f].decided.Some?
    ensures f in Apply(s, step).flights && Apply(s, step).flights[f].decided == s.flights[f].decided
  {
  }

  /** A leader settles on one outcome for good, so all its followers get the same one. */
  lemma {:induction false} OneOutcome(states: seq<System>, steps: seq<Step>, m: nat, n: nat, f: nat)
    requires IsRun(states, steps) && m <= n < |states| && f in states[m].flights && states[m].flights[f].decided.Some?
    ensures f in states[n].flights && states[n].flights[f].decided == states[m].flights[f].decided
    decreases n
  {
    if m < n {
      OneOutcome(states, steps, m, n - 1, f);
      RunKeeps(states, steps, n - 1);
      DecidedStays(states[n - 1], steps[n - 1], f);
    }
  }

  /** Two followers of one flight, looked at whenever, never got two different outcomes. */
  lemma AllGetTheSame(states: seq<System>, steps: seq<Step>, m: nat, n: nat, v: nat, w: nat)
    requires IsRun(states, steps) && m <= n < |states| && v in states[m].followers && w in states[n].followers
    requires states[m].followers[v].wait.Got? && states[n].followers[w].wait.Got?
    requires states[m].followers[v].flight == states[n].followers[w].flight
    ensures states[m].followers[v].wait == states[n].followers[w].wait
  {
    RunKeeps(states, steps, m);
    RunKeeps(states, steps, n);
    OneOutcome(states, steps, m, n, states[m].followers[v].flight);
  }

  /** The next poll of `w` returns `outcome`. */
  ghost predicate Delivers(s: System, w: nat, outcome: Option<Outcome>) {
    Enabled(s, PollValue(w)) && outcome.Some? && Apply(s, PollValue(w)).followers[w].wait == Got(outcome.value)
  }

  /** Once the sender is gone no follower is left parked: polling gives the outcome at once,
      and one that waits is woken and has it after one poll more. */
  lemma NoneIsParked(states: seq<System>, steps: seq<Step>, n: nat, w: nat)
    requires IsRun(states, steps) && n < |states| && w in states[n].followers
    requires states[n].followers[w].flight in states[n].flights &&
             states[n].flights[states[n].followers[w].flight].guard.Closed?
    ensures var s := states[n];
            var outcome := s.flights[s.followers[w].flight].decided;
            && outcome.Some? && Settles(steps, n, s.followers[w].flight, outcome.value)
            && (s.followers[w].wait.Poll? ==> Delivers(s, w, outcome))
            && (s.followers[w].wait.Await? ==> Enabled(s, Changed(w)) && Delivers(Apply(s, Changed(w)), w, outcome))
  {
    RunKeeps(states, steps, n);
    RunTells(states, steps, n, states[n].followers[w].flight);
  }

  /** Followers are notified after the key is released only by a guard dropped unresolved.
      `resolve` and `fail` notify first: a request woken by them may join the settled
      flight again instead of starting a new one. */
  lemma ReleasedBeforeNotifiedIff(states: seq<System>, steps: seq<Step>, n: nat, f: nat)
    requires IsRun(states, steps) && n < |steps| && f in states[n].flights && f in states[n + 1].flights
    requires states[n].flights[f].value == None && states[n + 1].flights[f].value.Some?
    ensures !Holds(states[n + 1], f) <==> steps[n] == Close(f)
    ensures steps[n] != Close(f) ==> steps[n].Send? && steps[n].flight == f
  {
    RunKeeps(states, steps, n);
    RunKeeps(states, steps, n + 1);
  }

  /** That rejoining: a caller who begins between the send and the drop follows the settled
      flight and gets its outcome again. */
  lemma WokenCallerRejoins(states: seq<System>, steps: seq<Step>, n: nat, f: nat, caller: nat)
    requires IsRun(states, steps) && n < |states| && f in states[n].flights && states[n].flights[f].guard.Sent?
    requires caller !in states[n].flights && caller !in states[n].followers
    ensures var step := Begin(caller, states[n].flights[f].key);
            var t := Apply(states[n], step);
            caller in t.followers && t.followers[caller].flight == f &&
              Delivers(t, caller, states[n].flights[f].decided)
  {
    RunKeeps(states, steps, n);
    assert FlightOk(states[n].flights[f], Holds(states[n], f));
  }
}
