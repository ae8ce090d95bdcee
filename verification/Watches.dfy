/** The clients that follow an operation, and when it counts as abandoned (`Watch` and
    `unwatched_for` of src/execution/state_machine.rs, `AtomicInstant` of src/types.rs).

    Dropping a watch takes the client off the counter and, if it was the last, reads the clock
    and then stores the reading. A look loads the counter, loads the instant stored and then
    reads the clock. Anything can happen in between. */
module Watches {
  import opened Prelude

  datatype Client = Following | Left(at: nat)

  /** A clock reading; history: how many clients had left when it was taken. */
  datatype Reading = Reading(at: nat, leaves: nat)

  datatype Watching = Watching(
    watchers: nat,
    /** The instant stored. */
    since: Reading,
    /** Drops that took the last client off and have not read the clock, and the readings
        taken and not yet stored. */
    toRead: nat,
    toStore: seq<Reading>,
    /** History: when the operation was created, its clients, how many have left, and the
        last clock reading of all. */
    created: nat,
    clients: seq<Client>,
    leaves: nat,
    clock: nat)

  datatype Step = Follow(now: nat) | Leave(client: nat, now: nat) | Read(now: nat) | Store(drop: nat, now: nat)

  function Created(now: nat): Watching {
    Watching(0, Reading(now, 0), 0, [], now, [], 0, now)
  }

  predicate Enabled(s: Watching, step: Step) {
    && s.clock <= step.now
    && match step
       case Follow(_) => true
       case Leave(i, _) => i < |s.clients| && s.clients[i].Following? && s.watchers > 0
       case Read(_) => s.toRead > 0
       case Store(i, _) => i < |s.toStore|
  }

  function Cut<T>(s: seq<T>, i: nat): seq<T>
    requires i < |s|
  {
    s[..i] + s[i + 1..]
  }

  function Apply(s: Watching, step: Step): Watching
    requires Enabled(s, step)
  {
    match step
    case Follow(now) => s.(watchers := s.watchers + 1, clients := s.clients + [Following], clock := now)
    case Leave(i, now) =>
      s.(watchers := s.watchers - 1, toRead := s.toRead + One(s.watchers == 1),
         clients := s.clients[i := Left(now)], leaves := s.leaves + 1, clock := now)
    case Read(now) => s.(toRead := s.toRead - 1, toStore := s.toStore + [Reading(now, s.leaves)], clock := now)
    case Store(i, now) => s.(since := s.toStore[i], toStore := Cut(s.toStore, i), clock := now)
  }

  ghost predicate Steps(states: seq<Watching>, steps: seq<Step>) {
    && |states| == |steps| + 1
    && forall n :: 0 <= n < |steps| ==> Enabled(states[n], steps[n]) && states[n + 1] == Apply(states[n], steps[n])
  }

  ghost predicate IsRun(states: seq<Watching>, steps: seq<Step>) {
    Steps(states, steps) && states[0] == Created(states[0].created)
  }

  /** What one call of `unwatched_for` sees, in the order it looks. */
  datatype Look = Look(watchers: nat, since: nat, now: nat)

  predicate Unwatched(look: Look, grace: nat) {
    look.watchers == 0 && look.now - look.since > grace
  }

  /** A look that found the counter as in `s`, the instant as in `t`, and the clock at `now`. */
  function LookAt(s: Watching, t: Watching, now: nat): Look {
    Look(s.watchers, t.since.at, now)
  }

  /** What it is for: every client has left more than `grace` ago, and so long ago the operation
      was there to be followed. */
  predicate Abandoned(s: Watching, now: nat, grace: nat) {
    now - s.created > grace && forall i :: 0 <= i < |s.clients| ==> s.clients[i].Left? && now - s.clients[i].at > grace
  }

  predicate HalfWay(s: Watching) {
    s.toRead > 0 || s.toStore != []
  }

  // ----- Clients -----

  /** How many clients follow. */
  function Followers(clients: seq<Client>): nat {
    if clients == [] then 0 else One(clients[0].Following?) + Followers(clients[1..])
  }

  /** The last instant anyone left, or `at` if that is later. */
  function LastLeft(clients: seq<Client>, at: nat): nat {
    if clients == [] then at
    else LastLeft(clients[1..], if clients[0].Left? then Max(at, clients[0].at) else at)
  }

  /** The last instant anyone left, or the operation was created. */
  function Last(s: Watching): nat {
    LastLeft(s.clients, s.created)
  }

  lemma {:induction false} FollowersConcat(a: seq<Client>, b: seq<Client>)
    ensures Followers(a + b) == Followers(a) + Followers(b)
  {
    if a == [] {
      assert a + b == b;
    } else {
      ConcatTail(a, b);
      FollowersConcat(a[1..], b);
    }
  }

  lemma FollowersLeave(clients: seq<Client>, i: nat, now: nat)
    requires i < |clients| && clients[i].Following?
    ensures Followers(clients[i := Left(now)]) + 1 == Followers(clients)
  {
    var before, after := clients[..i], clients[i + 1..];
    assert clients == before + ([clients[i]] + after);
    assert clients[i := Left(now)] == before + ([Left(now)] + after);
    FollowersConcat(before, [clients[i]] + after);
    FollowersConcat(before, [Left(now)] + after);
    FollowersConcat([clients[i]], after);
    FollowersConcat([Left(now)], after);
  }

  lemma {:induction false} NoFollowers(clients: seq<Client>)
    ensures Followers(clients) == 0 <==> forall i :: 0 <= i < |clients| ==> clients[i].Left?
  {
    if clients != [] {
      NoFollowers(clients[1..]);
      assert clients == [clients[0]] + clients[1..];
    }
  }

  lemma {:induction false} LastLeftIs(clients: seq<Client>, at: nat)
    ensures at <= LastLeft(clients, at)
    ensures forall i :: 0 <= i < |clients| && clients[i].Left? ==> clients[i].at <= LastLeft(clients, at)
    ensures LastLeft(clients, at) == at || exists i :: 0 <= i < |clients| && clients[i] == Left(LastLeft(clients, at))
  {
    if clients != [] {
      var rest := clients[1..];
      var m := if clients[0].Left? then Max(at, clients[0].at) else at;
      LastLeftIs(rest, m);
      if LastLeft(rest, m) != m {
        var i :| 0 <= i < |rest| && rest[i] == Left(LastLeft(rest, m));
        assert clients[i + 1] == rest[i];
      }
    }
  }

  lemma {:induction false} LastLeftConcat(a: seq<Client>, b: seq<Client>, at: nat)
    ensures LastLeft(a + b, at) == LastLeft(b, LastLeft(a, at))
  {
    if a == [] {
      assert a + b == b;
    } else {
      ConcatTail(a, b);
      LastLeftConcat(a[1..], b, if a[0].Left? then Max(at, a[0].at) else at);
    }
  }

  /** Who leaves at `now`, no earlier than anyone before, is the last to have left. */
  lemma LastLeaves(clients: seq<Client>, at: nat, i: nat, now: nat)
    requires i < |clients| && at <= now
    requires forall k :: 0 <= k < |clients| && clients[k].Left? ==> clients[k].at <= now
    ensures LastLeft(clients[i := Left(now)], at) == now
  {
    var after := clients[i := Left(now)];
    LastLeftIs(after, at);
    assert after[i] == Left(now);
  }

  // ----- What holds in every run -----

  /** A reading taken after `leaves` clients had left is no earlier than the last of them, and one
      taken before no later. */
  predicate Dated(r: Reading, leaves: nat, last: nat) {
    (r.leaves >= leaves ==> last <= r.at) && (r.leaves < leaves ==> r.at <= last)
  }

  /** Every reading, stored or not, is dated like that. */
  ghost predicate AllDated(s: Watching, leaves: nat, last: nat) {
    Dated(s.since, leaves, last) && forall i :: 0 <= i < |s.toStore| ==> Dated(s.toStore[i], leaves, last)
  }

  ghost predicate Taken(s: Watching, r: Reading) {
    r.at <= s.clock && r.leaves <= s.leaves
  }

  /** The counter counts the clients, nothing lies in the future, and every reading is no earlier
      than the last client's leaving exactly if it was taken after it. */
  ghost predicate Inv(s: Watching) {
    && s.watchers == Followers(s.clients) && s.created <= s.clock
    && (forall i :: 0 <= i < |s.clients| && s.clients[i].Left? ==> s.clients[i].at <= s.clock)
    && Taken(s, s.since) && (forall i :: 0 <= i < |s.toStore| ==> Taken(s, s.toStore[i]))
    && AllDated(s, s.leaves, Last(s))
  }

  lemma LastByNow(s: Watching)
    requires Inv(s)
    ensures s.created <= Last(s) <= s.clock
  {
    LastLeftIs(s.clients, s.created);
  }

  lemma FollowKeeps(s: Watching, now: nat)
    requires Inv(s) && Enabled(s, Follow(now))
    ensures Inv(Apply(s, Follow(now)))
  {
    FollowersConcat(s.clients, [Following]);
    LastLeftConcat(s.clients, [Following], s.created);
  }

  lemma LeaveKeeps(s: Watching, i: nat, now: nat)
    requires Inv(s) && Enabled(s, Leave(i, now))
    ensures Inv(Apply(s, Leave(i, now)))
  {
    FollowersLeave(s.clients, i, now);
    LastLeaves(s.clients, s.created, i, now);
  }

  lemma StepKeeps(s: Watching, step: Step)
    requires Inv(s) && Enabled(s, step)
    ensures Inv(Apply(s, step))
  {
    match step
    case Follow(now) => FollowKeeps(s, now);
    case Leave(i, now) => LeaveKeeps(s, i, now);
    case Read(now) => LastByNow(s);
    case Store(i, now) =>
  }

  lemma {:induction false} RunKeeps(states: seq<Watching>, steps: seq<Step>, n: nat)
    requires IsRun(states, steps) && n < |states|
    ensures Inv(states[n])
    decreases n
  {
    if n > 0 {
      RunKeeps(states, steps, n - 1);
      StepKeeps(states[n - 1], steps[n - 1]);
    }
  }

  /** From `a` on, every reading stays dated by the clients that had left by then. */
  lemma {:induction false} StaysDated(states: seq<Watching>, steps: seq<Step>, a: nat, b: nat)
    requires IsRun(states, steps) && a <= b < |states|
    ensures AllDated(states[b], states[a].leaves, Last(states[a]))
    ensures states[a].clock <= states[b].clock && states[a].leaves <= states[b].leaves
    decreases b
  {
    RunKeeps(states, steps, a);
    if a < b {
      StaysDated(states, steps, a, b - 1);
      LastByNow(states[a]);
      assert states[b] == Apply(states[b - 1], steps[b - 1]);
    }
  }

  lemma AbandonedIs(s: Watching, now: nat, grace: nat)
    requires Inv(s)
    ensures Abandoned(s, now, grace) <==> s.watchers == 0 && now - Last(s) > grace
  {
    NoFollowers(s.clients);
    LastLeftIs(s.clients, s.created);
  }

  // ----- When a report is right -----

  /** The counter loaded at `a` and the instant at `b` never give an early report, at any later
      time and for any grace, exactly when somebody followed at `a`, or the instant was read after
      the last client of `a` left, or in the same millisecond. */
  lemma NeverEarlyIff(states: seq<Watching>, steps: seq<Step>, a: nat, b: nat)
    requires IsRun(states, steps) && a <= b < |states|
    ensures var s, t := states[a], states[b];
            (forall now: nat, grace: nat {:trigger Abandoned(s, now, grace)} ::
               t.clock <= now && Unwatched(LookAt(s, t, now), grace) ==> Abandoned(s, now, grace))
            <==> s.watchers > 0 || t.since.leaves >= s.leaves || t.since.at == Last(s)
  {
    var s, t := states[a], states[b];
    RunKeeps(states, steps, a);
    StaysDated(states, steps, a, b);
    LastByNow(s);
    forall now: nat, grace: nat ensures Abandoned(s, now, grace) <==> s.watchers == 0 && now - Last(s) > grace {
      AbandonedIs(s, now, grace);
    }
    if s.watchers == 0 && t.since.at < Last(s) {
      var now := t.clock;
      assert Unwatched(LookAt(s, t, now), now - Last(s)) && !Abandoned(s, now, now - Last(s));
    }
  }

  /** They give the right report both ways exactly when somebody followed or the instant is the
      one the last client left. */
  lemma ReportsAbandonedIff(states: seq<Watching>, steps: seq<Step>, a: nat, b: nat)
    requires IsRun(states, steps) && a <= b < |states|
    ensures var s, t := states[a], states[b];
            (forall now: nat, grace: nat {:trigger Abandoned(s, now, grace)} ::
               t.clock <= now ==> (Unwatched(LookAt(s, t, now), grace) <==> Abandoned(s, now, grace)))
            <==> s.watchers > 0 || t.since.at == Last(s)
  {
    var s, t := states[a], states[b];
    RunKeeps(states, steps, a);
    RunKeeps(states, steps, b);
    StaysDated(states, steps, a, b);
    LastByNow(s);
    forall now: nat, grace: nat ensures Abandoned(s, now, grace) <==> s.watchers == 0 && now - Last(s) > grace {
      AbandonedIs(s, now, grace);
    }
    if s.watchers == 0 && t.since.at != Last(s) {
      var now := t.clock;
      var grace := now - Max(Last(s), t.since.at);
      assert Unwatched(LookAt(s, t, now), grace) != Abandoned(s, now, grace);
    }
  }

  // ----- Stores in order -----

  /** A store that does not land behind a newer one. */
  predicate Onward(s: Watching, step: Step)
    requires Enabled(s, step)
  {
    step.Store? ==> s.since.at <= s.toStore[step.drop].at
  }

  ghost predicate InOrder(states: seq<Watching>, steps: seq<Step>) {
    Steps(states, steps) && forall n :: 0 <= n < |steps| ==> Onward(states[n], steps[n])
  }

  /** Nobody follows: some reading not before the last client left is stored, or on its way. */
  ghost predicate Covered(s: Watching) {
    s.watchers == 0 ==>
      s.toRead > 0 || Last(s) <= s.since.at || exists i :: 0 <= i < |s.toStore| && Last(s) <= s.toStore[i].at
  }

  lemma StoreCovers(s: Watching, i: nat, now: nat)
    requires Covered(s) && Enabled(s, Store(i, now)) && Onward(s, Store(i, now))
    ensures Covered(Apply(s, Store(i, now)))
  {
    var t := Apply(s, Store(i, now));
    if s.watchers == 0 && s.toRead == 0 && s.since.at < Last(s) {
      var k :| 0 <= k < |s.toStore| && Last(s) <= s.toStore[k].at;
      if k != i {
        assert t.toStore[if k < i then k else k - 1] == s.toStore[k];
      }
    }
  }

  lemma StepCovers(s: Watching, step: Step)
    requires Inv(s) && Covered(s) && Enabled(s, step) && Onward(s, step)
    ensures Covered(Apply(s, step))
  {
    var t := Apply(s, step);
    LastByNow(s);
    match step
    case Follow(now) =>
    case Leave(i, now) =>
    case Read(now) =>
      assert t.toStore[|s.toStore|].at == now && Last(t) == Last(s);
    case Store(i, now) => StoreCovers(s, i, now);
  }

  lemma {:induction false} OrderCovers(states: seq<Watching>, steps: seq<Step>, n: nat)
    requires IsRun(states, steps) && InOrder(states, steps) && n < |states|
    ensures Covered(states[n])
    decreases n
  {
    if n > 0 {
      OrderCovers(states, steps, n - 1);
      RunKeeps(states, steps, n - 1);
      StepCovers(states[n - 1], steps[n - 1]);
    }
  }

  lemma {:induction false} OrderRises(states: seq<Watching>, steps: seq<Step>, a: nat, b: nat)
    requires InOrder(states, steps) && a <= b < |states|
    ensures states[a].since.at <= states[b].since.at
    decreases b
  {
    if a < b {
      OrderRises(states, steps, a, b - 1);
      assert Onward(states[b - 1], steps[b - 1]) && states[b] == Apply(states[b - 1], steps[b - 1]);
    }
  }

  /** While no store lands behind a newer one, whoever finds the counter at zero with no drop half
      way, and then reports unwatched, is right about every client there was. */
  lemma UnwatchedIsAbandoned(states: seq<Watching>, steps: seq<Step>, a: nat, b: nat, now: nat, grace: nat)
    requires IsRun(states, steps) && InOrder(states, steps) && a <= b < |states|
    requires !HalfWay(states[a]) && Unwatched(LookAt(states[a], states[b], now), grace)
    ensures Abandoned(states[a], now, grace)
  {
    RunKeeps(states, steps, a);
    OrderCovers(states, steps, a);
    OrderRises(states, steps, a, b);
    AbandonedIs(states[a], now, grace);
  }

  // ----- Finishing the drops half way -----

  /** Drops finish and nothing else happens. */
  ghost predicate Finishes(states: seq<Watching>, steps: seq<Step>) {
    && Steps(states, steps) && (forall n :: 0 <= n < |steps| ==> steps[n].Read? || steps[n].Store?)
    && !HalfWay(states[|steps|])
  }

  /** No reading still to be stored, and none stored for good, is before the last client left. */
  ghost predicate Timely(s: Watching) {
    && (forall i :: 0 <= i < |s.toStore| ==> Last(s) <= s.toStore[i].at)
    && (!HalfWay(s) ==> Last(s) <= s.since.at)
  }

  lemma {:induction false} TimelyFinishes(states: seq<Watching>, steps: seq<Step>, n: nat)
    requires Finishes(states, steps) && n < |states| && Inv(states[0]) && Timely(states[0])
    ensures Inv(states[n]) && Timely(states[n]) && Last(states[n]) == Last(states[0])
    decreases n
  {
    if n > 0 {
      TimelyFinishes(states, steps, n - 1);
      StepKeeps(states[n - 1], steps[n - 1]);
      LastByNow(states[n - 1]);
      assert states[n] == Apply(states[n - 1], steps[n - 1]);
    }
  }

  lemma StepsMore(s: Watching, step: Step, states: seq<Watching>, steps: seq<Step>)
    requires Enabled(s, step) && (step.Read? || step.Store?) && Finishes(states, steps) && states[0] == Apply(s, step)
    ensures Finishes([s] + states, [step] + steps)
  {
    var more, all := [s] + states, [step] + steps;
    forall n | 0 <= n < |all|
      ensures (all[n].Read? || all[n].Store?) && Enabled(more[n], all[n]) && more[n + 1] == Apply(more[n], all[n])
    {
      if n > 0 {
        assert all[n] == steps[n - 1] && more[n] == states[n - 1];
      }
    }
  }

  /** The drops can finish with the store of any one reading last. */
  lemma {:induction false} CanStoreLast(s: Watching, i: nat) returns (states: seq<Watching>, steps: seq<Step>)
    requires i < |s.toStore|
    ensures Finishes(states, steps) && states[0] == s
    ensures var t := states[|steps|]; t.since == s.toStore[i] && Last(t) == Last(s) && t.watchers == s.watchers
    decreases s.toRead + s.toRead + |s.toStore|
  {
    var step, k := Read(s.clock), i;
    if s.toRead == 0 {
      if |s.toStore| == 1 {
        step := Store(0, s.clock);
        states, steps := [s, Apply(s, step)], [step];
        return;
      }
      step := Store(if i == 0 then 1 else 0, s.clock);
      k := if i == 0 then 0 else i - 1;
    }
    var t := Apply(s, step);
    assert t.toStore[k] == s.toStore[i];
    var rest, more := CanStoreLast(t, k);
    StepsMore(s, step, rest, more);
    states, steps := [s] + rest, [step] + more;
  }

  /** Nobody follows: however the drops half way finish, the instant left is right, exactly when no
      reading still to be stored is before the last client left, nor the one stored if none is. */
  lemma FinishesRightIff(s: Watching)
    requires Inv(s) && s.watchers == 0
    ensures (forall states: seq<Watching>, steps: seq<Step> {:trigger Finishes(states, steps)} ::
               Finishes(states, steps) && states[0] == s ==> Last(s) <= states[|steps|].since.at)
            <==> Timely(s)
  {
    if Timely(s) {
      forall states: seq<Watching>, steps: seq<Step> | Finishes(states, steps) && states[0] == s
        ensures Last(s) <= states[|steps|].since.at
      {
        TimelyFinishes(states, steps, |steps|);
      }
    } else if i :| 0 <= i < |s.toStore| && s.toStore[i].at < Last(s) {
      var states, steps := CanStoreLast(s, i);
      assert Finishes(states, steps);
    } else {
      assert Finishes([s], []);
    }
  }

  // ----- Early reports happen -----

  /** Between the two ends of the last client's drop an old operation is reported unwatched at the
      very instant it was left. */
  lemma EarlyReportIsReachable(created: nat, left: nat, grace: nat) returns (states: seq<Watching>, steps: seq<Step>)
    requires created + grace < left
    ensures IsRun(states, steps) && |steps| == 2 && states[2].clients == [Left(left)]
    ensures Unwatched(LookAt(states[2], states[2], left), grace) && !Abandoned(states[2], left, grace)
  {
    var s := Created(created);
    var t := Apply(s, Follow(created));
    var u := Apply(t, Leave(0, left));
    states, steps := [s, t, u], [Follow(created), Leave(0, left)];
    assert u.clients == [Left(left)];
    assert u.clients[0].at == left;
  }

  /** The last states of runs. */
  ghost predicate Reached(s: Watching) {
    exists states, steps :: IsRun(states, steps) && states[|steps|] == s
  }

  lemma ReachesNext(s: Watching, step: Step)
    requires Reached(s) && Enabled(s, step)
    ensures Reached(Apply(s, step))
  {
    var states, steps :| IsRun(states, steps) && states[|steps|] == s;
    var more, all := states + [Apply(s, step)], steps + [step];
    forall n | 0 <= n < |all| ensures Enabled(more[n], all[n]) && more[n + 1] == Apply(more[n], all[n]) {
      if n < |steps| {
        assert all[n] == steps[n] && more[n] == states[n];
      }
    }
    assert IsRun(more, all) && more[|all|] == Apply(s, step);
  }

  lemma CreatedIsReached(now: nat)
    ensures Reached(Created(now))
  {
    var states, steps: seq<Step> := [Created(now)], [];
    assert IsRun(states, steps) && states[|steps|] == Created(now);
  }

  /** One client, gone at `first`, whose drop has read and not stored. */
  lemma HasRead(first: nat) returns (s: Watching)
    ensures Reached(s) && s == Watching(0, Reading(0, 0), 0, [Reading(first, 1)], 0, [Left(first)], 1, first)
  {
    CreatedIsReached(0);
    s := Created(0);
    ReachesNext(s, Follow(0));
    s := Apply(s, Follow(0));
    assert s.clients == [Following];
    ReachesNext(s, Leave(0, first));
    s := Apply(s, Leave(0, first));
    assert s.clients == [Left(first)];
    ReachesNext(s, Read(first));
    s := Apply(s, Read(first));
    assert s.toStore == [Reading(first, 1)];
  }

  lemma LeftOnce(first: nat) returns (s: Watching)
    ensures Reached(s) && s == Watching(0, Reading(first, 1), 0, [], 0, [Left(first)], 1, first)
  {
    s := HasRead(first);
    ReachesNext(s, Store(0, first));
    s := Apply(s, Store(0, first));
    assert s.toStore == [];
  }

  /** A second client follows and leaves in the meantime, and its drop reads too. */
  lemma BothRead(first: nat, second: nat) returns (s: Watching)
    requires first < second
    ensures Reached(s)
    ensures s == Watching(0, Reading(0, 0), 0, [Reading(first, 1), Reading(second, 2)], 0,
                          [Left(first), Left(second)], 2, second)
  {
    s := HasRead(first);
    ReachesNext(s, Follow(first));
    s := Apply(s, Follow(first));
    assert s.clients == [Left(first), Following];
    ReachesNext(s, Leave(1, second));
    s := Apply(s, Leave(1, second));
    assert s.clients == [Left(first), Left(second)];
    ReachesNext(s, Read(second));
    s := Apply(s, Read(second));
    assert s.toStore == [Reading(first, 1), Reading(second, 2)];
  }

  /** The store of the second drop lands first and is overwritten by the older one. */
  lemma Overtaken(first: nat, second: nat) returns (s: Watching)
    requires first < second
    ensures Reached(s) && s == Watching(0, Reading(first, 1), 0, [], 0, [Left(first), Left(second)], 2, second)
  {
    s := BothRead(first, second);
    ReachesNext(s, Store(1, second));
    s := Apply(s, Store(1, second));
    assert s.toStore == [Reading(first, 1)];
    ReachesNext(s, Store(0, second));
    s := Apply(s, Store(0, second));
    assert s.toStore == [];
  }

  /** So no condition on what a look sees decides: with nothing half way, two operations look the
      same at any time, and for some grace one is abandoned and the other is not. */
  lemma LooksCannotTell(first: nat, second: nat, now: nat) returns (s: Watching, t: Watching, grace: nat)
    requires first < second <= now
    ensures Reached(s) && Reached(t) && !HalfWay(s) && !HalfWay(t) && s.clock <= now && t.clock <= now
    ensures LookAt(s, s, now) == LookAt(t, t, now) && Unwatched(LookAt(t, t, now), grace)
    ensures Abandoned(s, now, grace) && !Abandoned(t, now, grace)
  {
    s := LeftOnce(first);
    t := Overtaken(first, second);
    grace := now - second;
    assert t.clients[1] == Left(second);
  }

  // ----- Looks at many operations -----

  /** Where one look met the run of its operation. */
  datatype Sighting = Sighting(states: seq<Watching>, steps: seq<Step>, counted: nat, dated: nat)

  ghost predicate Sees(g: Sighting, look: Look) {
    && IsRun(g.states, g.steps) && g.counted <= g.dated < |g.states| && g.states[g.dated].clock <= look.now
    && look == LookAt(g.states[g.counted], g.states[g.dated], look.now)
  }

  /** The operation as it was when its counter was loaded. */
  function Seen(g: Sighting): Watching
    requires g.counted < |g.states|
  {
    g.states[g.counted]
  }

  /** The instant found was read after the last client seen had left. */
  predicate Fresh(g: Sighting)
    requires g.counted < |g.states| && g.dated < |g.states|
  {
    g.states[g.dated].since.leaves >= g.states[g.counted].leaves
  }

  lemma SightingIsRight(g: Sighting, look: Look, grace: nat)
    requires Sees(g, look) && Unwatched(look, grace)
    ensures Fresh(g) ==> Abandoned(Seen(g), look.now, grace)
    ensures InOrder(g.states, g.steps) && !HalfWay(Seen(g)) ==> Abandoned(Seen(g), look.now, grace)
  {
    NeverEarlyIff(g.states, g.steps, g.counted, g.dated);
    if InOrder(g.states, g.steps) && !HalfWay(Seen(g)) {
      UnwatchedIsAbandoned(g.states, g.steps, g.counted, g.dated, look.now, grace);
    }
  }
}
