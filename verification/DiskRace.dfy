/** Concurrent writers of the disk tier, step by step (src/cache/disk_action_cache.rs).

    Each task is one call of `put`; between two of its steps any other task may run.
    A file is named by the hash alone and every writer of a hash writes the same number
    of bytes. The counter is a 64-bit atomic and wraps. */
module DiskRace {
  import opened Prelude
  import opened Lru

  const WIDTH: nat := 0x1_0000_0000_0000_0000

  datatype Config = Config(size: Hash -> nat, maxSizeBytes: nat)

  /** What a task does next. */
  datatype Task =
    | Stat(digest: Digest)
    | TouchSeen(digest: Digest)
    | Stage(digest: Digest)
    | Link(digest: Digest)
    | Add(digest: Digest)
    | TouchNew(digest: Digest)
    | Load
    | Pop(current: nat)
    | Unlink(victims: seq<Entry>)
    | Subtract(victim: Entry, victims: seq<Entry>)
    | StatLost(digest: Digest)
    | TouchLost(digest: Digest)
    | Done

  datatype Disk = Disk(counter: nat, files: set<Hash>, recent: seq<Entry>, tasks: map<nat, Task>)

  const EMPTY: Disk := Disk(0, {}, [], map[])

  /** A new call, or the next step of task `id`, whose I/O succeeds if `ok`. */
  datatype Step = Begin(id: nat, digest: Digest) | Go(id: nat, ok: bool)

  predicate Enabled(s: Disk, step: Step) {
    match step
    case Begin(id, _) => id !in s.tasks
    case Go(id, _) => id in s.tasks && !s.tasks[id].Done?
  }

  function Touched(cfg: Config, s: Disk, d: Digest): seq<Entry> {
    Without(s.recent, d) + [Entry(d, cfg.size(d.hash))]
  }

  /** How many entries `evict` pops: the shortest run worth `n` bytes, or all. */
  function VictimCount(r: seq<Entry>, n: nat): (k: nat)
    ensures k <= |r|
  {
    if n == 0 || r == [] then 0 else 1 + VictimCount(r[1..], if n >= r[0].size then n - r[0].size else 0)
  }

  /** The victims are those `LruState::evict` takes. */
  lemma {:induction false} VictimsAreShortest(r: seq<Entry>, n: nat)
    ensures Evicts(r, n, r[..VictimCount(r, n)])
  {
    if n > 0 && r != [] {
      var rest, m := r[1..], if n >= r[0].size then n - r[0].size else 0;
      VictimsAreShortest(rest, m);
      var k := VictimCount(rest, m);
      assert r[..k + 1] == [r[0]] + rest[..k];
      var gone := r[..k + 1];
      forall j | 0 <= j < |gone| ensures Total(gone[..j]) < n {
        if j > 0 {
          assert gone[..j] == [r[0]] + rest[..k][..j - 1];
        }
      }
    }
  }

  function Plus(counter: nat, size: nat): nat {
    (counter + size) % WIDTH
  }

  function Minus(counter: nat, size: nat): nat {
    (counter - size) % WIDTH
  }

  /** The state and what the task does after the step, before it is written back. */
  function Advance(cfg: Config, s: Disk, task: Task, ok: bool): (Disk, Task) {
    match task
    case Stat(d) => (s, if !ok then Done else if d.hash in s.files then TouchSeen(d) else Stage(d))
    case TouchSeen(d) => (s.(recent := Touched(cfg, s, d)), Done)
    case Stage(d) =>
      (s, if (cfg.maxSizeBytes > 0 && cfg.size(d.hash) > cfg.maxSizeBytes) || !ok then Done else Link(d))
    case Link(d) =>
      if !ok then (s, Done)
      else if d.hash in s.files then (s, StatLost(d))
      else (s.(files := s.files + {d.hash}), Add(d))
    case Add(d) => (s.(counter := Plus(s.counter, cfg.size(d.hash))), TouchNew(d))
    case TouchNew(d) => (s.(recent := Touched(cfg, s, d)), Load)
    case Load => (s, if cfg.maxSizeBytes == 0 || s.counter <= cfg.maxSizeBytes then Done else Pop(s.counter))
    case Pop(current) =>
      var k := VictimCount(s.recent, if current > cfg.maxSizeBytes then current - cfg.maxSizeBytes else 0);
      (s.(recent := s.recent[k..]), Unlink(s.recent[..k]))
    case Unlink(victims) =>
      if victims == [] then (s, Done)
      else if ok && victims[0].digest.hash in s.files then
        (s.(files := s.files - {victims[0].digest.hash}), Subtract(victims[0], victims[1..]))
      else (s, Unlink(victims[1..]))
    case Subtract(victim, victims) => (s.(counter := Minus(s.counter, victim.size)), Unlink(victims))
    case StatLost(d) => (s, TouchLost(d))
    case TouchLost(d) => (s.(recent := Touched(cfg, s, d)), Done)
    case Done => (s, Done)
  }

  function Apply(cfg: Config, s: Disk, step: Step): Disk
    requires Enabled(s, step)
  {
    match step
    case Begin(id, d) => s.(tasks := s.tasks[id := Stat(d)])
    case Go(id, ok) =>
      var (t, task) := Advance(cfg, s, s.tasks[id], ok);
      t.(tasks := s.tasks[id := task])
  }

  /** Any interleaving of any number of calls. */
  ghost predicate IsRun(cfg: Config, states: seq<Disk>, steps: seq<Step>) {
    && |states| == |steps| + 1 && states[0] == EMPTY
    && forall n :: 0 <= n < |steps| ==> Enabled(states[n], steps[n]) && states[n + 1] == Apply(cfg, states[n], steps[n])
  }

  // ----- The books -----

  function Sizes(cfg: Config, files: set<Hash>): map<Hash, nat> {
    map h | h in files :: cfg.size(h)
  }

  ghost function BytesOf(cfg: Config, files: set<Hash>): nat {
    SumOf(Sizes(cfg, files))
  }

  /** Bytes linked by the task and not counted yet. */
  function Uncounted(cfg: Config, t: Task): nat {
    if t.Add? then cfg.size(t.digest.hash) else 0
  }

  /** Bytes unlinked by the task and still counted. */
  function Overcounted(t: Task): nat {
    if t.Subtract? then t.victim.size else 0
  }

  function UncountedBy(cfg: Config, tasks: map<nat, Task>): map<nat, nat> {
    map id | id in tasks :: Uncounted(cfg, tasks[id])
  }

  function OvercountedBy(tasks: map<nat, Task>): map<nat, nat> {
    map id | id in tasks :: Overcounted(tasks[id])
  }

  ghost function AllUncounted(cfg: Config, tasks: map<nat, Task>): nat {
    SumOf(UncountedBy(cfg, tasks))
  }

  ghost function AllOvercounted(tasks: map<nat, Task>): nat {
    SumOf(OvercountedBy(tasks))
  }

  ghost predicate SizedAs(cfg: Config, r: seq<Entry>) {
    forall i :: 0 <= i < |r| ==> r[i].size == cfg.size(r[i].digest.hash)
  }

  ghost predicate TaskSized(cfg: Config, t: Task) {
    match t
    case Unlink(victims) => SizedAs(cfg, victims)
    case Subtract(victim, victims) => victim.size == cfg.size(victim.digest.hash) && SizedAs(cfg, victims)
    case _ => true
  }

  /** The counter is the bytes on disk, less what is linked and not counted, plus what is
      unlinked and still counted, up to wrapping. */
  ghost predicate Accounted(cfg: Config, s: Disk) {
    s.counter == (BytesOf(cfg, s.files) + AllOvercounted(s.tasks) - AllUncounted(cfg, s.tasks)) % WIDTH
  }

  ghost predicate Inv(cfg: Config, s: Disk) {
    && Accounted(cfg, s) && SizedAs(cfg, s.recent)
    && forall id :: id in s.tasks ==> TaskSized(cfg, s.tasks[id])
  }

  lemma UncountedAfter(cfg: Config, tasks: map<nat, Task>, id: nat, t: Task)
    ensures AllUncounted(cfg, tasks[id := t]) ==
            AllUncounted(cfg, tasks) - (if id in tasks then Uncounted(cfg, tasks[id]) else 0) + Uncounted(cfg, t)
  {
    var m := UncountedBy(cfg, tasks);
    assert UncountedBy(cfg, tasks[id := t]) == m[id := Uncounted(cfg, t)];
    SumUpdate(m, id, Uncounted(cfg, t));
    if id in tasks {
      SumWithout(m, id);
    } else {
      assert m - {id} == m;
    }
  }

  lemma OvercountedAfter(tasks: map<nat, Task>, id: nat, t: Task)
    ensures AllOvercounted(tasks[id := t]) ==
            AllOvercounted(tasks) - (if id in tasks then Overcounted(tasks[id]) else 0) + Overcounted(t)
  {
    var m := OvercountedBy(tasks);
    assert OvercountedBy(tasks[id := t]) == m[id := Overcounted(t)];
    SumUpdate(m, id, Overcounted(t));
    if id in tasks {
      SumWithout(m, id);
    } else {
      assert m - {id} == m;
    }
  }

  lemma BytesWith(cfg: Config, files: set<Hash>, h: Hash)
    requires h !in files
    ensures BytesOf(cfg, files + {h}) == BytesOf(cfg, files) + cfg.size(h)
  {
    var m := Sizes(cfg, files);
    assert Sizes(cfg, files + {h}) == m[h := cfg.size(h)];
    SumUpdate(m, h, cfg.size(h));
    assert m - {h} == m;
  }

  lemma BytesWithout(cfg: Config, files: set<Hash>, h: Hash)
    requires h in files
    ensures BytesOf(cfg, files - {h}) + cfg.size(h) == BytesOf(cfg, files)
  {
    BytesWith(cfg, files - {h}, h);
    assert files - {h} + {h} == files;
  }

  lemma Wraps(x: int, y: int)
    ensures (x % WIDTH + y) % WIDTH == (x + y) % WIDTH
  {
  }

  lemma {:induction false} WithoutSized(cfg: Config, r: seq<Entry>, d: Digest)
    requires SizedAs(cfg, r)
    ensures SizedAs(cfg, Without(r, d))
  {
    if r != [] {
      WithoutSized(cfg, r[1..], d);
    }
  }

  /** What the step of a task adds to the counter. */
  function Delta(cfg: Config, task: Task): int {
    if task.Add? then cfg.size(task.digest.hash) else if task.Subtract? then 0 - task.victim.size else 0
  }

  lemma TouchSized(cfg: Config, s: Disk, d: Digest)
    requires SizedAs(cfg, s.recent)
    ensures SizedAs(cfg, Touched(cfg, s, d))
  {
    WithoutSized(cfg, s.recent, d);
  }

  lemma AdvanceSized(cfg: Config, s: Disk, task: Task, ok: bool)
    requires SizedAs(cfg, s.recent) && TaskSized(cfg, task)
    ensures SizedAs(cfg, Advance(cfg, s, task, ok).0.recent) && TaskSized(cfg, Advance(cfg, s, task, ok).1)
  {
    if task.TouchSeen? || task.TouchNew? || task.TouchLost? {
      TouchSized(cfg, s, task.digest);
    }
  }

  /** A step moves bytes between the disk, the task that takes it and the counter. */
  lemma AdvanceMoves(cfg: Config, s: Disk, task: Task, ok: bool)
    requires TaskSized(cfg, task)
    ensures var (t, next) := Advance(cfg, s, task, ok);
            BytesOf(cfg, t.files) + Overcounted(next) - Uncounted(cfg, next) ==
            BytesOf(cfg, s.files) + Overcounted(task) - Uncounted(cfg, task) + Delta(cfg, task)
  {
    if task.Link? && task.digest.hash !in s.files {
      BytesWith(cfg, s.files, task.digest.hash);
    }
    if task.Unlink? && task.victims != [] && task.victims[0].digest.hash in s.files {
      BytesWithout(cfg, s.files, task.victims[0].digest.hash);
    }
  }

  lemma AdvanceCounts(cfg: Config, s: Disk, task: Task, ok: bool)
    requires s.counter < WIDTH
    ensures Advance(cfg, s, task, ok).0.counter == (s.counter + Delta(cfg, task)) % WIDTH
  {
  }

  lemma GoKeeps(cfg: Config, s: Disk, id: nat, ok: bool)
    requires Inv(cfg, s) && Enabled(s, Go(id, ok))
    ensures Inv(cfg, Apply(cfg, s, Go(id, ok)))
  {
    var task := s.tasks[id];
    var (t, next) := Advance(cfg, s, task, ok);
    AdvanceSized(cfg, s, task, ok);
    AdvanceMoves(cfg, s, task, ok);
    AdvanceCounts(cfg, s, task, ok);
    UncountedAfter(cfg, s.tasks, id, next);
    OvercountedAfter(s.tasks, id, next);
    Wraps(BytesOf(cfg, s.files) + AllOvercounted(s.tasks) - AllUncounted(cfg, s.tasks), Delta(cfg, task));
  }

  lemma BeginKeeps(cfg: Config, s: Disk, id: nat, d: Digest)
    requires Inv(cfg, s) && Enabled(s, Begin(id, d))
    ensures Inv(cfg, Apply(cfg, s, Begin(id, d)))
  {
    UncountedAfter(cfg, s.tasks, id, Stat(d));
    OvercountedAfter(s.tasks, id, Stat(d));
  }

  lemma {:induction false} RunKeeps(cfg: Config, states: seq<Disk>, steps: seq<Step>, n: nat)
    requires IsRun(cfg, states, steps) && n < |states|
    ensures Inv(cfg, states[n])
    decreases n
  {
    if n == 0 {
      assert Sizes(cfg, {}) == map[] && UncountedBy(cfg, map[]) == map[] && OvercountedBy(map[]) == map[];
    } else {
      RunKeeps(cfg, states, steps, n - 1);
      match steps[n - 1]
      case Begin(id, d) => BeginKeeps(cfg, states[n - 1], id, d);
      case Go(id, ok) => GoKeeps(cfg, states[n - 1], id, ok);
    }
  }

  /** No task is between a change on disk and its change of the counter. */
  predicate Settled(s: Disk) {
    forall id :: id in s.tasks ==> !s.tasks[id].Add? && !s.tasks[id].Subtract?
  }

  lemma {:induction false} SumOfZeros<K(!new)>(m: map<K, nat>)
    requires forall k :: k in m ==> m[k] == 0
    ensures SumOf(m) == 0
    decreases |m|
  {
    if m != map[] {
      var k :| k in m;
      SumWithout(m, k);
      SumOfZeros(m - {k});
    }
  }

  /** Whenever no task is half way, the counter is exactly the bytes of the published
      files, however many writers raced for each. */
  lemma CounterIsBytesOnDisk(cfg: Config, states: seq<Disk>, steps: seq<Step>, n: nat)
    requires IsRun(cfg, states, steps) && n < |states| && Settled(states[n])
    ensures states[n].counter == BytesOf(cfg, states[n].files) % WIDTH
    ensures BytesOf(cfg, states[n].files) < WIDTH ==> states[n].counter == BytesOf(cfg, states[n].files)
  {
    RunKeeps(cfg, states, steps, n);
    SumOfZeros(UncountedBy(cfg, states[n].tasks));
    SumOfZeros(OvercountedBy(states[n].tasks));
  }

  /** At any other moment the counter is exact up to the bytes in hand exactly when no
      more is linked and uncounted than is on disk or still counted; otherwise it has
      wrapped below zero. */
  lemma CounterIsExactIff(cfg: Config, states: seq<Disk>, steps: seq<Step>, n: nat)
    requires IsRun(cfg, states, steps) && n < |states|
    requires BytesOf(cfg, states[n].files) + AllOvercounted(states[n].tasks) < WIDTH &&
             AllUncounted(cfg, states[n].tasks) < WIDTH
    ensures var s := states[n];
            s.counter + AllUncounted(cfg, s.tasks) == BytesOf(cfg, s.files) + AllOvercounted(s.tasks) <==>
            AllUncounted(cfg, s.tasks) <= BytesOf(cfg, s.files) + AllOvercounted(s.tasks)
  {
    RunKeeps(cfg, states, steps, n);
  }

  /** What the counter would be if it did not wrap. */
  ghost function Unwrapped(cfg: Config, s: Disk): int {
    BytesOf(cfg, s.files) + AllOvercounted(s.tasks) - AllUncounted(cfg, s.tasks)
  }

  /** A subtraction takes no more than the counter shows. */
  predicate Covered(s: Disk, step: Step) {
    step.Go? && step.id in s.tasks && s.tasks[step.id].Subtract? ==> s.tasks[step.id].victim.size <= s.counter
  }

  function DeltaOf(cfg: Config, s: Disk, step: Step): int {
    if step.Go? && step.id in s.tasks then Delta(cfg, s.tasks[step.id]) else 0
  }

  lemma UnwrappedMoves(cfg: Config, s: Disk, step: Step)
    requires Inv(cfg, s) && Enabled(s, step)
    ensures Unwrapped(cfg, Apply(cfg, s, step)) == Unwrapped(cfg, s) + DeltaOf(cfg, s, step)
  {
    match step
    case Begin(id, d) =>
      UncountedAfter(cfg, s.tasks, id, Stat(d));
      OvercountedAfter(s.tasks, id, Stat(d));
    case Go(id, ok) =>
      var next := Advance(cfg, s, s.tasks[id], ok).1;
      AdvanceMoves(cfg, s, s.tasks[id], ok);
      UncountedAfter(cfg, s.tasks, id, next);
      OvercountedAfter(s.tasks, id, next);
  }

  lemma CounterMoves(cfg: Config, s: Disk, step: Step)
    requires Enabled(s, step) && s.counter < WIDTH
    ensures Apply(cfg, s, step).counter == (s.counter + DeltaOf(cfg, s, step)) % WIDTH
  {
    if step.Go? {
      AdvanceCounts(cfg, s, s.tasks[step.id], step.ok);
    }
  }

  lemma WrapsIff(c: nat, d: int)
    requires c < WIDTH && c + d < WIDTH
    ensures (c + d) % WIDTH == c + d <==> 0 <= c + d
  {
  }

  /** One step of a counter that has not wrapped wraps it exactly when it subtracts more than
      the counter shows. */
  lemma StepWrapsIff(cfg: Config, s: Disk, step: Step)
    requires Inv(cfg, s) && Enabled(s, step) && s.counter == Unwrapped(cfg, s)
    requires var t := Apply(cfg, s, step); BytesOf(cfg, t.files) + AllOvercounted(t.tasks) < WIDTH
    ensures Apply(cfg, s, step).counter == Unwrapped(cfg, Apply(cfg, s, step)) <==> Covered(s, step)
  {
    UnwrappedMoves(cfg, s, step);
    CounterMoves(cfg, s, step);
    var d := DeltaOf(cfg, s, step);
    WrapsIff(s.counter, d);
    assert Covered(s, step) <==> 0 <= s.counter + d;
  }

  /** While fewer than 2^64 bytes are involved, the counter never wraps in a run exactly when no
      subtraction of the run takes more than it shows. */
  lemma NeverWrapsIff(cfg: Config, states: seq<Disk>, steps: seq<Step>)
    requires IsRun(cfg, states, steps)
    requires forall n :: 0 <= n < |states| ==> BytesOf(cfg, states[n].files) + AllOvercounted(states[n].tasks) < WIDTH
    ensures (forall n :: 0 <= n < |states| ==> states[n].counter == Unwrapped(cfg, states[n])) <==>
            (forall n :: 0 <= n < |steps| ==> Covered(states[n], steps[n]))
  {
    if forall n :: 0 <= n < |steps| ==> Covered(states[n], steps[n]) {
      forall n | 0 <= n < |states| ensures states[n].counter == Unwrapped(cfg, states[n]) {
        CoveredNeverWraps(cfg, states, steps, n);
      }
    }
    if forall n :: 0 <= n < |states| ==> states[n].counter == Unwrapped(cfg, states[n]) {
      forall n | 0 <= n < |steps| ensures Covered(states[n], steps[n]) {
        RunKeeps(cfg, states, steps, n);
        assert states[n + 1].counter == Unwrapped(cfg, states[n + 1]);
        StepWrapsIff(cfg, states[n], steps[n]);
      }
    }
  }

  lemma {:induction false} CoveredNeverWraps(cfg: Config, states: seq<Disk>, steps: seq<Step>, n: nat)
    requires IsRun(cfg, states, steps) && n < |states| && forall k :: 0 <= k < |steps| ==> Covered(states[k], steps[k])
    requires forall k :: 0 <= k < |states| ==> BytesOf(cfg, states[k].files) + AllOvercounted(states[k].tasks) < WIDTH
    ensures states[n].counter == Unwrapped(cfg, states[n])
    decreases n
  {
    if n == 0 {
      assert Sizes(cfg, {}) == map[] && UncountedBy(cfg, map[]) == map[] && OvercountedBy(map[]) == map[];
    } else {
      CoveredNeverWraps(cfg, states, steps, n - 1);
      RunKeeps(cfg, states, steps, n - 1);
      assert states[n] == Apply(cfg, states[n - 1], steps[n - 1]);
      StepWrapsIff(cfg, states[n - 1], steps[n - 1]);
    }
  }

  // ----- The counter can wrap -----

  ghost predicate Reaches(cfg: Config, s: Disk, states: seq<Disk>, steps: seq<Step>) {
    IsRun(cfg, states, steps) && states[|steps|] == s
  }

  ghost predicate IsReached(cfg: Config, s: Disk) {
    exists states, steps :: Reaches(cfg, s, states, steps)
  }

  ghost function Reachable(cfg: Config): iset<Disk> {
    iset s: Disk | IsReached(cfg, s)
  }

  lemma EmptyIsReachable(cfg: Config)
    ensures EMPTY in Reachable(cfg)
  {
    assert Reaches(cfg, EMPTY, [EMPTY], []);
  }

  lemma StepReaches(cfg: Config, s: Disk, step: Step)
    requires s in Reachable(cfg) && Enabled(s, step)
    ensures Apply(cfg, s, step) in Reachable(cfg)
  {
    var states, steps :| Reaches(cfg, s, states, steps);
    var t := Apply(cfg, s, step);
    assert Reaches(cfg, t, states + [t], steps + [step]);
  }

  lemma GoReaches(cfg: Config, s: Disk, id: nat, t: Disk)
    requires s in Reachable(cfg) && Enabled(s, Go(id, true)) && t == Apply(cfg, s, Go(id, true))
    ensures t in Reachable(cfg)
  {
    StepReaches(cfg, s, Go(id, true));
  }

  function With(s: Disk, id: nat, task: Task): Disk {
    s.(tasks := s.tasks[id := task])
  }

  /** A new call for a file that is not there links it; its bytes are not counted yet. */
  lemma LinkReaches(cfg: Config, s: Disk, id: nat, d: Digest) returns (t: Disk)
    requires s in Reachable(cfg) && id !in s.tasks && d.hash !in s.files &&
             (cfg.maxSizeBytes > 0 ==> cfg.size(d.hash) <= cfg.maxSizeBytes)
    ensures t in Reachable(cfg) && t == With(s.(files := s.files + {d.hash}), id, Add(d))
  {
    StepReaches(cfg, s, Begin(id, d));
    GoReaches(cfg, With(s, id, Stat(d)), id, With(s, id, Stage(d)));
    GoReaches(cfg, With(s, id, Stage(d)), id, With(s, id, Link(d)));
    t := With(s.(files := s.files + {d.hash}), id, Add(d));
    GoReaches(cfg, With(s, id, Link(d)), id, t);
  }

  /** The same call taken on until it is about to look at the counter. */
  lemma WriteReaches(cfg: Config, s: Disk, id: nat, d: Digest) returns (t: Disk)
    requires s in Reachable(cfg) && id !in s.tasks && d.hash !in s.files &&
             (cfg.maxSizeBytes > 0 ==> cfg.size(d.hash) <= cfg.maxSizeBytes)
    ensures t in Reachable(cfg)
    ensures t == With(s.(files := s.files + {d.hash}, counter := Plus(s.counter, cfg.size(d.hash)),
            recent := Touched(cfg, s, d)), id, Load)
  {
    var u := LinkReaches(cfg, s, id, d);
    var v := With(u.(counter := Plus(s.counter, cfg.size(d.hash))), id, TouchNew(d));
    GoReaches(cfg, u, id, v);
    t := With(v.(recent := Touched(cfg, s, d)), id, Load);
    GoReaches(cfg, v, id, t);
  }

  /** A second writer of a linked file marks it recently used. */
  lemma TouchReaches(cfg: Config, s: Disk, id: nat, d: Digest) returns (t: Disk)
    requires s in Reachable(cfg) && id !in s.tasks && d.hash in s.files
    ensures t in Reachable(cfg) && t == With(s.(recent := Touched(cfg, s, d)), id, Done)
  {
    StepReaches(cfg, s, Begin(id, d));
    GoReaches(cfg, With(s, id, Stat(d)), id, With(s, id, TouchSeen(d)));
    t := With(s.(recent := Touched(cfg, s, d)), id, Done);
    GoReaches(cfg, With(s, id, TouchSeen(d)), id, t);
  }

  /** An eviction of the head of the list, from the look at the counter to the unlink. */
  lemma PopReaches(cfg: Config, s: Disk, id: nat) returns (t: Disk)
    requires s in Reachable(cfg) && id in s.tasks && s.tasks[id] == Load && 0 < cfg.maxSizeBytes < s.counter &&
             s.recent != []
    requires s.counter - cfg.maxSizeBytes <= s.recent[0].size
    ensures t in Reachable(cfg) && t == With(s.(recent := s.recent[1..]), id, Unlink([s.recent[0]]))
  {
    GoReaches(cfg, s, id, With(s, id, Pop(s.counter)));
    assert VictimCount(s.recent[1..], 0) == 0;
    assert s.recent[..1] == [s.recent[0]];
    t := With(s.(recent := s.recent[1..]), id, Unlink([s.recent[0]]));
    GoReaches(cfg, With(s, id, Pop(s.counter)), id, t);
  }

  lemma UnlinkReaches(cfg: Config, s: Disk, id: nat, e: Entry) returns (t: Disk)
    requires s in Reachable(cfg) && id in s.tasks && s.tasks[id] == Unlink([e]) && e.digest.hash in s.files
    ensures t in Reachable(cfg)
    ensures t == With(s.(files := s.files - {e.digest.hash}, counter := Minus(s.counter, e.size)), id, Unlink([]))
  {
    var u := With(s.(files := s.files - {e.digest.hash}), id, Subtract(e, []));
    assert [e][1..] == [];
    GoReaches(cfg, s, id, u);
    t := With(u.(counter := Minus(s.counter, e.size)), id, Unlink([]));
    GoReaches(cfg, u, id, t);
  }

  /** Files of ten, six and six bytes under a budget of ten. */
  function TightBudget(): Config {
    Config(h => if h == 0 then 10 else 6, 10)
  }

  lemma OverBudget() returns (s: Disk)
    ensures s in Reachable(TightBudget()) && s.files == {0, 1, 2} && s.counter == 12
    ensures s.recent == [Entry(Digest(0, 0), 10), Entry(Digest(1, 0), 6), Entry(Digest(2, 0), 6)]
    ensures 2 in s.tasks && s.tasks[2] == Load && 3 in s.tasks && s.tasks[3] == Load
  {
    var cfg, d0, d1, d2 := TightBudget(), Digest(0, 0), Digest(1, 0), Digest(2, 0);
    EmptyIsReachable(cfg);
    s := LinkReaches(cfg, EMPTY, 0, d0);
    s := TouchReaches(cfg, s, 1, d0);
    assert s.recent == [Entry(d0, 10)] && s.counter == 0 && s.files == {0} && s.tasks.Keys == {0, 1};
    WithoutNone(s.recent, d1);
    s := WriteReaches(cfg, s, 2, d1);
    assert s.recent == [Entry(d0, 10), Entry(d1, 6)] && s.counter == 6 && s.files == {0, 1} &&
           s.tasks.Keys == {0, 1, 2};
    WithoutNone(s.recent, d2);
    s := WriteReaches(cfg, s, 3, d2);
  }

  /** A linked file can be evicted before its bytes are counted: two evictions that saw the
      counter over the budget then take it below zero. */
  lemma CounterCanWrap() returns (s: Disk)
    ensures s in Reachable(TightBudget()) && s.files == {2} && s.counter == WIDTH - 4
  {
    var cfg, d0, d1, d2 := TightBudget(), Digest(0, 0), Digest(1, 0), Digest(2, 0);
    s := OverBudget();
    s := PopReaches(cfg, s, 2);
    assert s.recent == [Entry(d1, 6), Entry(d2, 6)];
    s := PopReaches(cfg, s, 3);
    s := UnlinkReaches(cfg, s, 2, Entry(d0, 10));
    assert s.counter == 2 && s.files == {1, 2};
    s := UnlinkReaches(cfg, s, 3, Entry(d1, 6));
  }
}
