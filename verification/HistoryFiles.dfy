/** The files under the histories, and the code that reads, migrates and compacts them
    (src/bes/storage.rs). */
module HistoryFiles {
  import opened Prelude
  import opened Aggregates
  import opened Histories
  import opened HistoryOrder

  // ----- The store as it is updated in place -----

  lemma KeptOneMore(history: seq<Execution>, retained: set<string>, i: nat)
    requires i < |history|
    ensures Kept(history[..i + 1], retained) ==
            Kept(history[..i], retained) + if history[i].invocation in retained then [history[i]] else []
  {
    assert history[..i + 1][..i] == history[..i];
  }

  /** `compact_jsonl`: what is written to the file that replaces the old one. */
  method CompactJsonl(history: seq<Execution>, retained: set<string>) returns (kept: seq<Execution>)
    ensures kept == Kept(history, retained)
  {
    kept := [];
    for i := 0 to |history|
      invariant kept == Kept(history[..i], retained)
    {
      KeptOneMore(history, retained, i);
      if history[i].invocation in retained {
        kept := kept + [history[i]];
      }
    }
    assert history[..|history|] == history;
  }

  /** `compact_label_dir`: every label file, in any order; those left empty are deleted. */
  method CompactLabelDir(files: Files, retained: set<string>) returns (left: Files)
    ensures left == CompactedFiles(files, retained)
  {
    left := map[];
    var unread := files.Keys;
    while unread != {}
      invariant unread <= files.Keys && left.Keys <= files.Keys - unread
      invariant forall t :: t in files && t !in unread ==>
                  (t in left <==> Kept(files[t], retained) != []) && (t in left ==> left[t] == Kept(files[t], retained))
      decreases unread
    {
      var t :| t in unread;
      unread := unread - {t};
      var kept := CompactJsonl(files[t], retained);
      if kept != [] {
        left := left[t := kept];
      }
    }
    assert left.Keys == CompactedFiles(files, retained).Keys;
  }

  lemma ScannedOneMore(history: seq<Execution>, i: nat)
    requires i < |history|
    ensures Scanned(history[..i + 1]) == StatsAdd(Scanned(history[..i]), history[i])
  {
    assert history[..i + 1][..i] == history[..i];
  }

  // ----- The store's operations as steps of the log -----

  /** An append under the lock: its three writes. */
  function AppendSteps(ex: Execution): seq<Step> {
    [AppendGlobal(ex), AppendLabel, AppendStats]
  }

  function AppendedTo(s: Log, ex: Execution): Log {
    s.(global := s.global + [ex], labels := Appended(s.labels, ex.target, [ex]), stats := StatsAdd(s.stats, ex))
  }

  lemma ThenAppend(s0: Log, steps: seq<Step>, s: Log, ex: Execution)
    requires s in EndOf(s0, steps) && s.hand.Free?
    ensures AppendedTo(s, ex) in EndOf(s0, steps + AppendSteps(ex))
  {
    var t := Apply(s, AppendGlobal(ex));
    Extend(s0, steps, s, AppendGlobal(ex));
    Extend(s0, steps + [AppendGlobal(ex)], t, AppendLabel);
    Extend(s0, steps + [AppendGlobal(ex)] + [AppendLabel], Apply(t, AppendLabel), AppendStats);
    assert steps + [AppendGlobal(ex)] + [AppendLabel] + [AppendStats] == steps + AppendSteps(ex);
    assert Apply(Apply(t, AppendLabel), AppendStats) == AppendedTo(s, ex);
  }

  function CompactedTo(s: Log, retained: set<string>): Log {
    s.(global := Kept(s.global, retained), labels := CompactedFiles(s.labels, retained),
       stats := Scanned(Kept(s.global, retained)), warm := true)
  }

  lemma ThenCompact(s0: Log, steps: seq<Step>, s: Log, retained: set<string>)
    requires s in EndOf(s0, steps) && s.hand.Free?
    ensures s.ready ==> Apply(s, Compact(retained)) == CompactedTo(s, retained)
    ensures s.ready ==> CompactedTo(s, retained) in EndOf(s0, steps + [Compact(retained)])
  {
    if s.ready {
      Extend(s0, steps, s, Compact(retained));
    }
  }

  /** From `before` to `after` only the migration took steps. */
  predicate MigratedSince(before: seq<Step>, after: seq<Step>) {
    && before <= after
    && forall i :: |before| <= i < |after| ==> after[i].Copy? || after[i].Flush? || after[i].Finish?
  }

  /** A label's records, in its file and then in its buffer. */
  function FiledIn(labels: Files, buffers: Files, t: string): seq<Execution> {
    FileOf(labels, t) + FileOf(buffers, t)
  }

  /** The files and buffers at some moment. */
  datatype Shelf = Shelf(labels: Files, buffers: Files)

  function On(f: Shelf, t: string): seq<Execution> {
    FiledIn(f.labels, f.buffers, t)
  }

  /** From `f` to `g` each label got its records of `part`, in order, and no other. */
  ghost predicate Got(f: Shelf, g: Shelf, part: seq<Execution>) {
    forall t {:trigger On(g, t)} :: On(g, t) == On(f, t) + OfTarget(part, t)
  }

  /** What `f` may have become when it got `part`. */
  ghost function Getting(f: Shelf, part: seq<Execution>): iset<Shelf> {
    iset g: Shelf | Got(f, g, part)
  }

  lemma GotNothing(f: Shelf)
    ensures f in Getting(f, [])
  {
  }

  lemma GotAlso(f: Shelf, g: Shelf, h: Shelf, part: seq<Execution>, more: seq<Execution>)
    requires g in Getting(f, part) && h in Getting(g, more)
    ensures h in Getting(f, part + more)
  {
    forall t ensures On(h, t) == On(f, t) + OfTarget(part + more, t) {
      OfTargetConcat(part, more, t);
      GotAt(On(f, t), OfTarget(part, t), On(g, t), OfTarget(more, t), On(h, t));
    }
  }

  lemma GotAt<T>(f: seq<T>, x: seq<T>, g: seq<T>, y: seq<T>, h: seq<T>)
    requires g == f + x && h == g + y
    ensures h == f + (x + y)
  {
  }

  lemma {:induction false} OfTargetConcat(a: seq<Execution>, b: seq<Execution>, t: string)
    ensures OfTarget(a + b, t) == OfTarget(a, t) + OfTarget(b, t)
    decreases |b|
  {
    if b == [] {
      assert a + b == a;
    } else {
      var init := b[..|b| - 1];
      assert (a + b)[..|a + b| - 1] == a + init && (a + b)[|a + b| - 1] == b[|b| - 1];
      OfTargetConcat(a, init, t);
    }
  }

  lemma GotFlushed(f: Shelf, t: string)
    requires t in f.buffers
    ensures Shelf(Appended(f.labels, t, f.buffers[t]), f.buffers - {t}) in Getting(f, [])
  {
  }

  lemma GotBuffered(f: Shelf, ex: Execution)
    ensures f.(buffers := Appended(f.buffers, ex.target, [ex])) in Getting(f, [ex])
  {
    var g := f.(buffers := Appended(f.buffers, ex.target, [ex]));
    forall t ensures On(g, t) == On(f, t) + OfTarget([ex], t) {
      OfTargetOne(ex, t);
      if t == ex.target {
        ConcatAssoc(FileOf(f.labels, t), FileOf(f.buffers, t), [ex]);
      } else {
        assert On(g, t) == On(f, t);
      }
    }
  }

  lemma OfTargetOne(ex: Execution, t: string)
    ensures OfTarget([ex], t) == if t == ex.target then [ex] else []
  {
    assert [ex][..0] == [];
  }

  /** The migration flushes its buffers when they hold this many bytes. */
  const FLUSH_BYTES: nat := 0x400_0000

  /** The store. `log` is the protocol's view of it, and `trace` the steps that led there from
      `start`: every method moves them along by the steps it takes. */
  class BesStore {
    var global: seq<Execution>
    var labels: Files
    var stats: map<string, Aggregate>
    var labelIndexReady: bool
    // The migration: how many records it is to copy, and its `LabelWriter`.
    const limit: nat
    var buffers: Files
    var buffered: nat
    var migrated: nat
    ghost const start: Log
    ghost var log: Log
    ghost var trace: seq<Step>

    ghost predicate Ok()
      reads this
    {
      && log.global == global && log.labels == labels && log.stats == stats && log.ready == labelIndexReady
      && log.limit == limit && log.buffers == buffers && log.next == migrated && log.hand == Free
    }

    /** The store stands where a run of steps leads. */
    ghost predicate Sound()
      reads this
    {
      Ok() && log in EndOf(start, trace)
    }

    /** Over a global history that was never indexed. */
    constructor (history: seq<Execution>)
      ensures Sound() && log == Opened(history) && trace == []
    {
      global, labels, stats, labelIndexReady, limit := history, map[], map[], false, |history|;
      buffers, buffered, migrated := map[], 0, 0;
      start, log, trace := Opened(history), Opened(history), [];
      Begins(Opened(history));
    }

    /** Over files whose index was finished by an earlier store. */
    constructor Reopen(history: seq<Execution>, files: Files)
      requires Agree(history, files)
      ensures Sound() && log == Reopened(history, files) && trace == []
    {
      global, labels, stats, labelIndexReady, limit := history, files, map[], true, 0;
      buffers, buffered, migrated := map[], 0, 0;
      start, log, trace := Reopened(history, files), Reopened(history, files), [];
      Begins(Reopened(history, files));
    }

    /** Appends an execution to the global and the label history and folds it into its
        aggregate, under one acquisition of the lock: the three steps of an append. */
    method AppendTargetExecution(ex: Execution)
      requires Sound()
      modifies this`global, this`labels, this`stats, this`log, this`trace
      ensures Sound() && log == AppendedTo(old(log), ex) && trace == old(trace) + AppendSteps(ex)
    {
      ThenAppend(start, trace, log, ex);
      global := global + [ex];
      labels := labels[ex.target := FileOf(labels, ex.target) + [ex]];
      var aggregate := if ex.target in stats then stats[ex.target] else NOTHING;
      stats := stats[ex.target := Add(aggregate, ex)];
      log, trace := AppendedTo(log, ex), trace + AppendSteps(ex);
    }

    /** Clears the aggregates and folds the global history anew. */
    method Rescan()
      modifies this`stats
      ensures stats == Scanned(global)
    {
      stats := map[];
      for i := 0 to |global|
        invariant stats == Scanned(global[..i])
      {
        ScannedOneMore(global, i);
        stats := StatsAdd(stats, global[i]);
      }
      assert global[..|global|] == global;
    }

    method ReloadAggregates()
      requires Sound()
      modifies this`stats, this`log, this`trace
      ensures Sound() && log == Apply(old(log), Reload) && trace == old(trace) + [Reload]
    {
      Extend(start, trace, log, Reload);
      Rescan();
      log, trace := Apply(log, Reload), trace + [Reload];
    }

    /** Rewrites the histories to the retained builds and rebuilds the aggregates: one step once
        the index is ready. Before that the label files are left alone. */
    method CompactHistories(retained: set<string>)
      requires Sound()
      modifies this`global, this`labels, this`stats, this`log, this`trace
      ensures global == Kept(old(global), retained) && stats == Scanned(global)
      ensures labelIndexReady ==>
                Sound() && log == Apply(old(log), Compact(retained)) && trace == old(trace) + [Compact(retained)]
      ensures !labelIndexReady ==> labels == old(labels)
    {
      ThenCompact(start, trace, log, retained);
      Rewrite(retained);
      if labelIndexReady {
        log, trace := CompactedTo(log, retained), trace + [Compact(retained)];
      }
    }

    /** The files and the aggregates of the retained builds. */
    method Rewrite(retained: set<string>)
      modifies this`global, this`labels, this`stats
      ensures global == Kept(old(global), retained) && stats == Scanned(global)
      ensures labels == if labelIndexReady then CompactedFiles(old(labels), retained) else old(labels)
    {
      global := CompactJsonl(global, retained);
      if labelIndexReady {
        labels := CompactLabelDir(labels, retained);
      }
      Rescan();
    }

    ghost function Shelved(): Shelf
      reads this
    {
      Shelf(labels, buffers)
    }

    /** One buffer goes to the end of its file. */
    method FlushOne(t: string)
      requires Sound() && !labelIndexReady && t in buffers
      modifies this`labels, this`buffers, this`log, this`trace
      ensures Sound() && log == Apply(old(log), Step.Flush(t)) && trace == old(trace) + [Step.Flush(t)]
      ensures Shelved() in Getting(old(Shelved()), []) && buffers == old(buffers) - {t}
    {
      Extend(start, trace, log, Step.Flush(t));
      GotFlushed(Shelved(), t);
      labels := labels[t := FileOf(labels, t) + buffers[t]];
      buffers := buffers - {t};
      log, trace := Apply(log, Step.Flush(t)), trace + [Step.Flush(t)];
    }

    /** Every buffer, in any order. */
    method FlushAll()
      requires Sound() && !labelIndexReady
      modifies this`labels, this`buffers, this`buffered, this`log, this`trace
      ensures Sound() && MigratedSince(old(trace), trace) && buffers == map[] &&
              Shelved() in Getting(old(Shelved()), [])
    {
      buffered := 0;
      GotNothing(Shelved());
      while buffers != map[]
        invariant Sound() && MigratedSince(old(trace), trace) && Shelved() in Getting(old(Shelved()), [])
        decreases |buffers|
      {
        var t :| t in buffers;
        ghost var before := Shelved();
        FlushOne(t);
        GotAlso(old(Shelved()), before, Shelved(), [], []);
      }
    }

    /** Buffers the next record of the global history. */
    method CopyOne()
      requires Sound() && !labelIndexReady && migrated < limit <= |global|
      modifies this`buffers, this`migrated, this`log, this`trace
      ensures Sound() && log == Apply(old(log), Copy) && trace == old(trace) + [Copy]
      ensures migrated == old(migrated) + 1 && Shelved() in Getting(old(Shelved()), [global[old(migrated)]])
    {
      Extend(start, trace, log, Copy);
      var ex := global[migrated];
      GotBuffered(Shelved(), ex);
      buffers := buffers[ex.target := FileOf(buffers, ex.target) + [ex]];
      migrated := migrated + 1;
      log, trace := Apply(log, Copy), trace + [Copy];
    }

    /** The same for a record of `bytes` bytes, flushing when the buffers are full. */
    method Push(bytes: nat)
      requires Sound() && !labelIndexReady && migrated < limit <= |global|
      modifies this`labels, this`buffers, this`buffered, this`migrated, this`log, this`trace
      ensures Sound() && MigratedSince(old(trace), trace)
      ensures migrated == old(migrated) + 1 && Shelved() in Getting(old(Shelved()), [global[old(migrated)]])
    {
      CopyOne();
      buffered := buffered + bytes + 1;
      if buffered >= FLUSH_BYTES {
        ghost var before := Shelved();
        FlushAll();
        GotAlso(old(Shelved()), before, Shelved(), [global[old(migrated)]], []);
        assert [global[old(migrated)]] + [] == [global[old(migrated)]];
      }
    }

    /** The records still to copy, `sizes` holding the bytes of each line. */
    method CopyRest(sizes: seq<nat>)
      requires Sound() && !labelIndexReady && migrated <= limit <= |global| == |sizes|
      modifies this`labels, this`buffers, this`buffered, this`migrated, this`log, this`trace
      ensures Sound() && MigratedSince(old(trace), trace) && migrated == limit
      ensures Shelved() in Getting(old(Shelved()), global[old(migrated)..limit])
    {
      ghost var m, part: seq<Execution> := migrated, [];
      GotNothing(Shelved());
      while migrated < limit
        invariant Sound() && MigratedSince(old(trace), trace)
        invariant m <= migrated <= limit && part == global[m..migrated] && Shelved() in Getting(old(Shelved()), part)
      {
        ghost var before, ex := Shelved(), global[migrated];
        Push(sizes[migrated]);
        GotAlso(old(Shelved()), before, Shelved(), part, [ex]);
        part := part + [ex];
      }
    }

    /** The index is marked ready. */
    method Conclude()
      requires Sound() && !labelIndexReady && migrated == limit && buffers == map[]
      modifies this`labelIndexReady, this`log, this`trace
      ensures Sound() && labelIndexReady && log == Apply(old(log), Finish) && trace == old(trace) + [Finish]
    {
      Extend(start, trace, log, Finish);
      labelIndexReady := true;
      log, trace := Apply(log, Finish), trace + [Finish];
    }

    /** Copies the records the global history held when the store was opened to their label
        files. Undisturbed, each label file ends with the records of its label in the order of
        the global history. */
    method MigrateLabelIndex(sizes: seq<nat>) returns (records: nat)
      requires Sound() && !labelIndexReady && |sizes| == |global|
      modifies this`labels, this`buffers, this`buffered, this`migrated, this`labelIndexReady, this`log, this`trace
      ensures Sound() && labelIndexReady && MigratedSince(old(trace), trace)
      ensures old(migrated) <= records == limit <= |global| && buffers == map[]
      ensures Shelved() in Getting(old(Shelved()), global[old(migrated)..limit])
    {
      EndHolds(start, trace, log);
      CopyRest(sizes);
      ghost var before := Shelved();
      FlushAll();
      GotAlso(old(Shelved()), before, Shelved(), global[old(migrated)..limit], []);
      assert global[old(migrated)..limit] + [] == global[old(migrated)..limit];
      Conclude();
      records := migrated;
    }

    /** The records of one label in the global history. */
    method ScanFor(name: string) returns (found: seq<Execution>)
      ensures found == OfTarget(global, name)
    {
      found := [];
      for i := 0 to |global|
        invariant found == OfTarget(global[..i], name)
      {
        assert global[..i + 1][..i] == global[..i];
        if global[i].target == name {
          found := found + [global[i]];
        }
      }
      assert global[..|global|] == global;
    }

    /** Every record of one label, oldest build first: from its file once the index is ready, else
        from the global history; none if the label has no aggregate. */
    method GetTargetHistory(name: string) returns (found: seq<Execution>)
      requires Sound()
      ensures OldestFirst(found) && (log.warm ==> multiset(found) == multiset(OfTarget(global, name)))
    {
      EndHolds(start, trace, log);
      ScannedIsFold(global, name);
      if name !in stats {
        return [];
      }
      var records;
      if labelIndexReady {
        FilesOfInv(log, name);
        records := FileOf(labels, name);
      } else {
        records := ScanFor(name);
      }
      found := SortByBuild(records);
    }
  }

  /** What holds in every run holds of a store between any two of its calls. */
  lemma StoreAgrees(store: BesStore, t: string)
    requires store.Sound()
    ensures store.labelIndexReady ==> multiset(FileOf(store.labels, t)) == multiset(OfTarget(store.global, t))
    ensures store.log.warm ==> (t in store.stats <==> OfTarget(store.global, t) != [])
    ensures store.log.warm && t in store.stats ==> store.stats[t] == Fold(OfTarget(store.global, t))
  {
    EndHolds(store.start, store.trace, store.log);
    ScannedIsFold(store.global, t);
    if store.labelIndexReady {
      FilesOfInv(store.log, t);
    }
  }
}
