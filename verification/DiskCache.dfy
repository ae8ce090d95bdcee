/** The disk tier of the Action Cache, one call at a time (src/cache/disk_action_cache.rs). */
module DiskCache {
  import opened Prelude
  import opened Lru

  /** What the file system lets a `put` do; `unlinks` says which victims can be deleted. */
  datatype Disk = StatFails | WriteFails | LinkFails | Works(unlinks: nat -> bool)

  function Hashes(r: seq<Entry>): set<Hash> {
    set e | e in r :: e.digest.hash
  }

  /** Every entry of `r` has its file, of its size, and no two share one. */
  ghost predicate Tracks(r: seq<Entry>, files: map<Hash, nat>) {
    && (forall i :: 0 <= i < |r| ==> r[i].digest.hash in files && files[r[i].digest.hash] == r[i].size)
    && (forall i, j :: 0 <= i < j < |r| ==> r[i].digest.hash != r[j].digest.hash)
  }

  lemma TracksTail(r: seq<Entry>, files: map<Hash, nat>)
    requires r != [] && Tracks(r, files)
    ensures Tracks(r[1..], files) && Tracks(r[1..], files - {r[0].digest.hash})
    ensures Hashes(r[1..]) == Hashes(r) - {r[0].digest.hash}
  {
    assert r == [r[0]] + r[1..];
    forall e | e in r[1..] ensures e.digest.hash != r[0].digest.hash {
      var i :| 0 <= i < |r[1..]| && r[1..][i] == e;
      assert r[i + 1] == e;
    }
  }

  /** With no file left over, the bytes tracked are the bytes on disk. */
  lemma {:induction false} TrackedBytes(r: seq<Entry>, files: map<Hash, nat>)
    requires Tracks(r, files) && files.Keys == Hashes(r)
    ensures SumOf(files) == Total(r)
  {
    if r == [] {
      assert files == map[];
    } else {
      SumWithout(files, r[0].digest.hash);
      TracksTail(r, files);
      TrackedBytes(r[1..], files - {r[0].digest.hash});
    }
  }

  /** No other key of the hash of `d` is listed. */
  ghost predicate OnlyKey(r: seq<Entry>, d: Digest) {
    forall e :: e in r && e.digest.hash == d.hash ==> e.digest == d
  }

  lemma TracksMore(e: Entry, rest: seq<Entry>, files: map<Hash, nat>)
    requires Tracks(rest, files) && e.digest.hash in files && files[e.digest.hash] == e.size
    requires e.digest.hash !in Hashes(rest)
    ensures Tracks([e] + rest, files) && Hashes([e] + rest) == Hashes(rest) + {e.digest.hash}
  {
    forall i | 0 <= i < |rest| ensures rest[i].digest.hash != e.digest.hash {
      assert rest[i].digest.hash in Hashes(rest);
    }
  }

  lemma {:induction false} WithoutTracks(r: seq<Entry>, files: map<Hash, nat>, d: Digest)
    requires Tracks(r, files) && OnlyKey(r, d)
    ensures Tracks(Without(r, d), files) && Hashes(Without(r, d)) == Hashes(r) - {d.hash}
  {
    if r != [] {
      var e, rest := r[0], r[1..];
      TracksTail(r, files);
      WithoutTracks(rest, files, d);
      assert r == [e] + rest && e in r;
      assert Hashes(r) == Hashes(rest) + {e.digest.hash};
      if e.digest != d {
        TracksMore(e, Without(rest, d), files);
        assert Without(r, d) == [e] + Without(rest, d);
      } else {
        assert Without(r, d) == Without(rest, d);
      }
    }
  }

  lemma {:induction false} WithoutIsPart(r: seq<Entry>, d: Digest)
    ensures forall e :: e in Without(r, d) ==> e in r
  {
    if r != [] {
      WithoutIsPart(r[1..], d);
    }
  }

  lemma TouchTracks(r: seq<Entry>, files: map<Hash, nat>, d: Digest)
    requires Tracks(r, files) && OnlyKey(r, d) && d.hash in files
    ensures Tracks(Without(r, d) + [Entry(d, files[d.hash])], files)
    ensures Hashes(Without(r, d) + [Entry(d, files[d.hash])]) == Hashes(r) + {d.hash}
  {
    WithoutTracks(r, files, d);
    var w := Without(r, d);
    assert Hashes(w + [Entry(d, files[d.hash])]) == Hashes(w) + {d.hash};
    forall i | 0 <= i < |w| ensures w[i].digest.hash != d.hash {
      assert w[i].digest.hash in Hashes(w);
    }
  }

  /** A hash with no file is tracked under no key. */
  lemma UnfiledIsOnlyKey(r: seq<Entry>, files: map<Hash, nat>, d: Digest)
    requires Tracks(r, files) && d.hash !in files
    ensures OnlyKey(r, d)
  {
    forall e | e in r ensures e.digest.hash != d.hash {
      var i :| 0 <= i < |r| && r[i] == e;
    }
  }

  /** Touching a second key of a tracked hash lists its file twice. */
  lemma TouchShares(r: seq<Entry>, files: map<Hash, nat>, d: Digest)
    requires Tracks(r, files) && !OnlyKey(r, d) && d.hash in files
    ensures !Tracks(Without(r, d) + [Entry(d, files[d.hash])], files)
    ensures Hashes(Without(r, d) + [Entry(d, files[d.hash])]) == Hashes(r)
  {
    var e :| e in r && e.digest.hash == d.hash && e.digest != d;
    var w, last := Without(r, d), Entry(d, files[d.hash]);
    WithoutHas(r, d);
    WithoutIsPart(r, d);
    var i :| 0 <= i < |w| && w[i] == e;
    assert (w + [last])[i].digest.hash == (w + [last])[|w|].digest.hash;
    forall h | h in Hashes(r) ensures h in Hashes(w + [last]) {
      var f :| f in r && f.digest.hash == h;
      assert f in w || f.digest == d;
      assert last in w + [last];
    }
    assert e.digest.hash in Hashes(r);
  }

  lemma {:induction false} WithoutHas(r: seq<Entry>, d: Digest)
    ensures forall e :: e in r && e.digest != d ==> e in Without(r, d)
  {
    if r != [] {
      WithoutHas(r[1..], d);
      assert r == [r[0]] + r[1..];
    }
  }

  lemma StillShort(r: seq<Entry>, n: nat, gone: seq<Entry>, k: nat)
    requires Evicts(r, n, gone) && k < |gone|
    ensures Total(r[..k]) < n
  {
    assert gone[..k] == r[..k];
  }

  /** Evicting what is over the budget spares the last entry, if it fits the budget alone. */
  lemma SparesTheLast(r: seq<Entry>, last: Entry, max: nat, gone: seq<Entry>)
    requires last.size <= max < Total(r + [last]) && Evicts(r + [last], Total(r + [last]) - max, gone)
    ensures gone <= r && Total(r + [last]) - Total(gone) <= max
  {
    TotalConcat(r, [last]);
    assert (r + [last])[..|r|] == r;
    if |r| < |gone| {
      StillShort(r + [last], Total(r + [last]) - max, gone, |r|);
      assert false;
    }
    assert gone == (r + [last])[..|gone|];
  }

  /** What remains tracked whether or not the next victim's file goes. */
  lemma NextVictim(victims: seq<Entry>, i: nat, r: seq<Entry>, files: map<Hash, nat>)
    requires i < |victims| && Tracks(victims[i..] + r, files)
    ensures victims[i].digest.hash in files && files[victims[i].digest.hash] == victims[i].size
    ensures Tracks(victims[i + 1..] + r, files) && Tracks(victims[i + 1..] + r, files - {victims[i].digest.hash})
  {
    var all := victims[i..] + r;
    assert all[0] == victims[i] && all[1..] == victims[i + 1..] + r;
    TracksTail(all, files);
  }

  class DiskActionCache {
    const maxSizeBytes: nat
    const lru: LruState
    /** Published files by the hash in their path. */
    var files: map<Hash, nat>
    var currentSizeBytes: nat

    /** The accounted bytes are those on disk and every tracked entry has its file. */
    ghost predicate Ok()
      reads this, lru
    {
      lru.Ok() && Tracks(lru.Recency(), files) && currentSizeBytes == SumOf(files)
    }

    /** No file is left over: each one is tracked. */
    ghost predicate Complete()
      reads this, lru
    {
      files.Keys == Hashes(lru.Recency())
    }

    ghost predicate WithinBudget()
      reads this
    {
      maxSizeBytes > 0 ==> currentSizeBytes <= maxSizeBytes
    }

    constructor (maxSizeBytes: nat)
      ensures Ok() && Complete() && WithinBudget() && this.maxSizeBytes == maxSizeBytes && fresh(lru)
      ensures files == map[] && lru.Recency() == []
    {
      this.maxSizeBytes := maxSizeBytes;
      lru := new LruState();
      files, currentSizeBytes := map[], 0;
    }

    /** Deletes the victims' files and subtracts those that went. */
    method Unlink(victims: seq<Entry>, unlinks: nat -> bool)
      requires lru.Ok() && Tracks(victims + lru.Recency(), files) && currentSizeBytes == SumOf(files)
      modifies this`files, this`currentSizeBytes
      ensures Ok() && files == LeftAfter(old(files), victims, unlinks, |victims|)
    {
      var i := 0;
      ghost var r := lru.Recency();
      assert victims[0..] == victims;
      while i < |victims|
        invariant 0 <= i <= |victims|
        invariant Tracks(victims[i..] + r, files) && currentSizeBytes == SumOf(files)
        invariant files == LeftAfter(old(files), victims, unlinks, i)
      {
        var victim := victims[i];
        NextVictim(victims, i, r, files);
        if unlinks(i) {
          SumWithout(files, victim.digest.hash);
          files := files - {victim.digest.hash};
          currentSizeBytes := currentSizeBytes - victim.size;
        }
        i := i + 1;
      }
      assert victims[i..] + r == r;
    }

    method EvictIfNeeded(unlinks: nat -> bool)
      requires Ok()
      modifies this`files, this`currentSizeBytes, lru
      ensures Ok()
      ensures old(Complete()) && (forall i :: unlinks(i)) ==> Complete() && WithinBudget()
      ensures old(Complete()) && FitsAlone(old(lru.Recency()), maxSizeBytes) ==>
                var last := old(lru.Recency())[|old(lru.Recency())| - 1];
                last in lru.Recency() && last.digest.hash in files
      ensures forall e :: e in lru.Recency() ==> e in old(lru.Recency())
    {
      if maxSizeBytes == 0 {
        return;
      }
      var current := currentSizeBytes;
      if current <= maxSizeBytes {
        return;
      }
      ghost var before, all := files, old(Complete());
      var victims := lru.Evict(current - maxSizeBytes);
      Unlink(victims, unlinks);
      LeftAfterAll(before, victims, unlinks, |victims|);
      assert victims[..|victims|] == victims;
      if all && forall i :: unlinks(i) {
        EvictedWithin(before, maxSizeBytes, victims, lru.Recency(), files);
      }
      if all && FitsAlone(old(lru.Recency()), maxSizeBytes) {
        LastIsSpared(before, maxSizeBytes, victims, lru.Recency());
      }
    }

    /** The accounted bytes are those on disk, whatever the list says. */
    ghost predicate Accounted()
      reads this, lru
    {
      lru.Ok() && currentSizeBytes == SumOf(files)
    }

    /** Stores an encoded result of `size` bytes for `d`; true if this call published it. With every
        victim deletable the disk stays within budget, and a published entry is never evicted by
        its own write. A second key of a tracked hash publishes nothing and leaves the bytes alone,
        but then two entries share a file. */
    method Put(d: Digest, size: nat, disk: Disk) returns (published: bool)
      requires Ok()
      modifies this`files, this`currentSizeBytes, lru
      ensures Accounted() && (Ok() <==> disk.StatFails? || OnlyKey(old(lru.Recency()), d))
      ensures published <==> disk.Works? && d.hash !in old(files) && (maxSizeBytes > 0 ==> size <= maxSizeBytes)
      ensures old(Complete()) && (disk.Works? ==> forall i :: disk.unlinks(i)) ==> Complete()
      ensures old(Complete()) && old(WithinBudget()) && (disk.Works? ==> forall i :: disk.unlinks(i)) ==> WithinBudget()
      ensures old(Complete()) && published ==> d.hash in files && Entry(d, size) in lru.Recency()
      ensures !published ==> files == old(files) && currentSizeBytes == old(currentSizeBytes)
      ensures forall e :: e in lru.Recency() ==> e in old(lru.Recency()) || e.digest == d
    {
      if disk.StatFails? {
        return false;
      }
      if d.hash in files {
        TouchExisting(d);
        return false;
      }
      UnfiledIsOnlyKey(lru.Recency(), files, d);
      published := PutNew(d, size, disk);
    }

    /** The same of a result that has no file. */
    method PutNew(d: Digest, size: nat, disk: Disk) returns (published: bool)
      requires Ok() && OnlyKey(lru.Recency(), d) && d.hash !in files && !disk.StatFails?
      modifies this`files, this`currentSizeBytes, lru
      ensures Ok() && (published <==> disk.Works? && (maxSizeBytes > 0 ==> size <= maxSizeBytes))
      ensures old(Complete()) && (disk.Works? ==> forall i :: disk.unlinks(i)) ==> Complete()
      ensures old(Complete()) && old(WithinBudget()) && (disk.Works? ==> forall i :: disk.unlinks(i)) ==> WithinBudget()
      ensures old(Complete()) && published ==> d.hash in files && Entry(d, size) in lru.Recency()
      ensures !published ==> files == old(files) && currentSizeBytes == old(currentSizeBytes)
      ensures forall e :: e in lru.Recency() ==> e in old(lru.Recency()) || e.digest == d
    {
      if maxSizeBytes > 0 && size > maxSizeBytes {
        return false;
      }
      if disk.WriteFails? || disk.LinkFails? {
        return false;
      }
      Publish(d, size);
      EvictIfNeeded(disk.unlinks);
      published := true;
    }

    method TouchExisting(d: Digest)
      requires Ok() && d.hash in files
      modifies lru
      ensures Accounted() && (Ok() <==> OnlyKey(old(lru.Recency()), d)) && (old(Complete()) ==> Complete())
      ensures forall e :: e in lru.Recency() ==> e in old(lru.Recency()) || e.digest == d
    {
      if OnlyKey(lru.Recency(), d) {
        TouchTracks(lru.Recency(), files, d);
      } else {
        TouchShares(lru.Recency(), files, d);
      }
      WithoutIsPart(lru.Recency(), d);
      lru.Touch(d, files[d.hash]);
    }

    method Publish(d: Digest, size: nat)
      requires Ok() && OnlyKey(lru.Recency(), d) && d.hash !in files
      modifies this`files, this`currentSizeBytes, lru
      ensures Ok() && files == old(files)[d.hash := size]
      ensures old(Complete()) ==> Complete()
      ensures lru.Recency() != [] && lru.Recency()[|lru.Recency()| - 1] == Entry(d, size)
      ensures forall e :: e in lru.Recency() ==> e in old(lru.Recency()) || e.digest == d
    {
      WithoutIsPart(lru.Recency(), d);
      SumUpdate(files, d.hash, size);
      assert files - {d.hash} == files;
      files := files[d.hash := size];
      currentSizeBytes := currentSizeBytes + size;
      TouchTracks(lru.Recency(), files, d);
      lru.Touch(d, size);
    }
  }

  /** The files left when the first `n` victims were unlinked, where they could be. */
  function LeftAfter(files: map<Hash, nat>, victims: seq<Entry>, unlinks: nat -> bool, n: nat): map<Hash, nat>
    requires n <= |victims|
  {
    if n == 0 then files
    else
      var m := LeftAfter(files, victims, unlinks, n - 1);
      if unlinks(n - 1) then m - {victims[n - 1].digest.hash} else m
  }

  lemma {:induction false} LeftAfterAll(files: map<Hash, nat>, victims: seq<Entry>, unlinks: nat -> bool, n: nat)
    requires n <= |victims|
    ensures forall h :: h in files && h !in Hashes(victims[..n]) ==> h in LeftAfter(files, victims, unlinks, n)
    ensures (forall i :: unlinks(i)) ==> LeftAfter(files, victims, unlinks, n).Keys == files.Keys - Hashes(victims[..n])
  {
    if n == 0 {
      assert victims[..0] == [];
    } else {
      LeftAfterAll(files, victims, unlinks, n - 1);
      assert victims[..n] == victims[..n - 1] + [victims[n - 1]];
      assert Hashes(victims[..n]) == Hashes(victims[..n - 1]) + {victims[n - 1].digest.hash};
    }
  }

  /** The last entry is no larger than the whole budget. */
  predicate FitsAlone(r: seq<Entry>, max: nat) {
    r != [] && (max > 0 ==> r[|r| - 1].size <= max)
  }

  lemma SplitHashes(victims: seq<Entry>, rest: seq<Entry>, files: map<Hash, nat>)
    requires Tracks(victims + rest, files)
    ensures Hashes(victims + rest) == Hashes(victims) + Hashes(rest) && Hashes(victims) !! Hashes(rest)
  {
    var r := victims + rest;
    forall e, f | e in victims && f in rest ensures e.digest.hash != f.digest.hash {
      var i :| 0 <= i < |victims| && victims[i] == e;
      var j :| 0 <= j < |rest| && rest[j] == f;
      assert r[i] == e && r[|victims| + j] == f;
    }
  }

  /** All victims deleted: the budget holds and no file is left over. */
  lemma EvictedWithin(files: map<Hash, nat>, max: nat, victims: seq<Entry>, rest: seq<Entry>, left: map<Hash, nat>)
    requires Tracks(victims + rest, files) && files.Keys == Hashes(victims + rest) && SumOf(files) > max
    requires Evicts(victims + rest, SumOf(files) - max, victims) && Tracks(rest, left) &&
             left.Keys == files.Keys - Hashes(victims)
    ensures left.Keys == Hashes(rest) && SumOf(left) <= max
  {
    SplitHashes(victims, rest, files);
    TrackedBytes(victims + rest, files);
    TrackedBytes(rest, left);
    TotalConcat(victims, rest);
  }

  /** The entry just written is not among its own victims. */
  lemma LastIsSpared(files: map<Hash, nat>, max: nat, victims: seq<Entry>, rest: seq<Entry>)
    requires Tracks(victims + rest, files) && files.Keys == Hashes(victims + rest) && SumOf(files) > max > 0
    requires Evicts(victims + rest, SumOf(files) - max, victims) && FitsAlone(victims + rest, max)
    ensures (victims + rest)[|victims + rest| - 1] in rest
    ensures (victims + rest)[|victims + rest| - 1].digest.hash !in Hashes(victims)
  {
    var before := victims + rest;
    var r, last := before[..|before| - 1], before[|before| - 1];
    assert before == r + [last];
    TrackedBytes(before, files);
    SparesTheLast(r, last, max, victims);
    assert rest[|rest| - 1] == last;
    SplitHashes(victims, rest, files);
  }

  /** One encoded result to be stored. */
  datatype Write = Write(digest: Digest, size: nat)

  /** No hash is written under two keys. */
  ghost predicate OneKeyPerHash(writes: seq<Write>) {
    forall i, j :: 0 <= i < |writes| && 0 <= j < |writes| && writes[i].digest.hash == writes[j].digest.hash ==>
      writes[i].digest == writes[j].digest
  }

  /** Every entry was written by one of the first `n` writes. */
  ghost predicate Written(r: seq<Entry>, writes: seq<Write>, n: nat)
    requires n <= |writes|
  {
    forall e :: e in r ==> exists i :: 0 <= i < n && writes[i].digest == e.digest
  }

  lemma NextIsOnlyKey(r: seq<Entry>, writes: seq<Write>, n: nat)
    requires n < |writes| && OneKeyPerHash(writes) && Written(r, writes, n)
    ensures OnlyKey(r, writes[n].digest)
  {
  }

  lemma WrittenMore(r: seq<Entry>, after: seq<Entry>, writes: seq<Write>, n: nat)
    requires n < |writes| && Written(r, writes, n) && forall e :: e in after ==> e in r || e.digest == writes[n].digest
    ensures Written(after, writes, n + 1)
  {
  }

  /** The accounting, the budget and what is tracked, after the first `n` writes. */
  ghost predicate InBudget(cache: DiskActionCache, writes: seq<Write>, n: nat)
    requires n <= |writes|
    reads cache, cache.lru
  {
    cache.Ok() && cache.Complete() && cache.WithinBudget() && Written(cache.lru.Recency(), writes, n)
  }

  /** `InBudget`, seen by a proof only when it asks. */
  ghost predicate AfterWrites(cache: DiskActionCache, writes: seq<Write>, n: nat)
    requires n <= |writes|
    reads cache, cache.lru
  {
    forall k: nat {:trigger Asked(k)} :: k == n ==> InBudget(cache, writes, n)
  }

  /** One write more keeps it. */
  method WriteNext(cache: DiskActionCache, writes: seq<Write>, n: nat) returns (published: bool)
    requires n < |writes| && OneKeyPerHash(writes) && AfterWrites(cache, writes, n)
    modifies cache`files, cache`currentSizeBytes, cache.lru
    ensures AfterWrites(cache, writes, n + 1)
    ensures published ==>
              writes[n].digest.hash in cache.files &&
              (cache.maxSizeBytes > 0 ==> writes[n].size <= cache.maxSizeBytes)
  {
    assert Asked(n);
    NextIsOnlyKey(cache.lru.Recency(), writes, n);
    ghost var before := cache.lru.Recency();
    var disk := Works(i => true);
    assert forall i :: disk.unlinks(i);
    published := cache.Put(writes[n].digest, writes[n].size, disk);
    WrittenMore(before, cache.lru.Recency(), writes, n);
    assert InBudget(cache, writes, n + 1);
  }

  /** Any sequence of writes from an empty cache, where files can be written and deleted:
      the disk is within its budget after each of them, and what each published is there. */
  method WriteAll(maxSizeBytes: nat, writes: seq<Write>) returns (cache: DiskActionCache, kept: seq<bool>)
    requires OneKeyPerHash(writes)
    ensures fresh(cache) && cache.Ok() && cache.Complete() && cache.WithinBudget()
    ensures |kept| == |writes| && (writes != [] && kept[|writes| - 1] ==>
            writes[|writes| - 1].digest.hash in cache.files)
    ensures forall i :: 0 <= i < |writes| && maxSizeBytes > 0 && writes[i].size > maxSizeBytes ==> !kept[i]
  {
    cache := new DiskActionCache(maxSizeBytes);
    kept := [];
    assert InBudget(cache, writes, 0);
    for n := 0 to |writes|
      invariant fresh(cache) && fresh(cache.lru) && cache.maxSizeBytes == maxSizeBytes && AfterWrites(cache, writes, n)
      invariant |kept| == n && (n > 0 && kept[n - 1] ==> writes[n - 1].digest.hash in cache.files)
      invariant forall i :: 0 <= i < n && maxSizeBytes > 0 && writes[i].size > maxSizeBytes ==> !kept[i]
    {
      var published := WriteNext(cache, writes, n);
      kept := kept + [published];
    }
    assert Asked(|writes|);
  }
}
