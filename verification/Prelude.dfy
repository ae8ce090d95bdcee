/** Types and small facts about sequences and maps shared by every module. */
module Prelude {

  datatype Option<+T> = None | Some(value: T)

  /** A SHA-256 value; only equality of hashes matters here. */
  type Hash = nat

  /** `DigestInfo`: a content hash and the size it was declared under. */
  datatype Digest = Digest(hash: Hash, size: int)

  type OperationId = nat

  function Max(a: nat, b: nat): nat {
    if a < b then b else a
  }

  function Min(a: nat, b: nat): nat {
    if a < b then a else b
  }

  function One(b: bool): nat {
    if b then 1 else 0
  }

  /** Always true: the term by which a proof asks what holds after `n` steps, where a
      predicate is stated so that it is not unfolded otherwise. */
  ghost predicate Asked(n: nat) {
    true
  }

  /** A concatenation begins like its first part. */
  lemma ConcatTail<T>(a: seq<T>, b: seq<T>)
    requires a != []
    ensures (a + b)[0] == a[0] && (a + b)[1..] == a[1..] + b
  {
  }

  lemma ConcatAssoc<T>(a: seq<T>, b: seq<T>, c: seq<T>)
    ensures a + (b + c) == a + b + c
  {
  }

  lemma ConcatNone<T>(b: seq<T>)
    ensures [] + b == b
  {
  }

  /** The total of a finite map's values. */
  ghost function SumOf<K(!new)>(m: map<K, nat>): nat {
    if m == map[] then 0 else var k :| k in m; m[k] + SumOf(m - {k})
  }

  lemma {:induction false} SumWithout<K(!new)>(m: map<K, nat>, k: K)
    requires k in m
    ensures SumOf(m) == m[k] + SumOf(m - {k})
    decreases |m|
  {
    var j :| j in m && SumOf(m) == m[j] + SumOf(m - {j});
    if j != k {
      SumWithout(m - {j}, k);
      SumWithout(m - {k}, j);
      assert m - {j} - {k} == m - {k} - {j};
    }
  }

  lemma SumUpdate<K(!new)>(m: map<K, nat>, k: K, v: nat)
    ensures SumOf(m[k := v]) == SumOf(m - {k}) + v
  {
    SumWithout(m[k := v], k);
    assert m[k := v] - {k} == m - {k};
  }
}
