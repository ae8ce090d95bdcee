/** The order of strings and of optional strings: by character, absent first. */
module Text {
  import opened Prelude

  predicate Less(a: string, b: string) {
    if b == "" then false
    else if a == "" then true
    else if a[0] != b[0] then a[0] < b[0]
    else Less(a[1..], b[1..])
  }

  lemma {:induction false} LessIsStrict(a: string, b: string)
    ensures !(Less(a, b) && Less(b, a)) && (a == b ==> !Less(a, b))
  {
    if a != "" && b != "" && a[0] == b[0] {
      LessIsStrict(a[1..], b[1..]);
    }
  }

  lemma {:induction false} LessIsTotal(a: string, b: string)
    ensures Less(a, b) || Less(b, a) || a == b
  {
    if a != "" && b != "" && a[0] == b[0] {
      LessIsTotal(a[1..], b[1..]);
      assert a == [a[0]] + a[1..] && b == [b[0]] + b[1..];
    }
  }

  lemma {:induction false} LessIsTransitive(a: string, b: string, c: string)
    requires Less(a, b) && Less(b, c)
    ensures Less(a, c)
  {
    if a != "" && a[0] == b[0] && b[0] == c[0] {
      LessIsTransitive(a[1..], b[1..], c[1..]);
    }
  }

  /** Up to `n` they agree; there `a` ends, or has the smaller character. */
  predicate PartsAt(a: string, b: string, n: nat) {
    n < |b| && n <= |a| && a[..n] == b[..n] && (n == |a| || a[n] < b[n])
  }

  lemma PartsLater(a: string, b: string, n: nat)
    requires PartsAt(a, b, n) && n > 0
    ensures a != "" && b != "" && a[0] == b[0]
  {
    assert a[..n][0] == a[0] && b[..n][0] == b[0];
  }

  /** Less is: a proper prefix, or smaller at the first character that differs. */
  lemma {:induction false} LessIff(a: string, b: string)
    ensures Less(a, b) <==> exists n :: PartsAt(a, b, n)
  {
    forall n: nat | PartsAt(a, b, n) && n > 0 ensures a != "" && b != "" && a[0] == b[0] {
      PartsLater(a, b, n);
    }
    if a == "" || b == "" || a[0] != b[0] {
      assert Less(a, b) <==> PartsAt(a, b, 0);
    } else {
      LessIff(a[1..], b[1..]);
      forall n: nat ensures PartsAt(a[1..], b[1..], n) <==> PartsAt(a, b, n + 1) {
        PartsMore(a, b, n);
      }
      assert !PartsAt(a, b, 0);
      assert forall n: nat :: PartsAt(a, b, n) ==> PartsAt(a[1..], b[1..], n - 1);
    }
  }

  lemma PartsMore(a: string, b: string, n: nat)
    requires a != "" && b != "" && a[0] == b[0]
    ensures PartsAt(a[1..], b[1..], n) <==> PartsAt(a, b, n + 1)
  {
    if n < |b| - 1 && n <= |a| - 1 {
      assert a[..n + 1] == [a[0]] + a[1..][..n] && b[..n + 1] == [b[0]] + b[1..][..n];
      assert a[1..][..n] == a[..n + 1][1..] && b[1..][..n] == b[..n + 1][1..];
    }
  }

  /** `a <= b` as `Option<&str>` compares. */
  predicate AtMost(a: Option<string>, b: Option<string>) {
    a.None? || (b.Some? && !Less(b.value, a.value))
  }

  /** Absent is below everything; present ones compare as strings. */
  lemma AtMostIff(a: Option<string>, b: Option<string>)
    ensures AtMost(a, b) <==> a == None || a == b || (b.Some? && Less(a.value, b.value))
  {
    if a.Some? && b.Some? {
      LessIsTotal(a.value, b.value);
      LessIsStrict(a.value, b.value);
    }
  }

  lemma AtMostIsTotal(a: Option<string>, b: Option<string>)
    ensures AtMost(a, b) || AtMost(b, a)
    ensures AtMost(a, a)
  {
    if a.Some? && b.Some? {
      LessIsStrict(a.value, b.value);
    }
    if a.Some? {
      LessIsStrict(a.value, a.value);
    }
  }

  lemma AtMostIsTransitive(a: Option<string>, b: Option<string>, c: Option<string>)
    requires AtMost(a, b) && AtMost(b, c)
    ensures AtMost(a, c)
  {
    if a.Some? && Less(c.value, a.value) {
      LessIsTotal(a.value, b.value);
      if Less(a.value, b.value) {
        LessIsTransitive(c.value, a.value, b.value);
      }
      assert false;
    }
  }
}
