/** Shared vocabulary: optional values, results and integer extrema. */
module Prelude {

  const I32_MIN := -2147483648
  const I32_MAX := 2147483647

  /** A 32-bit integer that is not negative. */
  type Count32 = n: nat | n <= I32_MAX

  /** What 32-bit arithmetic without overflow checks makes of a sum. */
  function Wrap32(n: int): (r: int)
    ensures I32_MIN <= r <= I32_MAX && (n - r) % 0x1_0000_0000 == 0
    ensures I32_MIN <= n <= I32_MAX ==> r == n
  {
    (n - I32_MIN) % 0x1_0000_0000 + I32_MIN
  }

  datatype Option<+T> = None | Some(value: T)

  datatype Result<+T, +E> = Ok(value: T) | Err(error: E)

  function Max(a: int, b: int): int {
    if a < b then b else a
  }

  function Min(a: int, b: int): int {
    if a < b then a else b
  }
}

/** Counting the elements of a sequence that satisfy a predicate. */
module Counting {

  function Count<T>(s: seq<T>, p: T -> bool): nat {
    if s == [] then 0 else (if p(s[0]) then 1 else 0) + Count(s[1..], p)
  }

  lemma {:induction false} CountConcat<T>(a: seq<T>, b: seq<T>, p: T -> bool)
    ensures Count(a + b, p) == Count(a, p) + Count(b, p)
  {
    if a == [] {
      assert a + b == b;
    } else {
      CountConcat(a[1..], b, p);
      assert (a + b)[1..] == a[1..] + b;
    }
  }

  lemma {:induction false} CountSplit<T>(s: seq<T>, k: nat, p: T -> bool)
    requires k < |s|
    ensures Count(s, p) == (if p(s[k]) then 1 else 0) + Count(s[..k] + s[k+1..], p)
  {
    CountConcat(s[..k], [s[k]] + s[k+1..], p);
    CountConcat(s[..k], s[k+1..], p);
    assert s == s[..k] + ([s[k]] + s[k+1..]);
  }

  /** A permutation of a non-empty sequence holds its first element somewhere. */
  lemma {:induction false} PermutationStep<T>(a: seq<T>, b: seq<T>) returns (k: nat)
    requires multiset(a) == multiset(b) && a != []
    ensures k < |b| && b[k] == a[0] && multiset(a[1..]) == multiset(b[..k] + b[k+1..])
  {
    assert a[0] in multiset(b);
    k :| 0 <= k < |b| && b[k] == a[0];
    assert a == [a[0]] + a[1..] && b == b[..k] + ([b[k]] + b[k+1..]);
    assert multiset(a[1..]) == multiset(a) - multiset{a[0]} == multiset(b[..k] + b[k+1..]);
  }

  /** Permutations that agree on their first element agree on the rest. */
  lemma {:induction false} PermutationTail<T>(a: seq<T>, b: seq<T>)
    requires multiset(a) == multiset(b) && a != [] && b != [] && a[0] == b[0]
    ensures multiset(a[1..]) == multiset(b[1..])
  {
    assert a == [a[0]] + a[1..] && b == [b[0]] + b[1..];
    assert multiset(a[1..]) == multiset(a) - multiset{a[0]} == multiset(b[1..]);
  }

  /** The order of a sequence does not matter to a count. */
  lemma {:induction false} CountPermutation<T>(a: seq<T>, b: seq<T>, p: T -> bool)
    requires multiset(a) == multiset(b)
    ensures Count(a, p) == Count(b, p)
  {
    if a == [] {
      assert |b| == |multiset(b)| == |multiset(a)| == 0;
    } else {
      var k := PermutationStep(a, b);
      CountPermutation(a[1..], b[..k] + b[k+1..], p);
      CountSplit(b, k, p);
    }
  }

  /** Element by element implication makes the second count at least the first. */
  lemma {:induction false} CountMonotone<T>(a: seq<T>, p: T -> bool, b: seq<T>, q: T -> bool)
    requires |a| == |b|
    requires forall i | 0 <= i < |a| :: p(a[i]) ==> q(b[i])
    ensures Count(a, p) <= Count(b, q)
  {
    if a != [] {
      forall i | 0 <= i < |a[1..]| ensures p(a[1..][i]) ==> q(b[1..][i]) {
        assert a[1..][i] == a[i + 1] && b[1..][i] == b[i + 1];
      }
      CountMonotone(a[1..], p, b[1..], q);
    }
  }

  lemma {:induction false} CountPointwise<T>(a: seq<T>, p: T -> bool, b: seq<T>, q: T -> bool)
    requires |a| == |b|
    requires forall i | 0 <= i < |a| :: p(a[i]) == q(b[i])
    ensures Count(a, p) == Count(b, q)
  {
    CountMonotone(a, p, b, q);
    CountMonotone(b, q, a, p);
  }

  lemma {:induction false} CountBounded<T>(s: seq<T>, p: T -> bool)
    ensures Count(s, p) <= |s|
    ensures Count(s, p) == 0 <==> forall i | 0 <= i < |s| :: !p(s[i])
    ensures Count(s, p) == |s| <==> forall i | 0 <= i < |s| :: p(s[i])
  {
    if s != [] {
      CountBounded(s[1..], p);
      assert s == [s[0]] + s[1..];
    }
  }
}

/** Division by a positive number, rounding down. */
module Division {
  lemma {:induction false} Quotient(a: nat, b: int)
    requires b > 0
    ensures a / b >= 0 && 0 <= a / b * b <= a
  {
    assert a == a / b * b + a % b;
  }

  lemma {:induction false} MultiplesApart(p: int, q: int, b: int)
    requires b > 0 && p > q
    ensures p * b >= q * b + b
  {
    assert (p - q - 1) * b >= 0;
    assert (p - q - 1) * b == p * b - q * b - b;
  }

  lemma {:induction false} QuotientIs(a: int, b: int, q: int, r: int)
    requires b > 0 && a == q * b + r && 0 <= r < b
    ensures a / b == q && a % b == r
  {
    var p, s := a / b, a % b;
    assert a == p * b + s && 0 <= s < b;
    if p > q { MultiplesApart(p, q, b); }
    if p < q { MultiplesApart(q, p, b); }
  }

  /** Taking away whole multiples takes away as much from the quotient and nothing from the remainder. */
  lemma {:induction false} DropMultiples(a: int, k: int, b: int)
    requires b > 0
    ensures (a - k * b) / b == a / b - k && (a - k * b) % b == a % b
  {
    var q, r := a / b, a % b;
    assert a == q * b + r && 0 <= r < b;
    assert a - k * b == (q - k) * b + r by { assert (q - k) * b == q * b - k * b; }
    QuotientIs(a - k * b, b, q - k, r);
  }

  lemma {:induction false} QuotientMonotone(a: int, c: int, b: int)
    requires b > 0 && a <= c
    ensures a / b <= c / b
  {
    assert a == a / b * b + a % b && c == c / b * b + c % b;
    if a / b > c / b { MultiplesApart(a / b, c / b, b); }
  }
}

/** Sums of 32-bit integers. */
module Wrapping {
  import opened Prelude

  /** Wrapping in between does not matter. */
  lemma {:induction false} WrapAdd(a: int, b: int)
    ensures Wrap32(Wrap32(a) + b) == Wrap32(a + b)
  {
    var m := 0x1_0000_0000;
    var q := (a - I32_MIN) / m;
    assert Wrap32(a) == a - q * m;
    var c := a + b - I32_MIN;
    assert Wrap32(Wrap32(a) + b) == (c - q * m) % m + I32_MIN;
    assert (c - q * m) % m == c % m;
  }

  /** A wrapped count that is not negative falls short exactly when it leaves 32 bits. */
  lemma {:induction false} WrapLoses(n: nat)
    ensures Max(Wrap32(n), 0) <= n
    ensures Max(Wrap32(n), 0) == n <==> n <= I32_MAX
  {
  }
}
