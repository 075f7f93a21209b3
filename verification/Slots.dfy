/** Places in a ring of a given length: stepping on n places is addition modulo the length. */
module Slots {

  /** The slot n places behind slot r. */
  function Ahead(r: nat, n: nat, length: nat): (k: nat)
    requires length > 0
    ensures k < length
  {
    (r + n) % length
  }

  lemma AheadApart(r: nat, i: nat, j: nat, length: nat)
    requires i < j < i + length
    ensures Ahead(r, i, length) != Ahead(r, j, length)
  {
    hide Ahead;
    AheadIs(r, i, length);
    AheadIs(r, j, length);
    var p, q := (r + i) / length, (r + j) / length;
    MulFar(length, q - p);
    assert length * (q - p) == length * q - length * p;
  }

  lemma AheadIs(r: nat, n: nat, length: nat)
    requires length > 0
    ensures r + n == length * ((r + n) / length) + Ahead(r, n, length)
  {
  }

  /** A multiple of n other than 0 is at least n away from 0. */
  lemma MulFar(n: nat, d: int)
    ensures d >= 1 ==> n * d >= n
    ensures d <= -1 ==> n * d <= -(n as int)
    ensures d == 0 ==> n * d == 0
  {
    assert n * d == n + n * (d - 1);
    assert n * d == -(n as int) + n * (d + 1);
  }

  /** Different multiples of n are at least n apart. */
  lemma {:induction false} MultiplesApart(n: nat, j: nat, k: nat)
    requires j < k
    ensures n * j + n <= n * k
  {
    assert n * k == n * (k - 1) + n;
    if j < k - 1 {
      MultiplesApart(n, j, k - 1);
    }
  }

  lemma AheadAgain(r: nat, m: nat, n: nat, length: nat)
    requires length > 0
    ensures Ahead(Ahead(r, m, length), n, length) == Ahead(r, m + n, length)
  {
    var q := (r + m) / length;
    assert r + m == length * q + (r + m) % length;
    ModAdd((r + m) % length + n, q, length);
    assert r + m + n == (r + m) % length + n + length * q;
  }

  lemma {:induction false} ModAdd(a: nat, q: nat, n: nat)
    requires n > 0
    ensures (a + n * q) % n == a % n
  {
    if q > 0 {
      ModAdd(a, q - 1, n);
      assert a + n * q == a + n * (q - 1) + n;
      ModStep(a + n * (q - 1), n);
    }
  }

  lemma ModStep(a: nat, n: nat)
    requires n > 0
    ensures (a + n) % n == a % n
  {
    var q, p := a / n, a % n;
    assert a + n == n * (q + 1) + p;
    ModUnique(a + n, n, q + 1, p);
  }

  lemma ModUnique(x: nat, n: nat, q: nat, p: nat)
    requires n > 0 && p < n && x == n * q + p
    ensures x % n == p && x / n == q
  {
    var d := x / n - q;
    assert x == n * (x / n) + x % n;
    assert n * d == n * (x / n) - n * q;
    MulFar(n, d);
  }

  /** One slot on is the next one, or slot 0 from the last. */
  lemma AheadOne(r: nat, length: nat)
    requires r < length
    ensures Ahead(r, 1, length) == if r + 1 >= length then 0 else r + 1
  {
  }

  /** Adding and then subtracting the length once is the same, for less than two rounds. */
  lemma AheadWraps(r: nat, n: nat, length: nat)
    requires r < length && n <= length
    ensures Ahead(r, n, length) == if r + n >= length then r + n - length else r + n
  {
    if r + n >= length {
      ModUnique(r + n, length, 1, r + n - length);
    } else {
      ModUnique(r + n, length, 0, r + n);
    }
  }
}
