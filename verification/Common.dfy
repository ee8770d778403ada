/** Small shared vocabulary: optional values, the key of quotas and breakers, minima and maxima, and the
    order of strings. */
module Common {

  datatype Option<+T> = None | Some(value: T)

  /** A (user, provider) pair: the scope of every quota, breaker and counter. */
  datatype Key = Key(user: int, provider: string)

  /** The two rolling windows, in seconds. */
  const MINUTE := 60.0
  const DAY := 86400.0

  function MinReal(a: real, b: real): real {
    if a <= b then a else b
  }

  function MaxReal(a: real, b: real): real {
    if a >= b then a else b
  }

  function MinInt(a: int, b: int): int {
    if a <= b then a else b
  }

  function MaxInt(a: int, b: int): int {
    if a >= b then a else b
  }

  /** 2^n. */
  function Pow2(n: nat): (p: nat)
    ensures p >= 1
  {
    if n == 0 then 1 else 2 * Pow2(n - 1)
  }

  /** `a < b` on strings: by the first character that differs, a prefix first. */
  predicate StringLess(a: string, b: string)
    decreases |b|
  {
    b != "" && (a == "" || a[0] < b[0] || (a[0] == b[0] && StringLess(a[1..], b[1..])))
  }

  /** The strings agree up to `n`, where the first one ends or has the smaller character. */
  predicate SmallerAt(a: string, b: string, n: nat) {
    n <= |a| && n < |b| && a[..n] == b[..n] && (n == |a| || a[n] < b[n])
  }

  lemma {:induction false} StringLessIff(a: string, b: string)
    ensures StringLess(a, b) <==> exists n: nat :: SmallerAt(a, b, n)
    decreases |b|
  {
    assert SmallerAt(a, b, 0) <==> b != "" && (a == "" || a[0] < b[0]);
    if a != "" && b != "" {
      StringLessIff(a[1..], b[1..]);
      assert forall n: nat | n <= |a| - 1 && n < |b| - 1 ::
        a[..n + 1] == [a[0]] + a[1..][..n] && b[..n + 1] == [b[0]] + b[1..][..n];
      if a[0] == b[0] {
        if n: nat :| SmallerAt(a[1..], b[1..], n) {
          assert SmallerAt(a, b, n + 1);
        }
        if n: nat :| SmallerAt(a, b, n) {
          assert a[1..][..n - 1] == a[..n][1..] && b[1..][..n - 1] == b[..n][1..];
          assert SmallerAt(a[1..], b[1..], n - 1);
        }
      } else if n: nat :| SmallerAt(a, b, n) {
        assert n == 0;
      }
    }
  }
}
