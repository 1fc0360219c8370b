/** Small datatypes shared by every module. */
module Common {

  /** The source's `X | None`. */
  datatype Option<+T> = None | Some(value: T) {
    function GetOr(default: T): T {
      if None? then default else value
    }
  }

  /** A returned value, or the exception the source raises instead. */
  datatype Result<+T, +E> = Ok(value: T) | Err(error: E)

  /** Names that are only ever compared. */
  datatype OrderId = OrderId(text: string)
  datatype ClientId = ClientId(text: string)
  datatype VenueId = VenueId(text: string)
  datatype FillId = FillId(text: string)
  datatype Symbol = Symbol(text: string)
  datatype Label = Label(text: string)

  /** Integers in units of 1e-8, the exponent every stored amount carries. */
  type Money = int

  /** A non-decreasing instant; wall-clock formatting is not part of this model. */
  type Time = int

  function Max(a: int, b: int): int {
    if a < b then b else a
  }

  function Min(a: int, b: int): int {
    if a < b then a else b
  }

  /** Strings in code-point order. */
  predicate StringLeq(a: string, b: string)
    decreases |a|
  {
    a == [] || (b != [] && (a[0] < b[0] || (a[0] == b[0] && StringLeq(a[1..], b[1..]))))
  }

  lemma {:induction false} StringLeqTotal(a: string, b: string)
    ensures StringLeq(a, b) || StringLeq(b, a)
    ensures StringLeq(a, b) && StringLeq(b, a) ==> a == b
    ensures a == b ==> StringLeq(a, b)
    decreases |a|
  {
    if a != [] && b != [] {
      StringLeqTotal(a[1..], b[1..]);
      assert a == [a[0]] + a[1..] && b == [b[0]] + b[1..];
    }
  }

  lemma {:induction false} StringLeqTransitive(a: string, b: string, c: string)
    requires StringLeq(a, b) && StringLeq(b, c)
    ensures StringLeq(a, c)
    decreases |a|
  {
    if a != [] && a[0] == b[0] == c[0] {
      StringLeqTransitive(a[1..], b[1..], c[1..]);
    }
  }

  // ------------------------------------------------------------------
  // Products and quotients
  // ------------------------------------------------------------------

  lemma MulStep(a: int, b: int, d: int)
    requires a < b && d > 0
    ensures a * d + d <= b * d
  {
    var k := b - a - 1;
    assert k * d >= 0;
    assert b * d == (a + 1 + k) * d == a * d + d + k * d;
  }

  lemma MulMonotone(a: int, b: int, d: int)
    requires a <= b && d >= 0
    ensures a * d <= b * d
  {
    assert (b - a) * d >= 0;
  }

  lemma NextMultiple(n: nat, step: nat)
    ensures (n + 1) * step == n * step + step
  {
  }

  lemma QuotientIs(x: int, d: int, q: int)
    requires d > 0 && q * d <= x < q * d + d
    ensures x / d == q
  {
    var k := x / d;
    assert x == k * d + x % d;
    if k < q {
      MulStep(k, q, d);
    } else if q < k {
      MulStep(q, k, d);
    }
  }

  lemma SliceOfPrefix<T>(s: seq<T>, i: nat, j: nat, n: nat)
    requires i <= j <= n <= |s|
    ensures s[i..j] == s[..n][i..j]
  {
  }
}
