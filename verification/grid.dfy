/** Parameter grids: the values of one parameter, and every combination of several. */
module Grid {
  import opened Common

  /** Decimal amounts, in units of the finest step a space uses. */
  datatype ParameterSpec = ParameterSpec(name: Label, minimum: int, maximum: int, step: int, default: int)

  /** The validator of a specification. */
  predicate Coherent(p: ParameterSpec) {
    && p.step > 0
    && p.minimum <= p.maximum
    && p.minimum <= p.default <= p.maximum
    && (p.minimum != p.maximum ==> p.step <= p.maximum - p.minimum)
  }

  function CeilDiv(a: nat, b: nat): nat
    requires b > 0
  {
    (a + b - 1) / b
  }

  predicate StrictlyIncreasing(s: seq<int>) {
    forall i, j :: 0 <= i < j < |s| ==> s[i] < s[j]
  }

  /** Every value the grid tries: both ends, every step between, and nothing further apart than a step. */
  method Values(p: ParameterSpec) returns (out: seq<int>)
    requires Coherent(p)
    ensures out != [] && out[0] == p.minimum && out[|out| - 1] == p.maximum
    ensures StrictlyIncreasing(out)
    ensures forall i :: 0 <= i < |out| - 1 ==> out[i + 1] - out[i] <= p.step
    ensures forall i :: 0 <= i < |out| - 1 ==> out[i] == p.minimum + i * p.step
    ensures |out| == 1 + CeilDiv(p.maximum - p.minimum, p.step)
  {
    out := [];
    var current := p.minimum;
    while current <= p.maximum
      invariant current == p.minimum + |out| * p.step
      invariant out != [] ==> current - p.step <= p.maximum
      invariant forall i :: 0 <= i < |out| ==> out[i] == p.minimum + i * p.step
      decreases p.maximum - current
    {
      assert (|out| + 1) * p.step == |out| * p.step + p.step;
      out := out + [current];
      current := current + p.step;
    }
    StepsIncrease(out, p.minimum, p.step);
    if out != [] {
      var k := |out| - 1;
      assert |out| * p.step == k * p.step + p.step;
      CountOfSteps(p.maximum - p.minimum, p.step, k);
      if out[k] != p.maximum {
        out := out + [p.maximum];
      }
    }
  }

  lemma StepsIncrease(s: seq<int>, base: int, step: int)
    requires step > 0 && forall i :: 0 <= i < |s| ==> s[i] == base + i * step
    ensures StrictlyIncreasing(s)
    ensures forall i :: 0 <= i < |s| - 1 ==> s[i + 1] - s[i] == step
  {
    forall i, j | 0 <= i < j < |s|
      ensures s[i] < s[j]
    {
      MulStep(i, j, step);
    }
    forall i | 0 <= i < |s| - 1
      ensures s[i + 1] - s[i] == step
    {
      assert (i + 1) * step == i * step + step;
    }
  }

  lemma CountOfSteps(range: int, step: int, k: nat)
    requires step > 0 && k * step <= range < k * step + step
    ensures CeilDiv(range, step) == k + if k * step == range then 0 else 1
  {
    if k * step == range {
      QuotientIs(range + step - 1, step, k);
    } else {
      assert (k + 1) * step == k * step + step;
      QuotientIs(range + step - 1, step, k + 1);
    }
  }

  // ------------------------------------------------------------------
  // Combinations
  // ------------------------------------------------------------------

  /** One value per parameter, in parameter order. */
  type Combination = seq<int>

  function Prepended(values: seq<int>, tails: seq<Combination>): seq<Combination> {
    if values == [] then [] else EachWith(values[0], tails) + Prepended(values[1..], tails)
  }

  function EachWith(value: int, tails: seq<Combination>): seq<Combination> {
    if tails == [] then [] else [[value] + tails[0]] + EachWith(value, tails[1..])
  }

  /** Every combination, the last parameter varying fastest. */
  function Product(grids: seq<seq<int>>): seq<Combination> {
    if grids == [] then [[]] else Prepended(grids[0], Product(grids[1..]))
  }

  /** The count the size ceiling is checked against, before anything is generated. */
  method Possible(grids: seq<seq<int>>) returns (n: nat)
    ensures n == |Product(grids)|
  {
    n := 1;
    var i := |grids|;
    assert Product(grids[i..]) == [[]];
    while i > 0
      invariant 0 <= i <= |grids| && n == |Product(grids[i..])|
    {
      i := i - 1;
      assert grids[i..][0] == grids[i] && grids[i..][1..] == grids[i + 1..];
      PrependedSize(grids[i], Product(grids[i + 1..]));
      n := |grids[i]| * n;
    }
    assert grids[0..] == grids;
  }

  lemma {:induction false} EachWithIs(value: int, tails: seq<Combination>)
    ensures |EachWith(value, tails)| == |tails|
    ensures forall i :: 0 <= i < |tails| ==> EachWith(value, tails)[i] == [value] + tails[i]
  {
    if tails != [] {
      EachWithIs(value, tails[1..]);
    }
  }

  lemma {:induction false} PrependedSize(values: seq<int>, tails: seq<Combination>)
    ensures |Prepended(values, tails)| == |values| * |tails|
  {
    if values != [] {
      EachWithIs(values[0], tails);
      PrependedSize(values[1..], tails);
    }
  }

  predicate Fits(c: Combination, grids: seq<seq<int>>) {
    |c| == |grids| && forall i :: 0 <= i < |c| ==> c[i] in grids[i]
  }

  lemma {:induction false} PrependedMembers(values: seq<int>, tails: seq<Combination>, c: Combination)
    ensures c in Prepended(values, tails) <==> c != [] && c[0] in values && c[1..] in tails
  {
    if values != [] {
      EachWithIs(values[0], tails);
      PrependedMembers(values[1..], tails, c);
      assert values == [values[0]] + values[1..];
      if c != [] && c[0] == values[0] && c[1..] in tails {
        var i :| 0 <= i < |tails| && tails[i] == c[1..];
        assert c == [values[0]] + tails[i] == EachWith(values[0], tails)[i];
      }
      if c in EachWith(values[0], tails) {
        var i :| 0 <= i < |tails| && EachWith(values[0], tails)[i] == c;
        assert c[1..] == tails[i];
      }
    }
  }

  /** The search tries exactly the combinations of grid values. */
  lemma {:induction false} ProductIsEveryCombination(grids: seq<seq<int>>, c: Combination)
    ensures c in Product(grids) <==> Fits(c, grids)
    decreases |grids|
  {
    if grids != [] {
      PrependedMembers(grids[0], Product(grids[1..]), c);
      if c != [] {
        ProductIsEveryCombination(grids[1..], c[1..]);
        if Fits(c, grids) {
          assert Fits(c[1..], grids[1..]);
        }
        if c[0] in grids[0] && Fits(c[1..], grids[1..]) {
          assert forall i :: 1 <= i < |c| ==> c[i] == c[1..][i - 1] && grids[i] == grids[1..][i - 1];
        }
      }
    }
  }

  /** Dictionary order of values. */
  predicate LexLess(a: Combination, b: Combination)
    decreases |a|
  {
    b != [] && (a == [] || a[0] < b[0] || (a[0] == b[0] && LexLess(a[1..], b[1..])))
  }

  lemma {:induction false} LexLessIsTotal(a: Combination, b: Combination)
    ensures a == b || LexLess(a, b) || LexLess(b, a)
    ensures !(LexLess(a, b) && LexLess(b, a)) && !LexLess(a, a)
    decreases |a|
  {
    if a != [] {
      LexLessIsTotal(a[1..], if b == [] then [] else b[1..]);
      if b != [] && a[1..] == b[1..] && a[0] == b[0] {
        assert a == [a[0]] + a[1..] && b == [b[0]] + b[1..];
      }
    }
  }

  lemma {:induction false} LexLessIsTransitive(a: Combination, b: Combination, c: Combination)
    requires LexLess(a, b) && LexLess(b, c)
    ensures LexLess(a, c)
    decreases |a|
  {
    if a != [] && a[0] == b[0] == c[0] {
      LexLessIsTransitive(a[1..], b[1..], c[1..]);
    }
  }

  predicate LexSorted(s: seq<Combination>) {
    forall i, j :: 0 <= i < j < |s| ==> LexLess(s[i], s[j])
  }

  lemma {:induction false} PrependedSorted(values: seq<int>, tails: seq<Combination>)
    requires StrictlyIncreasing(values) && LexSorted(tails)
    ensures LexSorted(Prepended(values, tails))
  {
    if values != [] {
      EachWithIs(values[0], tails);
      PrependedSorted(values[1..], tails);
      var first := EachWith(values[0], tails);
      var rest := Prepended(values[1..], tails);
      forall i, j | 0 <= i < j < |first|
        ensures LexLess(first[i], first[j])
      {
        assert first[i][1..] == tails[i] && first[j][1..] == tails[j];
      }
      forall i, j | 0 <= i < |first| && 0 <= j < |rest|
        ensures LexLess(first[i], rest[j])
      {
        assert rest[j] in rest;
        PrependedMembers(values[1..], tails, rest[j]);
        var k :| 0 <= k < |values[1..]| && values[1..][k] == rest[j][0];
        assert values[1 + k] == rest[j][0];
      }
    }
  }

  /** Over increasing grids the combinations come in dictionary order, so none comes twice. */
  lemma {:induction false} ProductIsSorted(grids: seq<seq<int>>)
    requires forall g <- grids :: StrictlyIncreasing(g)
    ensures LexSorted(Product(grids))
    decreases |grids|
  {
    if grids != [] {
      ProductIsSorted(grids[1..]);
      PrependedSorted(grids[0], Product(grids[1..]));
    }
  }
}
