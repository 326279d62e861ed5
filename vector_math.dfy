/**
  Stateless vector algebra over point-like values. No operation here changes
  an argument: the arguments are `Pt` values, and the vectors `Sum` and
  `Average` return are freshly allocated.
 */
module VectorMath {
  import opened Vectors

  /** The dot product p1.x*p2.x + p1.y*p2.y; a point dotted with itself gives its squared length. */
  function Dot(p1: Pt, p2: Pt): (r: real)
    ensures p1 == p2 ==> r == LengthSq(p1)
  {
    p1.x * p2.x + p1.y * p2.y
  }

  /** The coordinates of the new vector p1 - p2: adding p2 back gives p1. */
  function Subtract(p1: Pt, p2: Pt): (r: Pt)
    ensures Plus(r, p2) == p1
  {
    Pt(p1.x - p2.x, p1.y - p2.y)
  }

  /** The coordinates of the new vector p * k: its squared length is k*k times p's. */
  function Scale(p: Pt, k: real): (r: Pt)
    ensures LengthSq(r) == k * k * LengthSq(p)
  {
    LengthSqScaled(p, k);
    Pt(p.x * k, p.y * k)
  }

  /** The squared distance between two points: never negative, and zero when they coincide. */
  function DistanceBetweenSq(p1: Pt, p2: Pt): (r: real)
    ensures r >= 0.0
    ensures p1 == p2 ==> r == 0.0
  {
    LengthSq(Subtract(p1, p2))
  }

  /** Componentwise addition, the step of the fold that defines `SumOf`. */
  function Plus(p: Pt, q: Pt): (r: Pt)
  {
    Pt(p.x + q.x, p.y + q.y)
  }

  /** The componentwise sum of a sequence of points; (0, 0) for the empty sequence. */
  function SumOf(ps: seq<Pt>): (r: Pt)
  {
    if ps == [] then Origin else Plus(ps[0], SumOf(ps[1..]))
  }

  /** The average of a non-empty sequence: its sum scaled by 1/n. */
  function AverageOf(ps: seq<Pt>): (r: Pt)
    requires |ps| > 0
  {
    Scale(SumOf(ps), 1.0 / (|ps| as real))
  }

  /** `sum(p...)`: accumulates the coordinates in `sumX`, `sumY` and returns a new vector. */
  method Sum(ps: seq<Pt>) returns (v: Vector2D)
    ensures fresh(v)
    ensures v.Loc() == SumOf(ps)
  {
    var sumX, sumY := 0.0, 0.0;
    for i := 0 to |ps|
      invariant Pt(sumX, sumY) == SumOf(ps[..i])
    {
      SumOfAppend(ps[..i], ps[i]);
      assert ps[..i + 1] == ps[..i] + [ps[i]];
      sumX := sumX + ps[i].x;
      sumY := sumY + ps[i].y;
    }
    assert ps[..|ps|] == ps;
    v := new Vector2D.FromXY(sumX, sumY);
  }

  /** `average(p...)`: the sum, scaled in place by 1/n. */
  method Average(ps: seq<Pt>) returns (v: Vector2D)
    requires |ps| > 0
    ensures fresh(v)
    ensures v.Loc() == AverageOf(ps)
  {
    v := Sum(ps);
    var _ := v.Scale(1.0 / (|ps| as real));
  }

  /** The static `scale` gives the coordinates that `Vector2D.scale` leaves in a copy of p. */
  method ScaleOfCopy(p: Pt, k: real) returns (r: Pt)
    ensures r == Scale(p, k)
  {
    var copy := new Vector2D.FromPoint(p);
    var _ := copy.Scale(k);
    r := copy.Loc();
  }

  /** The static `subtract` gives the coordinates that `Vector2D.subtract` leaves in a copy of p1. */
  method SubtractOfCopy(p1: Pt, p2: Pt) returns (r: Pt)
    ensures r == Subtract(p1, p2)
  {
    var copy := new Vector2D.FromPoint(p1);
    var _ := copy.Subtract(p2);
    r := copy.Loc();
  }

  // ---------------------------------------------------------------------------
  // Algebraic properties

  lemma DotSymmetric(p1: Pt, p2: Pt)
    ensures Dot(p1, p2) == Dot(p2, p1)
  {
  }

  /** The squared distance is the squared length of the difference, symmetric in its arguments. */
  lemma DistanceBetweenSqSymmetric(p1: Pt, p2: Pt)
    ensures DistanceBetweenSq(p1, p2) == DistanceBetweenSq(p2, p1)
    ensures DistanceBetweenSq(p1, p2) == Dot(Subtract(p1, p2), Subtract(p1, p2))
  {
    var a, b := p1.x - p2.x, p1.y - p2.y;
    assert (-a) * (-a) == a * a;
    assert (-b) * (-b) == b * b;
  }

  lemma SumOfEmpty()
    ensures SumOf([]) == Pt(0.0, 0.0)
  {
  }

  /** Appending one point to a sequence adds exactly that point's coordinates to its sum. */
  lemma {:induction false} SumOfAppend(ps: seq<Pt>, p: Pt)
    ensures SumOf(ps + [p]) == Plus(SumOf(ps), p)
  {
    if ps != [] {
      assert (ps + [p])[1..] == ps[1..] + [p];
      SumOfAppend(ps[1..], p);
    }
  }

  /** The sum of a concatenation is the sum of the sums. */
  lemma {:induction false} SumOfConcat(a: seq<Pt>, b: seq<Pt>)
    ensures SumOf(a + b) == Plus(SumOf(a), SumOf(b))
  {
    if a == [] {
      assert a + b == b;
    } else {
      assert (a + b)[1..] == a[1..] + b;
      SumOfConcat(a[1..], b);
    }
  }

  /** Removing the point at index j takes exactly that point out of the sum. */
  lemma {:induction false} SumOfRemoveAt(b: seq<Pt>, j: nat)
    requires j < |b|
    ensures SumOf(b) == Plus(b[j], SumOf(b[..j] + b[j + 1..]))
  {
    var left, right := b[..j], b[j + 1..];
    var tail := [b[j]] + right;
    assert b == left + tail;
    assert tail[1..] == right;
    assert SumOf(tail) == Plus(b[j], SumOf(right));
    SumOfConcat(left, tail);
    SumOfConcat(left, right);
  }

  /** Removing the element at index j removes one occurrence of it from the multiset. */
  lemma {:induction false} MultisetRemoveAt(b: seq<Pt>, j: nat)
    requires j < |b|
    ensures multiset(b[..j] + b[j + 1..]) == multiset(b) - multiset{b[j]}
  {
    assert b == b[..j] + ([b[j]] + b[j + 1..]);
  }

  /** The sum does not depend on the order of the points. */
  lemma {:induction false} SumOfPermutation(a: seq<Pt>, b: seq<Pt>)
    requires multiset(a) == multiset(b)
    ensures SumOf(a) == SumOf(b)
  {
    if a == [] {
      assert |b| == |multiset(b)| == 0;
    } else {
      assert a[0] in multiset(b);
      var j :| 0 <= j < |b| && b[j] == a[0];
      var rest := b[..j] + b[j + 1..];
      assert a == [a[0]] + a[1..];
      assert multiset(a[1..]) == multiset(a) - multiset{a[0]};
      MultisetRemoveAt(b, j);
      SumOfPermutation(a[1..], rest);
      SumOfRemoveAt(b, j);
    }
  }

  /** The average of n points, scaled back by n, is their sum. */
  lemma {:induction false} AverageTimesCount(ps: seq<Pt>)
    requires |ps| > 0
    ensures Scale(AverageOf(ps), |ps| as real) == SumOf(ps)
  {
    var n := |ps| as real;
    var s := SumOf(ps);
    assert s.x * (1.0 / n) * n == s.x;
    assert s.y * (1.0 / n) * n == s.y;
  }

  /** The average does not depend on the order of the points either. */
  lemma {:induction false} AverageOfPermutation(a: seq<Pt>, b: seq<Pt>)
    requires |a| > 0 && multiset(a) == multiset(b)
    ensures |b| == |a| && AverageOf(a) == AverageOf(b)
  {
    assert |a| == |multiset(a)| == |multiset(b)| == |b|;
    SumOfPermutation(a, b);
  }

  lemma SumExample()
    ensures SumOf([Pt(1.0, 2.0), Pt(3.0, 4.0)]) == Pt(4.0, 6.0)
  {
  }

  lemma AverageExample()
    ensures AverageOf([Pt(1.0, 2.0), Pt(3.0, 4.0)]) == Pt(2.0, 3.0)
  {
    SumExample();
    assert Scale(Pt(4.0, 6.0), 1.0 / 2.0) == Pt(2.0, 3.0);
  }
}
