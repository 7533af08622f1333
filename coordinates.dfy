/** The barycentric-to-Cartesian transform used by `triplot` and by the frame loop of
    Ternary_ContourVid: a composition [A, B, C] becomes a point of the ternary triangle
    whose top vertex is pure A, left vertex pure B and right vertex pure C. */
module Coordinates {

  /** One composition [A, B, C]: A is the top corner, B the left corner, C the right corner. */
  datatype Triplet = Triplet(a: real, b: real, c: real)

  /** A point of the planar layout of the ternary diagram. */
  datatype Point = Point(x: real, y: real)

  function Sum(t: Triplet): real {
    t.a + t.b + t.c
  }

  /** No negative component and a positive total, so that dividing by the total is defined
      (the input must be free of NaN and of all-zero rows). */
  predicate Valid(t: Triplet) {
    t.a >= 0.0 && t.b >= 0.0 && t.c >= 0.0 && Sum(t) > 0.0
  }

  predicate AllValid(ts: seq<Triplet>) {
    forall i :: 0 <= i < |ts| ==> Valid(ts[i])
  }

  /** The ternary triangle, with vertices (0, 1), (-0.5, 0) and (0.5, 0). */
  predicate InTriangle(p: Point) {
    0.0 <= p.y <= 1.0 && -(1.0 - p.y) / 2.0 <= p.x <= (1.0 - p.y) / 2.0
  }

  /** The composition scaled to proportions that add up to one. */
  function Normalize(t: Triplet): Triplet
    requires Valid(t)
  {
    Triplet(t.a / Sum(t), t.b / Sum(t), t.c / Sum(t))
  }

  /** Every component multiplied by the factor f. */
  function Scale(t: Triplet, f: real): Triplet {
    Triplet(f * t.a, f * t.b, f * t.c)
  }

  /** The transform of one triplet: y = A/(A+B+C), x = -0.5*(1 - y) + C/(A+B+C).
      Every valid composition lands inside the ternary triangle. */
  function ToPlanar(t: Triplet): (p: Point)
    requires Valid(t)
    ensures InTriangle(p)
  {
    NormalizeSumsToOne(t);
    var y := t.a / (t.a + t.b + t.c);
    Point(-0.5 * (1.0 - y) + t.c / (t.a + t.b + t.c), y)
  }

  /** The proportions read back from a planar point: the inverse of ToPlanar on the triangle. */
  function FromPlanar(p: Point): Triplet {
    Triplet(p.y, (1.0 - p.y) / 2.0 - p.x, p.x + (1.0 - p.y) / 2.0)
  }

  /** Normalizing keeps a composition valid and makes its total one: the three shares
      A/(A+B+C), B/(A+B+C), C/(A+B+C) are non-negative and add up to one. */
  lemma NormalizeSumsToOne(t: Triplet)
    requires Valid(t)
    ensures Valid(Normalize(t)) && Sum(Normalize(t)) == 1.0
  {
    var s := Sum(t);
    assert Sum(Normalize(t)) == t.a / s + t.b / s + t.c / s;
    assert t.a / s + t.b / s + t.c / s == (t.a + t.b + t.c) / s == 1.0;
  }

  /** The proportions read from any point add up to one, and they are a valid composition
      exactly when the point lies in the triangle. */
  lemma FromPlanarValidIffInTriangle(p: Point)
    ensures Sum(FromPlanar(p)) == 1.0
    ensures InTriangle(p) <==> Valid(FromPlanar(p))
  {
  }

  /** Pure A maps to the top vertex of the triangle. */
  lemma PureAIsTopVertex()
    ensures ToPlanar(Triplet(1.0, 0.0, 0.0)) == Point(0.0, 1.0)
  {
  }

  /** Pure B maps to the left vertex of the triangle. */
  lemma PureBIsLeftVertex()
    ensures ToPlanar(Triplet(0.0, 1.0, 0.0)) == Point(-0.5, 0.0)
  {
  }

  /** Pure C maps to the right vertex of the triangle. */
  lemma PureCIsRightVertex()
    ensures ToPlanar(Triplet(0.0, 0.0, 1.0)) == Point(0.5, 0.0)
  {
  }

  /** ToPlanar unfolded with its shares written as the proportions `Normalize(t)`; a step for
      ScaleInvariant and SamePointIffSameProportions, which carry the proportions-only property. */
  lemma ToPlanarOfProportions(t: Triplet)
    requires Valid(t)
    ensures ToPlanar(t) == Point(-0.5 * (1.0 - Normalize(t).a) + Normalize(t).c, Normalize(t).a)
  {
  }

  /** Reading a transformed point back gives the proportions of the composition. */
  lemma RoundTrip(t: Triplet)
    requires Valid(t)
    ensures FromPlanar(ToPlanar(t)) == Normalize(t)
  {
    NormalizeSumsToOne(t);
    var s := Sum(t);
    var p := ToPlanar(t);
    assert p.y == t.a / s;
    assert p.x == -0.5 * (1.0 - t.a / s) + t.c / s;
    calc {
      (1.0 - p.y) / 2.0 - p.x;
      (1.0 - t.a / s) - t.c / s;
      { assert t.a / s + t.b / s + t.c / s == 1.0; }
      t.b / s;
    }
  }

  /** Every point of the triangle is the image of the proportions read from it. */
  lemma PlanarRoundTrip(p: Point)
    requires InTriangle(p)
    ensures Valid(FromPlanar(p)) && ToPlanar(FromPlanar(p)) == p
  {
    var t := FromPlanar(p);
    assert Sum(t) == 1.0;
    assert t.a / Sum(t) == p.y;
    assert t.c / Sum(t) == p.x + (1.0 - p.y) / 2.0;
  }

  /** The transform depends only on proportions: scaling by any positive factor keeps the point. */
  lemma ScaleInvariant(t: Triplet, f: real)
    requires Valid(t) && f > 0.0
    ensures Valid(Scale(t, f)) && ToPlanar(Scale(t, f)) == ToPlanar(t)
  {
    var u := Scale(t, f);
    ScaleKeepsProportions(t, f);
    ToPlanarOfProportions(u);
    ToPlanarOfProportions(t);
  }

  /** Scaling by a positive factor keeps a composition valid and keeps its proportions. */
  lemma ScaleKeepsProportions(t: Triplet, f: real)
    requires Valid(t) && f > 0.0
    ensures Valid(Scale(t, f))
    ensures Normalize(Scale(t, f)) == Normalize(t)
  {
    ScaleSum(t, f);
    var u := Scale(t, f);
    ScaledShare(u.a, Sum(u), t.a, Sum(t), f);
    ScaledShare(u.b, Sum(u), t.b, Sum(t), f);
    ScaledShare(u.c, Sum(u), t.c, Sum(t), f);
  }

  /** The total of a scaled composition is the scaled total. */
  lemma ScaleSum(t: Triplet, f: real)
    requires Valid(t) && f > 0.0
    ensures Valid(Scale(t, f)) && Sum(Scale(t, f)) == f * Sum(t)
  {
    var u := Scale(t, f);
    assert u.a >= 0.0 by { ProductNonNegative(f, t.a); }
    assert u.b >= 0.0 by { ProductNonNegative(f, t.b); }
    assert u.c >= 0.0 by { ProductNonNegative(f, t.c); }
    assert Sum(u) == f * Sum(t) by {
      assert f * t.a + f * t.b + f * t.c == f * (t.a + t.b + t.c);
    }
    assert f * Sum(t) > 0.0 by { ProductPositive(f, Sum(t)); }
  }

  lemma ProductNonNegative(x: real, y: real)
    requires x >= 0.0 && y >= 0.0
    ensures x * y >= 0.0
  {
  }

  lemma ProductPositive(x: real, y: real)
    requires x > 0.0 && y > 0.0
    ensures x * y > 0.0
  {
  }

  /** A common positive factor of numerator and denominator cancels. */
  lemma ScaledShare(fv: real, fs: real, v: real, s: real, f: real)
    requires f > 0.0 && s > 0.0 && fv == f * v && fs == f * s
    ensures fv / fs == v / s
  {
    var q := v / s;
    assert v == q * s;
    assert fv == q * fs;
  }

  /** Two compositions share a point exactly when they have the same proportions. */
  lemma SamePointIffSameProportions(t1: Triplet, t2: Triplet)
    requires Valid(t1) && Valid(t2)
    ensures ToPlanar(t1) == ToPlanar(t2) <==> Normalize(t1) == Normalize(t2)
  {
    RoundTrip(t1);
    RoundTrip(t2);
    ToPlanarOfProportions(t1);
    ToPlanarOfProportions(t2);
  }

  /** The x coordinates of the transformed points, in input order. */
  function Xs(ts: seq<Triplet>): seq<real>
    requires AllValid(ts)
  {
    seq(|ts|, i requires 0 <= i < |ts| => ToPlanar(ts[i]).x)
  }

  /** The y coordinates of the transformed points, in input order. */
  function Ys(ts: seq<Triplet>): seq<real>
    requires AllValid(ts)
  {
    seq(|ts|, i requires 0 <= i < |ts| => ToPlanar(ts[i]).y)
  }

  /** The batch transform of `triplot` ('multiple' form) and of the frame loop: one pass
      over the dataset appending y and then x, where x is computed from the y just appended. */
  method TransformBatch(dataset: seq<Triplet>) returns (triX: seq<real>, triY: seq<real>)
    requires AllValid(dataset)
    ensures |triX| == |dataset| && |triY| == |dataset|
    ensures forall i :: 0 <= i < |dataset| ==> Point(triX[i], triY[i]) == ToPlanar(dataset[i])
    ensures forall i :: 0 <= i < |dataset| ==> InTriangle(Point(triX[i], triY[i]))
  {
    triY, triX := [], [];
    for i := 0 to |dataset|
      invariant |triX| == i && |triY| == i
      invariant forall j :: 0 <= j < i ==> Point(triX[j], triY[j]) == ToPlanar(dataset[j])
    {
      var t := dataset[i];
      triY := triY + [t.a / (t.a + t.b + t.c)];
      triX := triX + [-0.5 * (1.0 - triY[i]) + t.c / (t.a + t.b + t.c)];
    }
  }
}
