/**
 * Plane geometry of the layout engine (utils.py): points and vectors, the
 * shoelace winding test of a vertex ring, the inside/outside normal pair of a
 * polygon edge and the two direction classes of a leg angle.
 */
module Geometry {

  datatype Point = Point(x: real, y: real)

  function Add(p: Point, q: Point): Point { Point(p.x + q.x, p.y + q.y) }

  /** The vector from q to p. */
  function Sub(p: Point, q: Point): Point { Point(p.x - q.x, p.y - q.y) }

  function Neg(v: Point): Point { Point(-v.x, -v.y) }

  function Times(v: Point, c: real): Point { Point(v.x * c, v.y * c) }

  function Dot(u: Point, v: Point): real { u.x * v.x + u.y * v.y }

  /** The z component of the cross product: positive when v lies to the left of u. */
  function Cross(u: Point, v: Point): real { u.x * v.y - u.y * v.x }

  function Norm2(v: Point): real { v.x * v.x + v.y * v.y }

  function Dist2(p: Point, q: Point): real { Norm2(Sub(p, q)) }

  // ---------------------------------------------------------------------
  // Winding (polygon_orientation)
  // ---------------------------------------------------------------------

  const CW: string := "CW"
  const CCW: string := "CCW"

  /** The term that polygon_orientation adds for the edge p -> q. */
  function EdgeTerm(p: Point, q: Point): real { (q.x - p.x) * (q.y + p.y) }

  /** EdgeTerm summed over the consecutive pairs of s, without wrapping around. */
  function PathSum(s: seq<Point>): real
  {
    if |s| < 2 then 0.0 else PathSum(s[..|s| - 1]) + EdgeTerm(s[|s| - 2], s[|s| - 1])
  }

  /** EdgeTerm summed over every wrap-around pair of the ring s. */
  function RingSum(s: seq<Point>): real
  {
    if s == [] then 0.0 else PathSum(s) + EdgeTerm(s[|s| - 1], s[0])
  }

  /** The winding polygon_orientation reports: "CW" exactly when the ring sum is positive. */
  function OrientationOf(s: seq<Point>): (o: string)
    ensures o == CW <==> RingSum(s) > 0.0
    ensures o == CCW <==> RingSum(s) <= 0.0
  {
    if RingSum(s) > 0.0 then CW else CCW
  }

  /** polygon_orientation: accumulates the shoelace sum edge by edge. */
  method PolygonOrientation(coords: seq<Point>) returns (orientation: string)
    ensures orientation == OrientationOf(coords)
  {
    var area := 0.0;
    var n := |coords|;
    for i := 0 to n
      invariant i < n ==> area == PathSum(coords[..i + 1])
      invariant i == n ==> area == RingSum(coords)
    {
      var p1 := coords[i];
      NextIndex(i, n);
      var p2 := coords[(i + 1) % n];
      if i < n - 1 {
        assert coords[..i + 2][..i + 1] == coords[..i + 1];
        assert PathSum(coords[..i + 2]) == PathSum(coords[..i + 1]) + EdgeTerm(p1, p2);
      } else {
        assert coords[..i + 1] == coords;
      }
      area := area + EdgeTerm(p1, p2);
    }
    orientation := if area > 0.0 then CW else CCW;
  }

  lemma NextIndex(i: int, n: int)
    requires 0 <= i < n
    ensures (i + 1) % n == if i + 1 < n then i + 1 else 0
  {
  }

  /** Peeling the first edge off a path. */
  lemma {:induction false} PathSumFront(s: seq<Point>)
    requires |s| >= 2
    ensures PathSum(s) == EdgeTerm(s[0], s[1]) + PathSum(s[1..])
  {
    if |s| > 2 {
      var n := |s|;
      PathSumFront(s[..n - 1]);
      assert s[..n - 1][1..] == s[1..][..n - 2];
    }
  }

  /** Moving the first vertex of a ring to its end leaves the ring sum unchanged. */
  lemma RingSumRotateOne(s: seq<Point>)
    requires s != []
    ensures RingSum(s[1..] + [s[0]]) == RingSum(s)
  {
    var r := s[1..] + [s[0]];
    if |s| >= 2 {
      var n := |s|;
      assert r[..|r| - 1] == s[1..];
      assert r[|r| - 2] == s[n - 1] && r[|r| - 1] == s[0] && r[0] == s[1];
      assert PathSum(r) == PathSum(s[1..]) + EdgeTerm(s[n - 1], s[0]);
      PathSumFront(s);
      assert RingSum(r) == PathSum(r) + EdgeTerm(s[0], s[1]);
    } else {
      assert r == s;
    }
  }

  /** The winding sum is invariant under every cyclic rotation of the vertex list. */
  lemma {:induction false} RingSumRotate(s: seq<Point>, k: nat)
    requires k <= |s|
    ensures RingSum(s[k..] + s[..k]) == RingSum(s)
  {
    if k == 0 {
      assert s[0..] + s[..0] == s;
    } else {
      RingSumRotate(s, k - 1);
      var t := s[k - 1..] + s[..k - 1];
      RingSumRotateOne(t);
      assert t[1..] + [t[0]] == s[k..] + s[..k];
    }
  }

  /** Cyclic rotation never changes the reported winding. */
  lemma OrientationRotate(s: seq<Point>, k: nat)
    requires k <= |s|
    ensures OrientationOf(s[k..] + s[..k]) == OrientationOf(s)
  {
    RingSumRotate(s, k);
  }

  function Reverse(s: seq<Point>): (r: seq<Point>)
    ensures |r| == |s|
    ensures forall i :: 0 <= i < |s| ==> r[i] == s[|s| - 1 - i]
  {
    seq(|s|, i requires 0 <= i < |s| => s[|s| - 1 - i])
  }

  lemma {:induction false} PathSumReverse(s: seq<Point>)
    ensures PathSum(Reverse(s)) == -PathSum(s)
  {
    if |s| >= 2 {
      var r := Reverse(s);
      assert r[..|r| - 1] == Reverse(s[1..]);
      PathSumReverse(s[1..]);
      PathSumFront(s);
    }
  }

  /** Reversing the vertex order negates the winding sum. */
  lemma RingSumReverse(s: seq<Point>)
    ensures RingSum(Reverse(s)) == -RingSum(s)
  {
    PathSumReverse(s);
    if s != [] {
      var r, n := Reverse(s), |s|;
      assert r[n - 1] == s[0] && r[0] == s[n - 1];
      assert RingSum(r) == PathSum(r) + EdgeTerm(s[0], s[n - 1]);
      EdgeTermSwap(s[n - 1], s[0]);
    }
  }

  lemma EdgeTermSwap(p: Point, q: Point)
    ensures EdgeTerm(q, p) == -EdgeTerm(p, q)
  {
    assert (p.x - q.x) * (p.y + q.y) == -((q.x - p.x) * (q.y + p.y));
  }

  /** Reversing a ring whose sum is not zero flips CW and CCW. */
  lemma OrientationReverse(s: seq<Point>)
    requires RingSum(s) != 0.0
    ensures OrientationOf(s) == CW <==> OrientationOf(Reverse(s)) == CCW
  {
    RingSumReverse(s);
  }

  function ScaleAll(s: seq<Point>, c: real): (r: seq<Point>)
    ensures |r| == |s|
    ensures forall i :: 0 <= i < |s| ==> r[i] == Times(s[i], c)
  {
    seq(|s|, i requires 0 <= i < |s| => Times(s[i], c))
  }

  // ---------------------------------------------------------------------
  // Edge normals (line_normals)
  // ---------------------------------------------------------------------

  /**
   * line_normals: the (inside, outside) pair for the edge p1 -> p2. Inside is
   * the left normal for "CCW" and the right normal for any other string; both
   * are perpendicular to the edge, as long as the edge, and opposite.
   */
  function LineNormals(p1: Point, p2: Point, orientation: string): (r: (Point, Point))
    ensures r.1 == Neg(r.0)
    ensures Dot(r.0, Sub(p2, p1)) == 0.0 && Dot(r.1, Sub(p2, p1)) == 0.0
    ensures Norm2(r.0) == Norm2(Sub(p2, p1)) && Norm2(r.1) == Norm2(Sub(p2, p1))
    ensures orientation == CCW ==> Cross(Sub(p2, p1), r.0) == Norm2(Sub(p2, p1))
    ensures orientation != CCW ==> Cross(Sub(p2, p1), r.0) == -Norm2(Sub(p2, p1))
  {
    var dx, dy := p2.x - p1.x, p2.y - p1.y;
    if orientation == CCW then (Point(-dy, dx), Point(dy, -dx))
    else (Point(dy, -dx), Point(-dy, dx))
  }

  // ---------------------------------------------------------------------
  // Direction classes (line_direction)
  // ---------------------------------------------------------------------

  const LeftToRight: string := "left → right"
  const RightToLeft: string := "right → left"

  /** line_direction: "left → right" exactly for angles in [-90, 90]. */
  function LineDirection(angle: real): (d: string)
    ensures d == LeftToRight <==> -90.0 <= angle <= 90.0
    ensures d == RightToLeft <==> !(-90.0 <= angle <= 90.0)
  {
    if -90.0 <= angle <= 90.0 then LeftToRight else RightToLeft
  }

  // ---------------------------------------------------------------------
  // Vertex average (the parcel label position of add_parcel)
  // ---------------------------------------------------------------------

  function SumX(s: seq<Point>): real
  {
    if s == [] then 0.0 else SumX(s[..|s| - 1]) + s[|s| - 1].x
  }

  function SumY(s: seq<Point>): real
  {
    if s == [] then 0.0 else SumY(s[..|s| - 1]) + s[|s| - 1].y
  }

  function Centroid(s: seq<Point>): Point
    requires s != []
  {
    Point(SumX(s) / |s| as real, SumY(s) / |s| as real)
  }

  lemma {:induction false} SumsScale(s: seq<Point>, c: real)
    ensures SumX(ScaleAll(s, c)) == SumX(s) * c
    ensures SumY(ScaleAll(s, c)) == SumY(s) * c
  {
    if s != [] {
      var n, t := |s|, ScaleAll(s, c);
      assert t[..n - 1] == ScaleAll(s[..n - 1], c);
      SumsScale(s[..n - 1], c);
      assert t[n - 1] == Times(s[n - 1], c);
      Distribute(SumX(s[..n - 1]), s[n - 1].x, c, SumX(t));
      Distribute(SumY(s[..n - 1]), s[n - 1].y, c, SumY(t));
    }
  }

  lemma Distribute(a: real, b: real, c: real, sum: real)
    requires sum == a * c + b * c
    ensures sum == (a + b) * c
  {
  }

  lemma ScaledAverage(sum: real, scaled: real, n: real, c: real)
    requires n > 0.0 && scaled == sum * c
    ensures scaled / n == (sum / n) * c
  {
    var q := sum / n;
    assert q * n == sum;
    assert (q * c) * n == (q * n) * c;
  }

  /** The vertex average of the scaled points is the scaled vertex average. */
  lemma CentroidScale(s: seq<Point>, c: real)
    requires s != []
    ensures Centroid(ScaleAll(s, c)) == Times(Centroid(s), c)
  {
    var t := ScaleAll(s, c);
    SumsScale(s, c);
    ScaledAverage(SumX(s), SumX(t), |s| as real, c);
    ScaledAverage(SumY(s), SumY(t), |s| as real, c);
  }

  /** v added to itself n times: the bound a sum of n values between lo and hi stays within. */
  function Copies(n: nat, v: real): real
  {
    if n == 0 then 0.0 else Copies(n - 1, v) + v
  }

  lemma {:induction false} CopiesIsProduct(n: nat, v: real)
    ensures Copies(n, v) == n as real * v
  {
    if n > 0 {
      CopiesIsProduct(n - 1, v);
      assert n as real * v == (n - 1) as real * v + v;
    }
  }

  lemma {:induction false} SumsBounded(s: seq<Point>, lo: Point, hi: Point)
    requires forall i :: 0 <= i < |s| ==> lo.x <= s[i].x <= hi.x && lo.y <= s[i].y <= hi.y
    ensures Copies(|s|, lo.x) <= SumX(s) <= Copies(|s|, hi.x)
    ensures Copies(|s|, lo.y) <= SumY(s) <= Copies(|s|, hi.y)
  {
    if s != [] {
      var n := |s|;
      SumsBounded(s[..n - 1], lo, hi);
      assert s[n - 1] == s[n - 1];
    }
  }

  /** The vertex average lies within any box that holds every vertex. */
  lemma CentroidWithin(s: seq<Point>, lo: Point, hi: Point)
    requires s != []
    requires forall i :: 0 <= i < |s| ==> lo.x <= s[i].x <= hi.x && lo.y <= s[i].y <= hi.y
    ensures lo.x <= Centroid(s).x <= hi.x && lo.y <= Centroid(s).y <= hi.y
  {
    SumsBounded(s, lo, hi);
    AverageWithin(SumX(s), |s|, lo.x, hi.x);
    AverageWithin(SumY(s), |s|, lo.y, hi.y);
  }

  lemma AverageWithin(sum: real, n: nat, lo: real, hi: real)
    requires n > 0 && Copies(n, lo) <= sum <= Copies(n, hi)
    ensures lo <= sum / n as real <= hi
  {
    CopiesIsProduct(n, lo);
    CopiesIsProduct(n, hi);
    DivBounds(sum, n as real, lo, hi);
  }

  lemma DivBounds(sum: real, m: real, lo: real, hi: real)
    requires m > 0.0 && m * lo <= sum <= m * hi
    ensures lo <= sum / m <= hi
  {
    var q := sum / m;
    assert q * m == sum;
  }
}
