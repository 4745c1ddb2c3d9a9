/**
 * The contour bookkeeping of topographic.py: thinning a traced contour line
 * so that its points keep a minimum spacing, choosing the contour levels
 * (every multiple of the interval between the lowest and highest elevation),
 * and telling major levels from minor ones.
 */
module Contours {
  import opened Wrappers
  import opened Geometry

  // ---------------------------------------------------------------------
  // Minimum-distance filter (apply_minimum_distance_filter)
  // ---------------------------------------------------------------------

  /**
   * The points of `rest` the filter keeps after the kept point `last`: a
   * point is kept when its squared distance to the last kept point is at
   * least `minD2`. For a positive minimum distance d, sqrt(D) >= d exactly
   * when D >= d * d, so comparing squares is the same test.
   */
  function KeepFrom(last: Point, rest: seq<Point>, minD2: real): (r: seq<Point>)
    ensures |r| <= |rest|
    ensures |r| == |rest| ==> r == rest
    decreases |rest|
  {
    if rest == [] then []
    else if Dist2(rest[0], last) >= minD2 then [rest[0]] + KeepFrom(rest[0], rest[1..], minD2)
    else KeepFrom(last, rest[1..], minD2)
  }

  /**
   * apply_minimum_distance_filter: lines of fewer than three points and
   * non-positive distances pass unchanged; otherwise the first point, every
   * point far enough from the last kept one, and then the original last
   * point if something besides the first point was kept and the last kept
   * point differs from it.
   */
  function MinDistanceFilter(coords: seq<Point>, minDistance: real): (r: seq<Point>)
    ensures |r| <= |coords|
    ensures coords != [] ==> r != [] && r[0] == coords[0]
    ensures |r| >= 2 ==> r[|r| - 1] == coords[|coords| - 1]
  {
    if |coords| < 3 || minDistance <= 0.0 then coords
    else
      var kept := [coords[0]] + KeepFrom(coords[0], coords[1..], minDistance * minDistance);
      if |kept| > 1 && kept[|kept| - 1] != coords[|coords| - 1] then kept + [coords[|coords| - 1]] else kept
  }

  /** The loop of apply_minimum_distance_filter, proved to compute MinDistanceFilter. */
  method ApplyMinimumDistanceFilter(coordinates: seq<Point>, minDistance: real) returns (filtered: seq<Point>)
    ensures filtered == MinDistanceFilter(coordinates, minDistance)
  {
    if |coordinates| < 3 || minDistance <= 0.0 {
      return coordinates;
    }
    var minD2 := minDistance * minDistance;
    filtered := [coordinates[0]];
    for i := 1 to |coordinates|
      invariant filtered != []
      invariant filtered + KeepFrom(filtered[|filtered| - 1], coordinates[i..], minD2)
             == [coordinates[0]] + KeepFrom(coordinates[0], coordinates[1..], minD2)
    {
      var current := coordinates[i];
      var lastKept := filtered[|filtered| - 1];
      assert coordinates[i..][1..] == coordinates[i + 1..];
      if Dist2(current, lastKept) >= minD2 {
        assert KeepFrom(lastKept, coordinates[i..], minD2) == [current] + KeepFrom(current, coordinates[i + 1..], minD2);
        assert filtered + ([current] + KeepFrom(current, coordinates[i + 1..], minD2))
            == (filtered + [current]) + KeepFrom(current, coordinates[i + 1..], minD2);
        filtered := filtered + [current];
      } else {
        assert KeepFrom(lastKept, coordinates[i..], minD2) == KeepFrom(lastKept, coordinates[i + 1..], minD2);
      }
    }
    assert coordinates[|coordinates|..] == [];
    assert filtered == [coordinates[0]] + KeepFrom(coordinates[0], coordinates[1..], minD2);
    if |filtered| > 1 && filtered[|filtered| - 1] != coordinates[|coordinates| - 1] {
      filtered := filtered + [coordinates[|coordinates| - 1]];
    }
  }

  /** a is an order-preserving selection of the elements of b. */
  predicate IsSubsequence(a: seq<Point>, b: seq<Point>)
  {
    if a == [] then true
    else if b == [] then false
    else if a[0] == b[0] then IsSubsequence(a[1..], b[1..])
    else IsSubsequence(a, b[1..])
  }

  lemma {:induction false} KeepFromIsSubsequence(last: Point, rest: seq<Point>, minD2: real)
    ensures IsSubsequence(KeepFrom(last, rest, minD2), rest)
    decreases |rest|
  {
    if rest != [] {
      if Dist2(rest[0], last) >= minD2 {
        KeepFromIsSubsequence(rest[0], rest[1..], minD2);
        assert ([rest[0]] + KeepFrom(rest[0], rest[1..], minD2))[1..] == KeepFrom(rest[0], rest[1..], minD2);
      } else {
        KeepFromIsSubsequence(last, rest[1..], minD2);
        SkipHead(KeepFrom(last, rest[1..], minD2), rest);
      }
    }
  }

  /** A selection of the tail of b is a selection of b. */
  lemma {:induction false} SkipHead(a: seq<Point>, b: seq<Point>)
    requires b != [] && IsSubsequence(a, b[1..])
    ensures IsSubsequence(a, b)
  {
    if a != [] && a[0] == b[0] {
      SubsequenceOfTail(a, b[1..]);
    }
  }

  /** Dropping the head of a selection keeps it a selection. */
  lemma {:induction false} SubsequenceOfTail(a: seq<Point>, b: seq<Point>)
    requires a != [] && IsSubsequence(a, b)
    ensures IsSubsequence(a[1..], b)
  {
    if b != [] {
      if a[0] == b[0] {
        SkipHead(a[1..], b);
      } else {
        SubsequenceOfTail(a, b[1..]);
        SkipHead(a[1..], b);
      }
    }
  }

  /** A selection of b whose last element is not b's last selects from b without its last element. */
  lemma {:induction false} SubsequenceOfFront(a: seq<Point>, b: seq<Point>)
    requires a != [] && b != [] && IsSubsequence(a, b) && a[|a| - 1] != b[|b| - 1]
    ensures IsSubsequence(a, b[..|b| - 1])
  {
    if |b| == 1 {
      assert false;
    } else if a[0] == b[0] {
      assert b[..|b| - 1][0] == b[0] && b[..|b| - 1][1..] == b[1..][..|b| - 2];
      if a[1..] != [] {
        SubsequenceOfFront(a[1..], b[1..]);
      }
    } else {
      SubsequenceOfFront(a, b[1..]);
      assert b[..|b| - 1][1..] == b[1..][..|b| - 2];
      SkipHead(a, b[..|b| - 1]);
    }
  }

  /** Appending the last element of b to a selection of b's front gives a selection of b. */
  lemma {:induction false} AppendLast(a: seq<Point>, b: seq<Point>)
    requires b != [] && IsSubsequence(a, b[..|b| - 1])
    ensures IsSubsequence(a + [b[|b| - 1]], b)
  {
    if a == [] {
      LastIsSubsequence(b);
      assert a + [b[|b| - 1]] == [b[|b| - 1]];
    } else if a[0] == b[0] {
      assert b[..|b| - 1][1..] == b[1..][..|b| - 2];
      AppendLast(a[1..], b[1..]);
      assert (a + [b[|b| - 1]])[1..] == a[1..] + [b[1..][|b| - 2]];
    } else {
      assert b[..|b| - 1][1..] == b[1..][..|b| - 2];
      AppendLast(a, b[1..]);
    }
  }

  lemma {:induction false} LastIsSubsequence(b: seq<Point>)
    requires b != []
    ensures IsSubsequence([b[|b| - 1]], b)
  {
    if |b| > 1 && b[0] != b[|b| - 1] {
      LastIsSubsequence(b[1..]);
    }
  }

  lemma {:induction false} SubsequenceShorter(a: seq<Point>, b: seq<Point>)
    requires IsSubsequence(a, b)
    ensures |a| <= |b|
  {
    if a != [] {
      if a[0] == b[0] {
        SubsequenceShorter(a[1..], b[1..]);
      } else {
        SubsequenceShorter(a, b[1..]);
      }
    }
  }

  /**
   * The filter only drops points: its result is an order-preserving
   * selection of the line's points, and never longer than the line.
   */
  lemma FilterSelects(coords: seq<Point>, minDistance: real)
    ensures IsSubsequence(MinDistanceFilter(coords, minDistance), coords)
    ensures |MinDistanceFilter(coords, minDistance)| <= |coords|
  {
    var r := MinDistanceFilter(coords, minDistance);
    if |coords| < 3 || minDistance <= 0.0 {
      SubsequenceReflexive(coords);
    } else {
      var d2 := minDistance * minDistance;
      var tail := KeepFrom(coords[0], coords[1..], d2);
      var kept := [coords[0]] + tail;
      KeepFromIsSubsequence(coords[0], coords[1..], d2);
      assert kept[1..] == tail;
      assert IsSubsequence(kept, coords);
      if |kept| > 1 && kept[|kept| - 1] != coords[|coords| - 1] {
        SubsequenceOfFront(kept, coords);
        AppendLast(kept, coords);
      }
    }
    SubsequenceShorter(r, coords);
  }

  lemma {:induction false} SubsequenceReflexive(b: seq<Point>)
    ensures IsSubsequence(b, b)
  {
    if b != [] {
      SubsequenceReflexive(b[1..]);
    }
  }

  /** Points i and i + 1 of s are at least the minimum distance apart. */
  predicate Spaced(s: seq<Point>, minD2: real, i: int)
  {
    0 <= i < |s| - 1 && Dist2(s[i + 1], s[i]) >= minD2
  }

  lemma {:induction false} KeepFromSpaced(last: Point, rest: seq<Point>, minD2: real)
    ensures var k := KeepFrom(last, rest, minD2);
      && (k != [] ==> Dist2(k[0], last) >= minD2)
      && forall i :: 0 <= i < |k| - 1 ==> Spaced(k, minD2, i)
    decreases |rest|
  {
    if rest != [] {
      if Dist2(rest[0], last) >= minD2 {
        var tail := KeepFrom(rest[0], rest[1..], minD2);
        KeepFromSpaced(rest[0], rest[1..], minD2);
        var k := [rest[0]] + tail;
        forall i | 0 <= i < |k| - 1 ensures Spaced(k, minD2, i) {
          if i > 0 {
            assert Spaced(tail, minD2, i - 1);
          }
        }
      } else {
        KeepFromSpaced(last, rest[1..], minD2);
      }
    }
  }

  /**
   * For a line of three or more points and a positive distance, the result
   * starts at the line's first point, every pair of consecutive points but
   * the final one is at least the minimum distance apart, and unless the
   * result collapsed to the first point alone it ends at the line's last
   * point.
   */
  lemma FilterSpacing(coords: seq<Point>, minDistance: real)
    requires |coords| >= 3 && minDistance > 0.0
    ensures var r, d2 := MinDistanceFilter(coords, minDistance), minDistance * minDistance;
      && r != [] && r[0] == coords[0]
      && (|r| > 1 ==> r[|r| - 1] == coords[|coords| - 1])
      && forall i :: 0 <= i < |r| - 2 ==> Spaced(r, d2, i)
  {
    var d2 := minDistance * minDistance;
    var tail := KeepFrom(coords[0], coords[1..], d2);
    var kept := [coords[0]] + tail;
    var r := MinDistanceFilter(coords, minDistance);
    KeepFromSpaced(coords[0], coords[1..], d2);
    forall i | 0 <= i < |kept| - 1 ensures Spaced(kept, d2, i) {
      if i > 0 {
        assert Spaced(tail, d2, i - 1);
      }
    }
    forall i | 0 <= i < |r| - 2 ensures Spaced(r, d2, i) {
      assert r[i] == kept[i] && r[i + 1] == kept[i + 1];
      assert Spaced(kept, d2, i);
    }
  }

  lemma {:induction false} KeepFromEmpty(last: Point, rest: seq<Point>, minD2: real)
    ensures KeepFrom(last, rest, minD2) == [] <==> forall j :: 0 <= j < |rest| ==> Dist2(rest[j], last) < minD2
    decreases |rest|
  {
    if rest != [] {
      KeepFromEmpty(last, rest[1..], minD2);
      if Dist2(rest[0], last) < minD2 {
        assert forall j :: 1 <= j < |rest| ==> rest[j] == rest[1..][j - 1];
      }
    }
  }

  /**
   * The filtered line collapses to its first point alone, and is then
   * dropped by the caller, exactly when every other point lies within the
   * minimum distance of the first, the last point included.
   */
  lemma FilterCollapses(coords: seq<Point>, minDistance: real)
    requires |coords| >= 3 && minDistance > 0.0
    ensures MinDistanceFilter(coords, minDistance) == [coords[0]]
        <==> forall j :: 1 <= j < |coords| ==> Dist2(coords[j], coords[0]) < minDistance * minDistance
  {
    var d2 := minDistance * minDistance;
    KeepFromEmpty(coords[0], coords[1..], d2);
    assert forall j :: 1 <= j < |coords| ==> coords[j] == coords[1..][j - 1];
    var tail := KeepFrom(coords[0], coords[1..], d2);
    var kept := [coords[0]] + tail;
    var r := MinDistanceFilter(coords, minDistance);
    if tail == [] {
      assert kept == [coords[0]];
      assert r == kept;
    } else {
      assert |kept| > 1;
      assert |r| >= |kept|;
    }
  }

  // ---------------------------------------------------------------------
  // Contour levels (draw_contours)
  // ---------------------------------------------------------------------

  /** np.ceil on a real. */
  function Ceil(r: real): int
  {
    -((-r).Floor)
  }

  lemma CeilBounds(r: real)
    ensures r <= Ceil(r) as real < r + 1.0
  {
  }

  /**
   * The levels of draw_contours: from ceil(zMin / I) * I to
   * floor(zMax / I) * I, int((end - start) / I) + 1 of them, evenly spaced as
   * np.linspace makes them, that is (a + k) * I for a = ceil(zMin / I).
   * None where the source raises: a zero interval (the level count becomes
   * int(nan)) and a negative level count (np.linspace rejects it).
   */
  function ContourLevels(zMin: real, zMax: real, interval: real): (r: Option<seq<real>>)
    ensures interval == 0.0 ==> r.None?
    ensures interval > 0.0 && zMin <= zMax ==> r.Some?
    ensures interval < 0.0 && zMax - zMin > -interval ==> r.None?
    ensures r.Some? ==> forall k :: 0 <= k < |r.value| - 1 ==> r.value[k + 1] == r.value[k] + interval
  {
    if interval == 0.0 then None
    else
      var a, b := Ceil(zMin / interval), (zMax / interval).Floor;
      var count := b - a + 1;
      QuotientsOrdered(zMin, zMax, interval);
      if count < 0 then None
      else
        var levels := seq(count, k requires 0 <= k < count => (a + k) as real * interval);
        MultiplesSpaced(a, interval, levels);
        Some(levels)
  }

  /**
   * zMin <= zMax keeps its order when divided by a positive interval, so the
   * count is never negative. A negative interval reverses the order, and once
   * the elevations span more than its size the count drops below zero.
   */
  lemma QuotientsOrdered(zMin: real, zMax: real, interval: real)
    requires interval != 0.0
    ensures interval > 0.0 && zMin <= zMax ==> (zMax / interval).Floor - Ceil(zMin / interval) + 1 >= 0
    ensures interval < 0.0 && zMax - zMin > -interval ==> (zMax / interval).Floor - Ceil(zMin / interval) + 1 < 0
  {
    if interval > 0.0 && zMin <= zMax {
      MonotoneQuotient(zMin, zMax, interval);
    }
    if interval < 0.0 && zMax - zMin > -interval {
      ReversedQuotients(zMin, zMax, interval);
      CeilBounds(zMin / interval);
    }
  }

  /** Divided by a negative interval, a span wider than the interval becomes a gap of more than one. */
  lemma ReversedQuotients(zMin: real, zMax: real, interval: real)
    requires interval < 0.0 && zMax - zMin > -interval
    ensures zMin / interval - zMax / interval > 1.0
  {
    var j := -interval;
    assert zMin / interval == -(zMin / j);
    assert zMax / interval == -(zMax / j);
    var w := (zMax - zMin) / j;
    if w <= 1.0 {
      calc { zMax - zMin; == w * j; <= 1.0 * j; }
    }
    assert (zMax - zMin) / j == zMax / j - zMin / j;
  }

  lemma MultiplesSpaced(a: int, interval: real, levels: seq<real>)
    requires forall k :: 0 <= k < |levels| ==> levels[k] == (a + k) as real * interval
    ensures forall k :: 0 <= k < |levels| - 1 ==> levels[k + 1] == levels[k] + interval
  {
    forall k | 0 <= k < |levels| - 1
      ensures levels[k + 1] == levels[k] + interval
    {
      NextMultiple(a + k, interval);
    }
  }

  lemma QuotientBounds(z: real, q: real, interval: real)
    requires interval > 0.0
    ensures q <= z / interval ==> q * interval <= z
    ensures z / interval <= q ==> z <= q * interval
    ensures z / interval < q ==> z < q * interval
  {
  }

  lemma MultipleOrder(i: int, j: int, interval: real)
    requires interval > 0.0
    ensures i <= j <==> i as real * interval <= j as real * interval
  {
  }

  lemma {:induction false} QuotientOfMultiple(z: real, k: int, interval: real)
    requires interval > 0.0 && z == k as real * interval
    ensures z / interval == k as real
  {
  }

  /** Every level is a multiple of a positive interval between zMin and zMax. */
  lemma LevelsSound(zMin: real, zMax: real, interval: real, k: int)
    requires interval > 0.0 && ContourLevels(zMin, zMax, interval).Some?
    requires 0 <= k < |ContourLevels(zMin, zMax, interval).value|
    ensures var level := ContourLevels(zMin, zMax, interval).value[k];
      && level == (Ceil(zMin / interval) + k) as real * interval
      && zMin <= level <= zMax
  {
    var a, b := Ceil(zMin / interval), (zMax / interval).Floor;
    var levels := ContourLevels(zMin, zMax, interval).value;
    assert |levels| == b - a + 1 && levels[k] == (a + k) as real * interval;
    MultipleInRange(zMin, zMax, interval, a, b, k);
  }

  /** Multiple a + k of the interval, for a the ceiling and b the floor of the quotients, lies in the range. */
  lemma MultipleInRange(zMin: real, zMax: real, interval: real, a: int, b: int, k: int)
    requires interval > 0.0 && a == Ceil(zMin / interval) && b == (zMax / interval).Floor
    requires 0 <= k <= b - a
    ensures zMin <= (a + k) as real * interval <= zMax
  {
    CeilBounds(zMin / interval);
    QuotientBounds(zMin, a as real, interval);
    QuotientBounds(zMax, b as real, interval);
    MultipleOrder(a, a + k, interval);
    MultipleOrder(a + k, b, interval);
  }

  /** Every multiple of a positive interval between zMin and zMax is a level. */
  lemma LevelsComplete(zMin: real, zMax: real, interval: real, m: int)
    requires interval > 0.0 && zMin <= m as real * interval <= zMax
    ensures ContourLevels(zMin, zMax, interval).Some?
    ensures m as real * interval in ContourLevels(zMin, zMax, interval).value
  {
    var z := m as real * interval;
    var a, b := Ceil(zMin / interval), (zMax / interval).Floor;
    QuotientOfMultiple(z, m, interval);
    QuotientBounds(zMin, zMin / interval, interval);
    assert zMin / interval <= m as real by {
      MonotoneQuotient(zMin, z, interval);
    }
    assert m as real <= zMax / interval by {
      MonotoneQuotient(z, zMax, interval);
    }
    CeilBounds(zMin / interval);
    assert ContourLevels(zMin, zMax, interval).value[m - a] == z;
  }

  lemma MonotoneQuotient(x: real, y: real, interval: real)
    requires interval > 0.0 && x <= y
    ensures x / interval <= y / interval
  {
  }

  lemma NextMultiple(i: int, interval: real)
    ensures (i + 1) as real * interval == i as real * interval + interval
  {
  }

  // ---------------------------------------------------------------------
  // Major levels
  // ---------------------------------------------------------------------

  /** Python's float %: the remainder takes the sign of the divisor. */
  function PyMod(a: real, b: real): (r: real)
    requires b != 0.0
    ensures b > 0.0 ==> 0.0 <= r < b
    ensures b < 0.0 ==> b < r <= 0.0
  {
    var q := (a / b).Floor;
    FloorRemainder(a, b, q);
    a - b * q as real
  }

  /** The remainder left after taking the floor of the quotient lies between 0 and the divisor. */
  lemma FloorRemainder(a: real, b: real, q: int)
    requires b != 0.0 && q == (a / b).Floor
    ensures b > 0.0 ==> 0.0 <= a - b * q as real < b
    ensures b < 0.0 ==> b < a - b * q as real <= 0.0
  {
    assert q as real <= a / b < q as real + 1.0;
    if b > 0.0 {
      QuotientBounds(a, q as real, b);
      QuotientBounds(a, q as real + 1.0, b);
    } else {
      NegativeQuotientBounds(a, q as real, b);
      NegativeQuotientBounds(a, q as real + 1.0, b);
    }
  }

  lemma NegativeQuotientBounds(z: real, q: real, interval: real)
    requires interval < 0.0
    ensures q <= z / interval ==> z <= q * interval
    ensures z / interval < q ==> q * interval < z
  {
    QuotientBounds(-z, q, -interval);
    assert -z / -interval == z / interval;
  }

  /**
   * abs(level % major) < 0.001. With a zero major interval numpy's % gives
   * nan, and the comparison is false.
   */
  predicate IsMajor(level: real, major: real)
    ensures major > 0.0 ==> (IsMajor(level, major) <==> level - (level / major).Floor as real * major < 0.001)
  {
    major != 0.0 && (if PyMod(level, major) < 0.0 then -PyMod(level, major) else PyMod(level, major)) < 0.001
  }

  lemma {:induction false} ModOfMultiple(k: int, major: real)
    requires major != 0.0
    ensures PyMod(k as real * major, major) == 0.0
  {
    assert (k as real * major) / major == k as real;
  }

  /** Every multiple of a non-zero major interval is a major level. */
  lemma MultiplesAreMajor(k: int, major: real)
    requires major != 0.0
    ensures IsMajor(k as real * major, major)
  {
    ModOfMultiple(k, major);
  }

  /** The levels that are major, in order (the major_levels loop). */
  function MajorOf(levels: seq<real>, major: real): seq<real>
  {
    if levels == [] then []
    else
      var last := levels[|levels| - 1];
      MajorOf(levels[..|levels| - 1], major) + (if IsMajor(last, major) then [last] else [])
  }

  method MajorLevels(levels: seq<real>, major: real) returns (majorLevels: seq<real>)
    ensures majorLevels == MajorOf(levels, major)
  {
    majorLevels := [];
    for i := 0 to |levels|
      invariant majorLevels == MajorOf(levels[..i], major)
    {
      assert levels[..i + 1][..i] == levels[..i];
      if IsMajor(levels[i], major) {
        majorLevels := majorLevels + [levels[i]];
      }
    }
    assert levels[..|levels|] == levels;
  }

  /** `elevation in major_levels` holds exactly for the levels that pass the major test. */
  lemma {:induction false} MajorMembership(levels: seq<real>, major: real, z: real)
    ensures z in MajorOf(levels, major) <==> z in levels && IsMajor(z, major)
  {
    if levels != [] {
      var front := levels[..|levels| - 1];
      MajorMembership(front, major, z);
      assert levels == front + [levels[|levels| - 1]];
    }
  }
}
