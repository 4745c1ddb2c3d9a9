/**
 * The survey records the two plan classes read: coordinates with an id, the
 * legs of a traverse with their bearing and distance, parcels and the
 * topographic boundary. The pydantic record shapes the plans use are not the
 * ones declared in models/plan.py, so the fields here are the ones the plan
 * code reads.
 */
module Survey {
  import opened Geometry

  datatype PlanType = Cadastral | Layout | Topographic | Route

  datatype Coordinate = Coordinate(id: string, easting: real, northing: real, elevation: real)

  /** The plan position (easting, northing) of a coordinate. */
  function Position(c: Coordinate): Point { Point(c.easting, c.northing) }

  datatype Bearing = Bearing(degrees: int, minutes: int, seconds: real)

  /**
   * A traverse leg. `angle` is math.degrees(math.atan2(dy, dx)) of the leg
   * vector and `length` is math.hypot of its normal; both come from the math
   * library and are characterised by `Measured` rather than computed.
   */
  datatype Leg = Leg(from: Coordinate, to: Coordinate, bearing: Bearing, distance: real,
                     angle: real, length: real)

  /** The vector from the start of the leg to its end. */
  function LegVector(leg: Leg): Point { Sub(Position(leg.to), Position(leg.from)) }

  /**
   * What atan2 in degrees promises about the angle of the vector (dx, dy):
   * it lies in (-180, 180]; it is within [-90, 90] exactly when dx >= 0;
   * its sign is the sign of dy, with 0 and 180 on the positive and negative
   * x axis.
   */
  predicate IsAtan2Degrees(angle: real, dx: real, dy: real)
  {
    && -180.0 < angle <= 180.0
    && (-90.0 <= angle <= 90.0 <==> dx >= 0.0)
    && (dy > 0.0 ==> angle > 0.0)
    && (dy < 0.0 ==> angle < 0.0)
    && (dy == 0.0 && dx >= 0.0 ==> angle == 0.0)
    && (dy == 0.0 && dx < 0.0 ==> angle == 180.0)
  }

  /** The leg's angle and length are atan2 and hypot of its vector. */
  predicate Measured(leg: Leg)
  {
    var d := LegVector(leg);
    && IsAtan2Degrees(leg.angle, d.x, d.y)
    && leg.length >= 0.0
    && leg.length * leg.length == Norm2(d)
  }

  /**
   * line_direction of a measured leg's angle is "left → right" exactly when
   * the leg does not run westwards (its easting does not decrease).
   */
  lemma DirectionFollowsEasting(leg: Leg)
    requires Measured(leg)
    ensures LineDirection(leg.angle) == LeftToRight <==> LegVector(leg).x >= 0.0
    ensures LineDirection(leg.angle) == RightToLeft <==> LegVector(leg).x < 0.0
  {
  }

  /**
   * A measured leg has length zero exactly when its two ends are the same
   * plan position, so a zero-length leg is a degenerate one.
   */
  lemma ZeroLengthIffCoincident(leg: Leg)
    requires Measured(leg)
    ensures leg.length == 0.0 <==> Position(leg.from) == Position(leg.to)
  {
    var d := LegVector(leg);
    if leg.length == 0.0 {
      assert d.x * d.x + d.y * d.y == 0.0;
      SquaresZero(d.x, d.y);
    }
    if Position(leg.from) == Position(leg.to) {
      assert d == Point(0.0, 0.0);
      RootZero(leg.length);
    }
  }

  lemma SquarePositive(x: real)
    requires x != 0.0
    ensures x * x > 0.0
  {
    if x < 0.0 {
      calc { x * x; == (-x) * (-x); > 0.0 * (-x); == 0.0; }
    } else {
      calc { x * x; > 0.0 * x; == 0.0; }
    }
  }

  lemma SquareNonNegative(x: real)
    ensures x * x >= 0.0
  {
    if x != 0.0 {
      SquarePositive(x);
    }
  }

  /** Only zero squares to zero. */
  lemma RootZero(l: real)
    requires l * l == 0.0
    ensures l == 0.0
  {
    if l != 0.0 {
      SquarePositive(l);
      calc { 0.0; == l * l; > 0.0; }
    }
  }

  /** A sum of two squares is zero only when both terms are. */
  lemma SquaresZero(a: real, b: real)
    requires a * a + b * b == 0.0
    ensures a == 0.0 && b == 0.0
  {
    if a != 0.0 {
      SquarePositive(a);
      SquareNonNegative(b);
      calc { 0.0; == a * a + b * b; >= a * a; > 0.0; }
    }
    if b != 0.0 {
      SquarePositive(b);
      SquareNonNegative(a);
      calc { 0.0; == a * a + b * b; >= b * b; > 0.0; }
    }
  }

  datatype Parcel = Parcel(name: string, ids: seq<string>, legs: seq<Leg>)

  datatype Boundary = Boundary(coordinates: seq<Coordinate>, legs: seq<Leg>, area: real)
}
