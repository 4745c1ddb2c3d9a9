/**
 * add_leg_labels, which both plan classes carry in identical copies: the
 * distance of a leg is written at its midpoint on the inside of the polygon,
 * and its bearing (degrees, then minutes) at 20% and 80% along the leg on the
 * outside, all rotated to the leg's angle and turned half a circle when the
 * leg points leftwards so that the text stays upright.
 */
module LegLabels {
  import opened Wrappers
  import opened Geometry
  import opened Survey
  import opened Drawing

  /**
   * The rotation of the labels: turned exactly for the legs line_direction
   * calls right-to-left, and then by half a circle.
   */
  function TextAngle(angle: real): (r: real)
    ensures r != angle <==> LineDirection(angle) == RightToLeft
    ensures r != angle ==> r == angle + 180.0
  {
    if angle > 90.0 || angle < -90.0 then angle + 180.0 else angle
  }

  /** Up to a full turn, the labels' rotation lies in [-90, 90]: the text is never upside down. */
  lemma TextUpright(angle: real)
    requires -180.0 < angle <= 180.0
    ensures -90.0 <= TextAngle(angle) <= 90.0 || -90.0 < TextAngle(angle) - 360.0 <= 0.0
  {
  }

  /** The point the fraction t of the way along the leg. */
  function Along(leg: Leg, t: real): Point
  {
    var p, d := Position(leg.from), LegVector(leg);
    Point(p.x + t * d.x, p.y + t * d.y)
  }

  function Midpoint(leg: Leg): Point
  {
    var p, q := Position(leg.from), Position(leg.to);
    Point((p.x + q.x) / 2.0, (p.y + q.y) / 2.0)
  }

  /** A normal divided by its length and multiplied by the offset distance. */
  function UnitOffset(n: Point, length: real, distance: real): Point
    requires length != 0.0
  {
    Point(n.x / length * distance, n.y / length * distance)
  }

  /**
   * The (inside, outside) offsets: the two normals of the leg scaled to the
   * offset distance. `leg.length` stands for math.hypot of the normals, which
   * is the length of the leg.
   */
  function Offsets(leg: Leg, orientation: string, distance: real): (Point, Point)
    requires leg.length != 0.0
  {
    var normals := LineNormals(Position(leg.from), Position(leg.to), orientation);
    (UnitOffset(normals.0, leg.length, distance), UnitOffset(normals.1, leg.length, distance))
  }

  /** Where the three labels of a leg go, and their common rotation. */
  datatype Placement = Placement(distanceAt: Point, degreesAt: Point, minutesAt: Point, rotation: real)

  /**
   * The label positions of add_leg_labels; None for a leg of length zero,
   * where the division by math.hypot raises ZeroDivisionError before any
   * label is added. All three share the leg's turned rotation.
   */
  function LabelPlacement(leg: Leg, orientation: string, distance: real): (r: Option<Placement>)
    ensures r.Some? <==> leg.length != 0.0
    ensures r.Some? ==> r.value.rotation == TextAngle(leg.angle)
  {
    if leg.length == 0.0 then None
    else
      var offsets := Offsets(leg, orientation, distance);
      var first, last := Add(Along(leg, 0.2), offsets.1), Add(Along(leg, 0.8), offsets.1);
      var mid := Add(Midpoint(leg), offsets.0);
      if LineDirection(leg.angle) == LeftToRight then Some(Placement(mid, first, last, TextAngle(leg.angle)))
      else Some(Placement(mid, last, first, TextAngle(leg.angle)))
  }

  /** A centred LABELS text with the given content, height and rotation. */
  predicate LabelText(e: Entity, content: Content, height: real, rotation: real)
  {
    && e.Text? && e.content == content && e.layer == Labels && e.align == MiddleCenter
    && e.height == height && e.rotation == rotation
  }

  /**
   * The texts add_leg_labels adds through add_text, in order: the distance,
   * the degrees, the minutes, all at the label scale and with the drawing
   * scale as the offset distance.
   */
  function LegLabelEntities(scale: real, leg: Leg, orientation: string, labelScale: real): (r: Option<seq<Entity>>)
    ensures r.Some? <==> leg.length != 0.0
    ensures r.Some? ==>
      |r.value| == 3
  {
    match LabelPlacement(leg, orientation, 1.0 * scale)
    case None => None
    case Some(p) =>
      Some(TextEntities(scale, Metres(leg.distance), p.distanceAt.x, p.distanceAt.y, p.rotation, labelScale)
         + TextEntities(scale, Degrees(leg.bearing.degrees), p.degreesAt.x, p.degreesAt.y, p.rotation, labelScale)
         + TextEntities(scale, Minutes(leg.bearing.minutes), p.minutesAt.x, p.minutesAt.y, p.rotation, labelScale))
  }

  /**
   * The three labels are centred LABELS texts at the label scale, all with
   * the leg's turned rotation: the distance, then the degrees, then the
   * minutes.
   */
  lemma LegLabelTexts(scale: real, leg: Leg, orientation: string, labelScale: real)
    requires leg.length != 0.0
    ensures var es := LegLabelEntities(scale, leg, orientation, labelScale).value;
      && LabelText(es[0], Metres(leg.distance), labelScale * scale, TextAngle(leg.angle))
      && LabelText(es[1], Degrees(leg.bearing.degrees), labelScale * scale, TextAngle(leg.angle))
      && LabelText(es[2], Minutes(leg.bearing.minutes), labelScale * scale, TextAngle(leg.angle))
  {
  }

  /** add_leg_labels, with the anchor coordinates moved step by step as in the source. */
  method AddLegLabels(drawer: SurveyDXFManager, leg: Leg, orientation: string, labelScale: real)
    returns (ok: bool)
    modifies drawer
    ensures ok <==> leg.length != 0.0
    ensures ok ==> drawer.entities
                   == old(drawer.entities) + LegLabelEntities(drawer.scale, leg, orientation, labelScale).value
    ensures !ok ==> drawer.entities == old(drawer.entities)
  {
    var from, to := leg.from, leg.to;
    var angleDeg := leg.angle;

    var firstX := from.easting + 0.2 * (to.easting - from.easting);
    var firstY := from.northing + 0.2 * (to.northing - from.northing);
    var lastX := from.easting + 0.8 * (to.easting - from.easting);
    var lastY := from.northing + 0.8 * (to.northing - from.northing);
    var midX := (from.easting + to.easting) / 2.0;
    var midY := (from.northing + to.northing) / 2.0;

    var normals := LineNormals(Point(from.easting, from.northing), Point(to.easting, to.northing), orientation);
    var offsetDistance := 1.0 * drawer.scale;
    if leg.length == 0.0 {
      return false;
    }
    var inside, outside := UnitOffset(normals.0, leg.length, offsetDistance), UnitOffset(normals.1, leg.length, offsetDistance);
    var insideX, insideY := inside.x, inside.y;
    var outsideX, outsideY := outside.x, outside.y;

    firstX, firstY := firstX + outsideX, firstY + outsideY;
    lastX, lastY := lastX + outsideX, lastY + outsideY;
    midX, midY := midX + insideX, midY + insideY;

    var textAngle := angleDeg;
    if textAngle > 90.0 || textAngle < -90.0 {
      textAngle := textAngle + 180.0;
    }

    ghost var p := LabelPlacement(leg, orientation, offsetDistance).value;
    ghost var before := drawer.entities;
    assert p.distanceAt == Point(midX, midY) && p.rotation == textAngle;
    drawer.AddText(Metres(leg.distance), midX, midY, textAngle, labelScale);
    var ld := LineDirection(angleDeg);
    if ld == LeftToRight {
      assert p.degreesAt == Point(firstX, firstY) && p.minutesAt == Point(lastX, lastY);
      drawer.AddText(Degrees(leg.bearing.degrees), firstX, firstY, textAngle, labelScale);
      drawer.AddText(Minutes(leg.bearing.minutes), lastX, lastY, textAngle, labelScale);
    } else {
      assert p.degreesAt == Point(lastX, lastY) && p.minutesAt == Point(firstX, firstY);
      drawer.AddText(Degrees(leg.bearing.degrees), lastX, lastY, textAngle, labelScale);
      drawer.AddText(Minutes(leg.bearing.minutes), firstX, firstY, textAngle, labelScale);
    }
    ok := true;
  }

  /** The labels of a leg list in order, stopping at the first leg of length zero. */
  function LegsEmitted(scale: real, legs: seq<Leg>, orientation: string, labelScale: real): Emitted
  {
    if legs == [] then Emitted([], true)
    else
      var front := LegsEmitted(scale, legs[..|legs| - 1], orientation, labelScale);
      if !front.complete then front
      else match LegLabelEntities(scale, legs[|legs| - 1], orientation, labelScale)
        case None => Emitted(front.entities, false)
        case Some(es) => Emitted(front.entities + es, true)
  }

  /** Once a leg has failed, the later legs add nothing. */
  lemma {:induction false} StaysStopped(scale: real, legs: seq<Leg>, k: nat, orientation: string, labelScale: real)
    requires k <= |legs| && !LegsEmitted(scale, legs[..k], orientation, labelScale).complete
    ensures LegsEmitted(scale, legs, orientation, labelScale) == LegsEmitted(scale, legs[..k], orientation, labelScale)
  {
    if k < |legs| {
      var front := legs[..|legs| - 1];
      assert front[..k] == legs[..k];
      StaysStopped(scale, front, k, orientation, labelScale);
    } else {
      assert legs[..k] == legs;
    }
  }

  /** One step of the leg loop: leg i adds its labels, or stops the list without adding anything. */
  lemma LegsExtend(scale: real, legs: seq<Leg>, i: nat, orientation: string, labelScale: real)
    requires i < |legs| && LegsEmitted(scale, legs[..i], orientation, labelScale).complete
    ensures var before := LegsEmitted(scale, legs[..i], orientation, labelScale);
      var after := LegsEmitted(scale, legs[..i + 1], orientation, labelScale);
      && (legs[i].length != 0.0 ==>
            after == Emitted(before.entities + LegLabelEntities(scale, legs[i], orientation, labelScale).value, true))
      && (legs[i].length == 0.0 ==> after == Emitted(before.entities, false))
  {
    assert legs[..i + 1][..i] == legs[..i];
  }

  /** The `for leg in legs: self.add_leg_labels(leg, orientation)` loop of the plan classes. */
  method LabelLegs(drawer: SurveyDXFManager, legs: seq<Leg>, orientation: string, labelScale: real)
    returns (ok: bool)
    modifies drawer
    ensures drawer.entities
         == old(drawer.entities) + LegsEmitted(drawer.scale, legs, orientation, labelScale).entities
    ensures ok == LegsEmitted(drawer.scale, legs, orientation, labelScale).complete
  {
    for i := 0 to |legs|
      invariant drawer.entities
             == old(drawer.entities) + LegsEmitted(drawer.scale, legs[..i], orientation, labelScale).entities
      invariant LegsEmitted(drawer.scale, legs[..i], orientation, labelScale).complete
    {
      LegsExtend(drawer.scale, legs, i, orientation, labelScale);
      var legOk := AddLegLabels(drawer, legs[i], orientation, labelScale);
      if !legOk {
        StaysStopped(drawer.scale, legs, i + 1, orientation, labelScale);
        return false;
      }
    }
    assert legs[..|legs|] == legs;
    ok := true;
  }

  /**
   * The leg loop runs to the end exactly when no leg has length zero, and
   * then adds three texts per leg.
   */
  lemma {:induction false} LegsComplete(scale: real, legs: seq<Leg>, orientation: string, labelScale: real)
    ensures LegsEmitted(scale, legs, orientation, labelScale).complete
        <==> forall i :: 0 <= i < |legs| ==> legs[i].length != 0.0
    ensures LegsEmitted(scale, legs, orientation, labelScale).complete
        ==> |LegsEmitted(scale, legs, orientation, labelScale).entities| == 3 * |legs|
  {
    if legs != [] {
      var front, last := legs[..|legs| - 1], legs[|legs| - 1];
      LegsComplete(scale, front, orientation, labelScale);
      LegsStep(scale, legs, orientation, labelScale);
      assert forall i :: 0 <= i < |front| ==> front[i] == legs[i];
      assert (forall i :: 0 <= i < |legs| ==> legs[i].length != 0.0)
         <==> (forall i :: 0 <= i < |front| ==> front[i].length != 0.0) && last.length != 0.0;
    }
  }

  /** One more leg: the list completes when the front does and the last leg has a length, adding three texts. */
  lemma LegsStep(scale: real, legs: seq<Leg>, orientation: string, labelScale: real)
    requires legs != []
    ensures var front, last := LegsEmitted(scale, legs[..|legs| - 1], orientation, labelScale), legs[|legs| - 1];
      && (LegsEmitted(scale, legs, orientation, labelScale).complete <==> front.complete && last.length != 0.0)
      && (LegsEmitted(scale, legs, orientation, labelScale).complete
          ==> |LegsEmitted(scale, legs, orientation, labelScale).entities| == |front.entities| + 3)
  {
    var labels := LegLabelEntities(scale, legs[|legs| - 1], orientation, labelScale);
    assert labels.Some? ==> |labels.value| == 3;
  }

  // ---------------------------------------------------------------------
  // Where the labels end up
  // ---------------------------------------------------------------------

  lemma DivideThenScale(a: real, length: real, distance: real)
    requires length != 0.0
    ensures a / length * distance == a * (distance / length)
  {
  }

  lemma ScaledNorm(n: Point, k: real)
    ensures Norm2(Times(n, k)) == k * k * Norm2(n)
  {
  }

  lemma ScaledCross(d: Point, n: Point, k: real)
    ensures Cross(d, Times(n, k)) == k * Cross(d, n)
    ensures Dot(Times(n, k), d) == k * Dot(n, d)
  {
  }

  lemma SquareOfRatio(distance: real, length: real, norm2: real)
    requires length != 0.0 && length * length == norm2
    ensures (distance / length) * (distance / length) * norm2 == distance * distance
  {
    var k := distance / length;
    assert k * length == distance;
    calc {
      k * k * norm2;
    == k * k * (length * length);
    == (k * length) * (k * length);
    == distance * distance;
    }
  }

  lemma RatioTimesSquare(distance: real, length: real, norm2: real)
    requires length != 0.0 && length * length == norm2
    ensures (distance / length) * norm2 == distance * length
  {
    var k := distance / length;
    assert k * length == distance;
    calc {
      k * norm2;
    == k * (length * length);
    == (k * length) * length;
    == distance * length;
    }
  }

  /** Dividing a normal by the length and multiplying by the distance scales it by distance / length. */
  lemma UnitOffsetScales(n: Point, length: real, distance: real)
    requires length != 0.0
    ensures UnitOffset(n, length, distance) == Times(n, distance / length)
    ensures UnitOffset(Neg(n), length, distance) == Neg(UnitOffset(n, length, distance))
  {
    DivideThenScale(n.x, length, distance);
    DivideThenScale(n.y, length, distance);
  }

  /**
   * A normal n of d, as long as d, whose length is `length`, scaled to
   * `distance`: it stays perpendicular to d, becomes `distance` long, and its
   * cross product with d is Cross(d, n) scaled by distance / length.
   */
  lemma NormalOffset(n: Point, d: Point, length: real, distance: real)
    requires length != 0.0 && length * length == Norm2(d)
    requires Norm2(n) == Norm2(d) && Dot(n, d) == 0.0
    ensures Dot(UnitOffset(n, length, distance), d) == 0.0
    ensures Norm2(UnitOffset(n, length, distance)) == distance * distance
    ensures Cross(d, n) == Norm2(d) ==> Cross(d, UnitOffset(n, length, distance)) == distance * length
    ensures Cross(d, n) == -Norm2(d) ==> Cross(d, UnitOffset(n, length, distance)) == -(distance * length)
  {
    var k := distance / length;
    UnitOffsetScales(n, length, distance);
    ScaledNorm(n, k);
    ScaledCross(d, n, k);
    SquareOfRatio(distance, length, Norm2(d));
    RatioTimesSquare(distance, length, Norm2(d));
  }

  /**
   * For a measured leg the two offsets are opposite, perpendicular to the
   * leg and exactly the offset distance long; the inside one points to the
   * left of the leg for "CCW" and to the right otherwise, at signed distance
   * `distance` from the leg's line.
   */
  lemma OffsetGeometry(leg: Leg, orientation: string, distance: real)
    requires Measured(leg) && leg.length != 0.0
    ensures var o, d := Offsets(leg, orientation, distance), LegVector(leg);
      && o.1 == Neg(o.0)
      && Dot(o.0, d) == 0.0
      && Norm2(o.0) == distance * distance
      && Cross(d, o.0) == (if orientation == CCW then distance * leg.length else -(distance * leg.length))
  {
    var n := LineNormals(Position(leg.from), Position(leg.to), orientation);
    UnitOffsetScales(n.0, leg.length, distance);
    NormalOffset(n.0, LegVector(leg), leg.length, distance);
  }

  lemma CrossLinear(d: Point, a: Point, o: Point, t: real)
    requires a == Point(t * d.x, t * d.y)
    ensures Cross(d, Add(a, o)) == Cross(d, o)
  {
  }

  /**
   * The distance label sits on the inside side of the leg and both bearing
   * labels on the outside side, each at the offset distance from the leg's
   * line (signed distance Cross(d, x - from) / length).
   */
  lemma LabelSides(leg: Leg, orientation: string, distance: real)
    requires Measured(leg) && leg.length != 0.0
    ensures var p, d, from := LabelPlacement(leg, orientation, distance).value, LegVector(leg), Position(leg.from);
      var side := if orientation == CCW then distance * leg.length else -(distance * leg.length);
      && Cross(d, Sub(p.distanceAt, from)) == side
      && Cross(d, Sub(p.degreesAt, from)) == -side
      && Cross(d, Sub(p.minutesAt, from)) == -side
  {
    var p := LabelPlacement(leg, orientation, distance).value;
    var o := Offsets(leg, orientation, distance);
    var d, from := LegVector(leg), Position(leg.from);
    OffsetGeometry(leg, orientation, distance);
    assert Cross(d, o.1) == -Cross(d, o.0);
    CrossLinear(d, Sub(Midpoint(leg), from), o.0, 0.5);
    CrossLinear(d, Sub(Along(leg, 0.2), from), o.1, 0.2);
    CrossLinear(d, Sub(Along(leg, 0.8), from), o.1, 0.8);
    assert Sub(p.distanceAt, from) == Add(Sub(Midpoint(leg), from), o.0);
    assert Sub(Add(Along(leg, 0.2), o.1), from) == Add(Sub(Along(leg, 0.2), from), o.1);
    assert Sub(Add(Along(leg, 0.8), o.1), from) == Add(Sub(Along(leg, 0.8), from), o.1);
  }

  /**
   * The bearing reads in the labels' direction: the minutes label lies 60% of
   * the leg further along the reading direction than the degrees label (the
   * leg's own direction for a left-to-right leg, the reverse otherwise), and
   * for a measured leg it is never to the left of the degrees label.
   */
  lemma BearingReadingOrder(leg: Leg, orientation: string, distance: real)
    requires leg.length != 0.0
    ensures var p, d := LabelPlacement(leg, orientation, distance).value, LegVector(leg);
      && Sub(p.minutesAt, p.degreesAt)
         == (if LineDirection(leg.angle) == LeftToRight then Times(d, 0.6) else Times(d, -0.6))
      && (Measured(leg) ==> p.degreesAt.x <= p.minutesAt.x)
      && (Measured(leg) && d.x != 0.0 ==> p.degreesAt.x < p.minutesAt.x)
  {
  }

  /**
   * Measured along the leg from its start, the distance label sits at the
   * middle of the leg and the bearing labels at 20% and 80% of it: degrees
   * at 20% and minutes at 80% for a left-to-right leg, the other way round
   * otherwise. The offsets are perpendicular to the leg, so they move the
   * labels off the line but not along it.
   */
  lemma LabelsAlongLeg(leg: Leg, orientation: string, distance: real)
    requires Measured(leg) && leg.length != 0.0
    ensures var p, from, d := LabelPlacement(leg, orientation, distance).value, Position(leg.from), LegVector(leg);
      var rightward := LineDirection(leg.angle) == LeftToRight;
      && Dot(d, Sub(p.distanceAt, from)) == 0.5 * Norm2(d)
      && Dot(d, Sub(p.degreesAt, from)) == (if rightward then 0.2 else 0.8) * Norm2(d)
      && Dot(d, Sub(p.minutesAt, from)) == (if rightward then 0.8 else 0.2) * Norm2(d)
  {
    var from, d := Position(leg.from), LegVector(leg);
    var o := Offsets(leg, orientation, distance);
    OffsetGeometry(leg, orientation, distance);
    assert Dot(o.1, d) == 0.0;
    assert Midpoint(leg) == Along(leg, 0.5);
    AlongOffset(from, d, o.0, 0.5);
    AlongOffset(from, d, o.1, 0.2);
    AlongOffset(from, d, o.1, 0.8);
  }

  /** A point t of the way along d from `from`, moved by an offset perpendicular to d, is still t along d. */
  lemma AlongOffset(from: Point, d: Point, o: Point, t: real)
    requires Dot(o, d) == 0.0
    ensures Dot(d, Sub(Add(Point(from.x + t * d.x, from.y + t * d.y), o), from)) == t * Norm2(d)
  {
    var v := Sub(Add(Point(from.x + t * d.x, from.y + t * d.y), o), from);
    assert v == Point(t * d.x + o.x, t * d.y + o.y);
    assert Dot(d, v) == t * (d.x * d.x + d.y * d.y) + (o.x * d.x + o.y * d.y);
  }
}
