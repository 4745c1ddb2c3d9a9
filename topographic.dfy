/**
 * TopographicPlan: a plan of type TOPOGRAPHIC draws the boundary beacons
 * once per id, the contour lines of the surveyed elevations with labels on
 * the major ones, and the double border. The bounding box and the drawing
 * scale, which the plan record supplies, are given to the constructor, and
 * the contour lines traced through the triangulated points are an input.
 */
module Topographic {
  import opened Wrappers
  import opened Geometry
  import opened Survey
  import opened Drawing
  import opened Sheet
  import opened Contours
  import opened Plans

  // ---------------------------------------------------------------------
  // Frame coordinates
  // ---------------------------------------------------------------------

  /**
   * _setup_frame_coords: margins of 0.35 and 0.8 of the larger side around
   * the bounding box, and no frame when the box is unknown.
   */
  function FrameCoords(bbox: Option<Rect>): (r: Option<Rect>)
    ensures r.Some? <==> bbox.Some?
    ensures r.Some? ==> r.value == Expand(bbox.value, TopographicFrameX, TopographicFrameY)
    ensures r.Some? ==> Width(r.value) == Width(bbox.value) + 2.0 * TopographicFrameX * Extent(bbox.value)
    ensures r.Some? ==> Height(r.value) == Height(bbox.value) + 2.0 * TopographicFrameY * Extent(bbox.value)
  {
    if bbox.None? then None else Some(Expand(bbox.value, TopographicFrameX, TopographicFrameY))
  }

  // ---------------------------------------------------------------------
  // Boundary beacons, each id once
  // ---------------------------------------------------------------------

  function IdsOf(cs: seq<Coordinate>): (r: seq<string>)
    ensures |r| == |cs| && forall i :: 0 <= i < |cs| ==> r[i] == cs[i].id
  {
    seq(|cs|, i requires 0 <= i < |cs| => cs[i].id)
  }

  /** The coordinates draw_beacons draws: the `check` list skips an id already drawn. */
  function FirstOccurrences(coords: seq<Coordinate>): (r: seq<Coordinate>)
    ensures |r| <= |coords|
    ensures forall j :: 0 <= j < |r| ==> r[j] in coords
  {
    if coords == [] then []
    else
      var front := coords[..|coords| - 1];
      var kept := FirstOccurrences(front);
      var c := coords[|coords| - 1];
      assert forall j :: 0 <= j < |kept| ==> kept[j] in front && kept[j] in coords;
      if c.id in IdsOf(kept) then kept else kept + [c]
  }

  /**
   * The drawn coordinates have distinct ids, are coordinates of the
   * boundary, and cover every id of the boundary.
   */
  lemma {:induction false} FirstOccurrencesSound(coords: seq<Coordinate>)
    ensures forall i, j :: 0 <= i < j < |FirstOccurrences(coords)|
                           ==> FirstOccurrences(coords)[i].id != FirstOccurrences(coords)[j].id
    ensures forall i :: 0 <= i < |coords| ==> coords[i].id in IdsOf(FirstOccurrences(coords))
  {
    if coords != [] {
      var front := coords[..|coords| - 1];
      var c := coords[|coords| - 1];
      var kept := FirstOccurrences(front);
      FirstOccurrencesSound(front);
      assert forall i :: 0 <= i < |front| ==> front[i] == coords[i];
      if c.id !in IdsOf(kept) {
        var r := kept + [c];
        assert forall j :: 0 <= j < |kept| ==> r[j] == kept[j];
        assert forall j :: 0 <= j < |kept| ==> IdsOf(r)[j] == IdsOf(kept)[j];
        assert IdsOf(r)[|kept|] == c.id;
        forall i | 0 <= i < |coords|
          ensures coords[i].id in IdsOf(r)
        {
          if i < |front| {
            var j :| 0 <= j < |kept| && IdsOf(kept)[j] == front[i].id;
            assert IdsOf(r)[j] == coords[i].id;
          }
        }
      }
    }
  }

  /** The first coordinate carrying an id is the one drawn for it. */
  lemma {:induction false} FirstOccurrenceDrawn(coords: seq<Coordinate>, i: int)
    requires 0 <= i < |coords|
    requires forall k :: 0 <= k < i ==> coords[k].id != coords[i].id
    ensures coords[i] in FirstOccurrences(coords)
  {
    var front := coords[..|coords| - 1];
    var c := coords[|coords| - 1];
    var kept := FirstOccurrences(front);
    if i < |coords| - 1 {
      assert front[i] == coords[i];
      assert forall k :: 0 <= k < i ==> front[k] == coords[k];
      FirstOccurrenceDrawn(front, i);
    } else {
      FirstOccurrencesSound(front);
      assert (kept + [c])[|kept|] == c;
    }
  }

  /** One step of draw_beacons' loop: a coordinate whose id is in `check` is skipped. */
  lemma FirstOccurrencesStep(coords: seq<Coordinate>, i: nat, kept: seq<Coordinate>, check: seq<string>)
    requires i < |coords| && kept == FirstOccurrences(coords[..i]) && check == IdsOf(kept)
    ensures coords[i].id in check ==> FirstOccurrences(coords[..i + 1]) == kept
    ensures coords[i].id !in check ==>
      && FirstOccurrences(coords[..i + 1]) == kept + [coords[i]]
      && IdsOf(kept + [coords[i]]) == check + [coords[i].id]
  {
    assert coords[..i + 1][..i] == coords[..i];
  }

  /** The loop of draw_beacons, with the `check` list of ids drawn so far. */
  method DrawDistinctBeacons(drawer: SurveyDXFManager, coords: seq<Coordinate>, labelScale: real)
    modifies drawer
    ensures drawer.entities
         == old(drawer.entities) + BeaconsEntities(drawer.scale, FirstOccurrences(coords), labelScale)
  {
    var check: seq<string> := [];
    ghost var kept: seq<Coordinate> := [];
    for i := 0 to |coords|
      invariant kept == FirstOccurrences(coords[..i])
      invariant check == IdsOf(kept)
      invariant drawer.entities == old(drawer.entities) + BeaconsEntities(drawer.scale, kept, labelScale)
    {
      var coord := coords[i];
      FirstOccurrencesStep(coords, i, kept, check);
      if coord.id in check {
        continue;
      }
      drawer.DrawBeacon(coord.easting, coord.northing, 0.0, labelScale, Some(coord.id));
      BeaconsSnoc(drawer.scale, kept, coord, labelScale);
      AppendAssociates(old(drawer.entities), BeaconsEntities(drawer.scale, kept, labelScale),
                       BeaconOf(drawer.scale, coord, labelScale));
      check := check + [coord.id];
      kept := kept + [coord];
    }
    assert coords[..|coords|] == coords;
  }

  // ---------------------------------------------------------------------
  // Contours
  // ---------------------------------------------------------------------

  /** The topographic settings draw_contours reads. */
  datatype ContourSettings = ContourSettings(contourInterval: real, majorContour: real,
                                             minimumDistance: real, contourLabelScale: real)

  function Elevations(coords: seq<Coordinate>): (z: seq<real>)
    ensures |z| == |coords| && forall i :: 0 <= i < |coords| ==> z[i] == coords[i].elevation
  {
    seq(|coords|, i requires 0 <= i < |coords| => coords[i].elevation)
  }

  /** The loop that appends each coordinate's elevation to z. */
  method CollectElevations(coords: seq<Coordinate>) returns (z: seq<real>)
    ensures z == Elevations(coords)
  {
    z := [];
    for i := 0 to |coords|
      invariant z == Elevations(coords[..i])
    {
      z := z + [coords[i].elevation];
    }
    assert coords[..|coords|] == coords;
  }

  /** z.min(): an element no larger than any other. */
  function SeqMin(z: seq<real>): (m: real)
    requires z != []
    ensures m in z && forall i :: 0 <= i < |z| ==> m <= z[i]
  {
    if |z| == 1 then z[0]
    else
      var m := SeqMin(z[..|z| - 1]);
      if z[|z| - 1] < m then z[|z| - 1] else m
  }

  /** z.max(): an element no smaller than any other. */
  function SeqMax(z: seq<real>): (m: real)
    requires z != []
    ensures m in z && forall i :: 0 <= i < |z| ==> z[i] <= m
  {
    if |z| == 1 then z[0]
    else
      var m := SeqMax(z[..|z| - 1]);
      if z[|z| - 1] > m then z[|z| - 1] else m
  }

  /** [(x, y, elevation) for x, y in filtered_segment]. */
  function Lift(points: seq<Point>, level: real): (r: seq<Point3>)
    ensures |r| == |points| && forall i :: 0 <= i < |points| ==> r[i] == Point3(points[i].x, points[i].y, level)
  {
    seq(|points|, i requires 0 <= i < |points| => Point3(points[i].x, points[i].y, level))
  }

  /** The plan positions of 3D points. */
  function PlanOf(points: seq<Point3>): (r: seq<Point>)
    ensures |r| == |points| && forall i :: 0 <= i < |points| ==> r[i] == Point(points[i].x, points[i].y)
  {
    seq(|points|, i requires 0 <= i < |points| => Point(points[i].x, points[i].y))
  }

  /**
   * One traced segment: skipped when shorter than two points before or
   * after the minimum-distance filter; otherwise a 3D polyline at the
   * level on the major or minor layer, and on a major level with at least
   * three points its elevation at the middle vertex. These entities are
   * added to the modelspace at survey coordinates, without the drawing
   * scale.
   */
  function SegmentEntities(segment: seq<Point>, level: real, isMajor: bool, s: ContourSettings): (r: seq<Entity>)
    ensures |r| <= 2
    ensures r != [] <==> |segment| >= 2 && |MinDistanceFilter(segment, s.minimumDistance)| >= 2
    ensures r != [] ==>
      && r[0].Polyline3D? && |r[0].points| >= 2
      && (forall i :: 0 <= i < |r[0].points| ==> r[0].points[i].z == level)
      && (r[0].layer == ContoursMajor <==> isMajor)
      && (r[0].layer == ContoursMinor <==> !isMajor)
  {
    if |segment| < 2 then []
    else
      var filtered := MinDistanceFilter(segment, s.minimumDistance);
      if |filtered| < 2 then []
      else
        var points := Lift(filtered, level);
        var line := Polyline3D(points, if isMajor then ContoursMajor else ContoursMinor);
        if isMajor && |points| >= 3 then
          var mid := points[|points| / 2];
          [line, Text(OneDecimal(level), Point(mid.x, mid.y), s.contourLabelScale, 0.0,
                      MiddleCenter, ContourLabels, Standard, ByLayer)]
        else [line]
  }

  /** The body of the segment loop of draw_contours. */
  method DrawSegment(drawer: SurveyDXFManager, segment: seq<Point>, level: real, isMajor: bool, s: ContourSettings)
    modifies drawer
    ensures drawer.entities == old(drawer.entities) + SegmentEntities(segment, level, isMajor, s)
  {
    if |segment| < 2 {
      return;
    }
    var filteredSegment := ApplyMinimumDistanceFilter(segment, s.minimumDistance);
    if |filteredSegment| < 2 {
      return;
    }
    var points := Lift(filteredSegment, level);
    var layerName := if isMajor then ContoursMajor else ContoursMinor;
    drawer.AddToModelspace(Polyline3D(points, layerName));
    if isMajor && |points| >= 3 {
      var midIdx := |points| / 2;
      var labelAt := points[midIdx];
      drawer.AddToModelspace(Text(OneDecimal(level), Point(labelAt.x, labelAt.y), s.contourLabelScale, 0.0,
                                  MiddleCenter, ContourLabels, Standard, ByLayer));
    }
  }

  /**
   * A drawn segment runs from the segment's first point to its last through
   * a selection of its points in order; a label follows it exactly when the
   * level is major and the polyline has three points or more, centred on its
   * middle vertex.
   */
  lemma SegmentShape(segment: seq<Point>, level: real, isMajor: bool, s: ContourSettings)
    ensures var r := SegmentEntities(segment, level, isMajor, s);
      r != [] ==>
        && IsSubsequence(PlanOf(r[0].points), segment)
        && PlanOf(r[0].points)[0] == segment[0]
        && PlanOf(r[0].points)[|r[0].points| - 1] == segment[|segment| - 1]
    ensures var r := SegmentEntities(segment, level, isMajor, s);
      && (|r| == 2 <==> r != [] && isMajor && |r[0].points| >= 3)
      && (|r| == 2 ==>
            var mid := r[0].points[|r[0].points| / 2];
            r[1] == Text(OneDecimal(level), Point(mid.x, mid.y), s.contourLabelScale, 0.0,
                         MiddleCenter, ContourLabels, Standard, ByLayer))
  {
    if |segment| >= 2 {
      var filtered := MinDistanceFilter(segment, s.minimumDistance);
      FilterSelects(segment, s.minimumDistance);
      if |filtered| >= 2 {
        var points := Lift(filtered, level);
        assert PlanOf(points) == filtered;
      }
    }
  }

  /** All segments traced at one level, in order. */
  function LevelEntities(segments: seq<seq<Point>>, level: real, isMajor: bool, s: ContourSettings): seq<Entity>
  {
    if segments == [] then []
    else
      LevelEntities(segments[..|segments| - 1], level, isMajor, s)
      + SegmentEntities(segments[|segments| - 1], level, isMajor, s)
  }

  method DrawLevel(drawer: SurveyDXFManager, segments: seq<seq<Point>>, level: real, isMajor: bool, s: ContourSettings)
    modifies drawer
    ensures drawer.entities == old(drawer.entities) + LevelEntities(segments, level, isMajor, s)
  {
    for j := 0 to |segments|
      invariant drawer.entities == old(drawer.entities) + LevelEntities(segments[..j], level, isMajor, s)
    {
      assert segments[..j + 1][..j] == segments[..j];
      DrawSegment(drawer, segments[j], level, isMajor, s);
      AppendAssociates(old(drawer.entities), LevelEntities(segments[..j], level, isMajor, s),
                       SegmentEntities(segments[j], level, isMajor, s));
    }
    assert segments[..|segments|] == segments;
  }

  /**
   * The levels in order, the level at index k drawing the segments traced
   * at it, major exactly when it is among the major levels.
   */
  function TracedEntities(traced: seq<seq<seq<Point>>>, levels: seq<real>, majorLevels: seq<real>,
                          s: ContourSettings): seq<Entity>
    requires |traced| <= |levels|
  {
    if traced == [] then []
    else
      var k := |traced| - 1;
      TracedEntities(traced[..k], levels, majorLevels, s)
      + LevelEntities(traced[k], levels[k], levels[k] in majorLevels, s)
  }

  /** The level loop of draw_contours: is_major is membership in the major levels. */
  method DrawTraced(drawer: SurveyDXFManager, traced: seq<seq<seq<Point>>>, levels: seq<real>,
                    majorLevels: seq<real>, s: ContourSettings)
    requires |traced| <= |levels|
    modifies drawer
    ensures drawer.entities == old(drawer.entities) + TracedEntities(traced, levels, majorLevels, s)
  {
    for levelIdx := 0 to |traced|
      invariant drawer.entities == old(drawer.entities) + TracedEntities(traced[..levelIdx], levels, majorLevels, s)
    {
      assert traced[..levelIdx + 1][..levelIdx] == traced[..levelIdx];
      var elevation := levels[levelIdx];
      var isMajor := elevation in majorLevels;
      DrawLevel(drawer, traced[levelIdx], elevation, isMajor, s);
      AppendAssociates(old(drawer.entities), TracedEntities(traced[..levelIdx], levels, majorLevels, s),
                       LevelEntities(traced[levelIdx], elevation, isMajor, s));
    }
    assert traced[..|traced|] == traced;
  }

  /** The levels of the surveyed elevations, when there are three coordinates or more. */
  function LevelsOf(coords: seq<Coordinate>, s: ContourSettings): Option<seq<real>>
    requires coords != []
  {
    var z := Elevations(coords);
    ContourLevels(SeqMin(z), SeqMax(z), s.contourInterval)
  }

  /**
   * What the triangulation and the contour tracer give: None where the
   * Delaunay triangulation fails (the source raises), else the segments
   * traced at each level, for no more levels than the tracer was given.
   */
  predicate TracedFits(coords: seq<Coordinate>, traced: Option<seq<seq<seq<Point>>>>, s: ContourSettings)
  {
    |coords| >= 3 && traced.Some? && LevelsOf(coords, s).Some? ==> |traced.value| <= |LevelsOf(coords, s).value|
  }

  /**
   * draw_contours: nothing for fewer than three coordinates, None where the
   * triangulation fails or the levels cannot be formed (the source raises),
   * else the traced contours.
   */
  function ContoursEmitted(coords: seq<Coordinate>, traced: Option<seq<seq<seq<Point>>>>, s: ContourSettings)
    : Option<seq<Entity>>
    requires TracedFits(coords, traced, s)
  {
    if |coords| < 3 then Some([])
    else if traced.None? then None
    else
      match LevelsOf(coords, s)
      case None => None
      case Some(levels) => Some(TracedEntities(traced.value, levels, MajorOf(levels, s.majorContour), s))
  }

  /**
   * The contours are drawn whenever there are fewer than three coordinates,
   * or the triangulation succeeds and the interval is positive; never with
   * three or more coordinates and a failed triangulation, a zero interval, or
   * a negative interval smaller than the elevation range (np.linspace is then
   * asked for a negative number of levels).
   */
  lemma ContoursDefined(coords: seq<Coordinate>, traced: Option<seq<seq<seq<Point>>>>, s: ContourSettings)
    requires TracedFits(coords, traced, s)
    ensures |coords| < 3 || (traced.Some? && s.contourInterval > 0.0) ==> ContoursEmitted(coords, traced, s).Some?
    ensures |coords| >= 3 && (traced.None? || s.contourInterval == 0.0) ==> ContoursEmitted(coords, traced, s).None?
    ensures |coords| >= 3 && s.contourInterval < 0.0
            && SeqMax(Elevations(coords)) - SeqMin(Elevations(coords)) > -s.contourInterval
            ==> ContoursEmitted(coords, traced, s).None?
  {
    if |coords| >= 3 && s.contourInterval > 0.0 {
      var z := Elevations(coords);
      assert SeqMin(z) <= z[0] <= SeqMax(z);
    }
  }

  /**
   * What a contour entity is: a polyline of at least two points at one of
   * the levels, on the major layer exactly when that level is major; or the
   * one-decimal label of a major level on CONTOUR_LABELS.
   */
  predicate ContourEntity(e: Entity, levels: seq<real>, major: real)
  {
    match e
    case Polyline3D(ps, layer) =>
      && |ps| >= 2 && ps[0].z in levels
      && (forall i :: 0 <= i < |ps| ==> ps[i].z == ps[0].z)
      && layer == (if IsMajor(ps[0].z, major) then ContoursMajor else ContoursMinor)
    case Text(content, _, _, _, _, layer, _, _) =>
      content.OneDecimal? && content.value in levels && IsMajor(content.value, major) && layer == ContourLabels
    case _ => false
  }

  lemma {:induction false} LevelWellFormed(segments: seq<seq<Point>>, level: real, isMajor: bool,
                                           s: ContourSettings, levels: seq<real>)
    requires level in levels && (isMajor <==> IsMajor(level, s.majorContour))
    ensures forall k :: 0 <= k < |LevelEntities(segments, level, isMajor, s)|
                        ==> ContourEntity(LevelEntities(segments, level, isMajor, s)[k], levels, s.majorContour)
  {
    if segments != [] {
      var front := LevelEntities(segments[..|segments| - 1], level, isMajor, s);
      var last := SegmentEntities(segments[|segments| - 1], level, isMajor, s);
      LevelWellFormed(segments[..|segments| - 1], level, isMajor, s, levels);
      SegmentShape(segments[|segments| - 1], level, isMajor, s);
      assert forall k :: 0 <= k < |last| ==> ContourEntity(last[k], levels, s.majorContour);
      assert forall k :: 0 <= k < |front| ==> (front + last)[k] == front[k];
      assert forall k :: |front| <= k < |front| + |last| ==> (front + last)[k] == last[k - |front|];
    }
  }

  lemma {:induction false} TracedWellFormed(traced: seq<seq<seq<Point>>>, levels: seq<real>, s: ContourSettings)
    requires |traced| <= |levels|
    ensures forall k :: 0 <= k < |TracedEntities(traced, levels, MajorOf(levels, s.majorContour), s)|
                        ==> ContourEntity(TracedEntities(traced, levels, MajorOf(levels, s.majorContour), s)[k], levels, s.majorContour)
  {
    if traced != [] {
      var n := |traced| - 1;
      var majors := MajorOf(levels, s.majorContour);
      var front := TracedEntities(traced[..n], levels, majors, s);
      var last := LevelEntities(traced[n], levels[n], levels[n] in majors, s);
      TracedWellFormed(traced[..n], levels, s);
      MajorMembership(levels, s.majorContour, levels[n]);
      LevelWellFormed(traced[n], levels[n], levels[n] in majors, s, levels);
      assert TracedEntities(traced, levels, majors, s) == front + last;
      assert forall k :: 0 <= k < |front| ==> (front + last)[k] == front[k];
      assert forall k :: |front| <= k < |front| + |last| ==> (front + last)[k] == last[k - |front|];
    }
  }

  /**
   * Everything draw_contours adds is a contour line at one of the levels,
   * each level a multiple of the interval between the lowest and highest
   * elevation, on the layer its major test selects, or a major level's
   * label.
   */
  lemma ContoursWellFormed(coords: seq<Coordinate>, traced: Option<seq<seq<seq<Point>>>>, s: ContourSettings)
    requires TracedFits(coords, traced, s) && |coords| >= 3
    requires ContoursEmitted(coords, traced, s).Some?
    ensures LevelsOf(coords, s).Some?
    ensures forall k :: 0 <= k < |ContoursEmitted(coords, traced, s).value|
                        ==> ContourEntity(ContoursEmitted(coords, traced, s).value[k], LevelsOf(coords, s).value, s.majorContour)
  {
    var levels := LevelsOf(coords, s).value;
    assert ContoursEmitted(coords, traced, s).value == TracedEntities(traced.value, levels, MajorOf(levels, s.majorContour), s);
    TracedWellFormed(traced.value, levels, s);
  }

  // ---------------------------------------------------------------------
  // The plan
  // ---------------------------------------------------------------------

  class TopographicPlan {
    const name: string
    const coordinates: seq<Coordinate>
    const boundary: Option<Boundary>
    const boundingBox: Rect
    const frameCoords: Rect
    const labelScale: real
    const settings: ContourSettings
    const drawer: SurveyDXFManager

    /** The record's fields, the frame around the box and a fresh drawer at the drawing scale. */
    constructor (name: string, coordinates: seq<Coordinate>, boundary: Option<Boundary>, boundingBox: Rect,
                 drawingScale: real, labelScale: real, settings: ContourSettings)
      ensures this.name == name && this.coordinates == coordinates && this.boundary == boundary
      ensures this.boundingBox == boundingBox && this.labelScale == labelScale && this.settings == settings
      ensures Some(frameCoords) == FrameCoords(Some(boundingBox))
      ensures fresh(drawer) && drawer.planName == name && drawer.scale == drawingScale && drawer.entities == []
    {
      this.name := name;
      this.coordinates := coordinates;
      this.boundary := boundary;
      this.boundingBox := boundingBox;
      this.frameCoords := Expand(boundingBox, TopographicFrameX, TopographicFrameY);
      this.labelScale := labelScale;
      this.settings := settings;
      drawer := new SurveyDXFManager(name, drawingScale);
    }

    /**
     * __init__: a plan of any other type, or one whose bounding box is
     * unknown so that no frame can be placed, raises ValueError, modelled
     * as no plan.
     */
    static method Create(kind: PlanType, name: string, coordinates: seq<Coordinate>, boundary: Option<Boundary>,
                         boundingBox: Option<Rect>, drawingScale: real, labelScale: real, settings: ContourSettings)
      returns (plan: TopographicPlan?)
      ensures plan == null <==> kind != Topographic || FrameCoords(boundingBox).None?
      ensures plan != null ==>
        && fresh(plan) && fresh(plan.drawer) && plan.drawer.entities == [] && plan.drawer.scale == drawingScale
        && Some(plan.boundingBox) == boundingBox && Some(plan.frameCoords) == FrameCoords(boundingBox)
        && plan.coordinates == coordinates && plan.boundary == boundary
        && plan.labelScale == labelScale && plan.settings == settings
    {
      if kind != Topographic {
        return null;
      }
      var frame := FrameCoords(boundingBox);
      if frame.None? {
        return null;
      }
      plan := new TopographicPlan(name, coordinates, boundary, boundingBox.value, drawingScale, labelScale, settings);
    }

    /** draw_beacons: the boundary's beacons, each id once; nothing without a boundary. */
    method DrawBeacons()
      modifies drawer
      ensures boundary.None? ==> drawer.entities == old(drawer.entities)
      ensures boundary.Some? ==>
        drawer.entities == old(drawer.entities) + BeaconsEntities(drawer.scale, FirstOccurrences(boundary.value.coordinates), labelScale)
    {
      if boundary.None? {
        return;
      }
      DrawDistinctBeacons(drawer, boundary.value.coordinates, labelScale);
    }

    /** draw_frames: margins 0.35 and 0.8 of the larger side, then 0.03 more. */
    method DrawFrames()
      modifies drawer
      ensures drawer.entities == old(drawer.entities)
           + DoubleFrameEntities(drawer.scale, boundingBox, TopographicFrameX, TopographicFrameY,
                                 TopographicFrameX + OffsetStep, TopographicFrameY + OffsetStep)
    {
      var b := boundingBox;
      var width, height := b.right - b.left, b.top - b.bottom;
      var larger := if width >= height then width else height;
      var marginX, marginY := larger * TopographicFrameX, larger * TopographicFrameY;
      drawer.DrawFrame(b.left - marginX, b.bottom - marginY, b.right + marginX, b.top + marginY);
      var offsetX, offsetY := larger * (TopographicFrameX + OffsetStep), larger * (TopographicFrameY + OffsetStep);
      drawer.DrawFrame(b.left - offsetX, b.bottom - offsetY, b.right + offsetX, b.top + offsetY);
    }

    /**
     * draw_contours, given what the triangulation and the tracer give;
     * false where the source raises.
     */
    method DrawContours(traced: Option<seq<seq<seq<Point>>>>) returns (ok: bool)
      requires TracedFits(coordinates, traced, settings)
      modifies drawer
      ensures ok == ContoursEmitted(coordinates, traced, settings).Some?
      ensures ok ==> drawer.entities == old(drawer.entities) + ContoursEmitted(coordinates, traced, settings).value
      ensures !ok ==> drawer.entities == old(drawer.entities)
    {
      if |coordinates| < 3 {
        return true;
      }
      if traced.None? {
        return false;
      }
      var z := CollectElevations(coordinates);
      var levels := ContourLevels(SeqMin(z), SeqMax(z), settings.contourInterval);
      if levels.None? {
        return false;
      }
      var majorLevels := MajorLevels(levels.value, settings.majorContour);
      DrawTraced(drawer, traced.value, levels.value, majorLevels, settings);
      ok := true;
    }
  }
}
