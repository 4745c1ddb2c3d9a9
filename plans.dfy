/**
 * What the two plan classes draw alike: one beacon per coordinate, labelled
 * with its id, and the double border around the bounding box.
 */
module Plans {
  import opened Wrappers
  import opened Geometry
  import opened Survey
  import opened Drawing
  import opened Sheet

  /** draw_beacon(coord.easting, coord.northing, 0, label_scale, coord.id) for each coordinate in turn. */
  function BeaconsEntities(scale: real, coords: seq<Coordinate>, labelScale: real): seq<Entity>
  {
    if coords == [] then []
    else
      BeaconsEntities(scale, coords[..|coords| - 1], labelScale) + BeaconOf(scale, coords[|coords| - 1], labelScale)
  }

  function BeaconOf(scale: real, c: Coordinate, labelScale: real): seq<Entity>
  {
    BeaconEntities(scale, c.easting, c.northing, 0.0, labelScale, Some(c.id))
  }

  /** One more coordinate adds its beacon after the others. */
  lemma BeaconsSnoc(scale: real, coords: seq<Coordinate>, c: Coordinate, labelScale: real)
    ensures BeaconsEntities(scale, coords + [c], labelScale)
         == BeaconsEntities(scale, coords, labelScale) + BeaconOf(scale, c, labelScale)
  {
    assert (coords + [c])[..|coords|] == coords;
  }

  lemma {:induction false} BeaconsLength(scale: real, coords: seq<Coordinate>, labelScale: real)
    ensures |BeaconsEntities(scale, coords, labelScale)| == 2 * |coords|
  {
    if coords != [] {
      BeaconsLength(scale, coords[..|coords| - 1], labelScale);
    }
  }

  /** The two entities of coordinate i. */
  lemma {:induction false} BeaconAt(scale: real, coords: seq<Coordinate>, labelScale: real, i: int)
    requires 0 <= i < |coords|
    ensures 2 * i + 2 <= |BeaconsEntities(scale, coords, labelScale)|
    ensures BeaconsEntities(scale, coords, labelScale)[2 * i..2 * i + 2] == BeaconOf(scale, coords[i], labelScale)
  {
    var front := coords[..|coords| - 1];
    var head := BeaconsEntities(scale, front, labelScale);
    var last := BeaconOf(scale, coords[|coords| - 1], labelScale);
    BeaconsLength(scale, coords, labelScale);
    BeaconsLength(scale, front, labelScale);
    if i < |front| {
      BeaconAt(scale, front, labelScale, i);
      assert coords[i] == front[i];
      assert (head + last)[2 * i..2 * i + 2] == head[2 * i..2 * i + 2];
    } else {
      assert (head + last)[2 * i..2 * i + 2] == last;
    }
  }

  /**
   * Every coordinate gets two entities, in order: its beacon block at the
   * scaled position on POINTS, then its id as a LABELS text.
   */
  lemma BeaconsLayout(scale: real, coords: seq<Coordinate>, labelScale: real)
    ensures |BeaconsEntities(scale, coords, labelScale)| == 2 * |coords|
    ensures forall i :: 0 <= i < |coords| ==>
      && BeaconsEntities(scale, coords, labelScale)[2 * i]
         == BlockRef(BeaconBlock, Point3(coords[i].easting * scale, coords[i].northing * scale, 0.0 * scale), Points)
      && BeaconsEntities(scale, coords, labelScale)[2 * i + 1].Text?
      && BeaconsEntities(scale, coords, labelScale)[2 * i + 1].content == Plain(coords[i].id)
      && BeaconsEntities(scale, coords, labelScale)[2 * i + 1].layer == Labels
  {
    BeaconsLength(scale, coords, labelScale);
    forall i | 0 <= i < |coords|
      ensures var es := BeaconsEntities(scale, coords, labelScale);
        && es[2 * i] == BlockRef(BeaconBlock, Point3(coords[i].easting * scale, coords[i].northing * scale, 0.0 * scale), Points)
        && es[2 * i + 1].Text? && es[2 * i + 1].content == Plain(coords[i].id) && es[2 * i + 1].layer == Labels
    {
      BeaconAt(scale, coords, labelScale, i);
      var es := BeaconsEntities(scale, coords, labelScale);
      assert es[2 * i] == es[2 * i..2 * i + 2][0] && es[2 * i + 1] == es[2 * i..2 * i + 2][1];
    }
  }

  /** draw_frames: the frame of the box at fractions (fx, fy), then the offset frame at (ox, oy). */
  function DoubleFrameEntities(scale: real, b: Rect, fx: real, fy: real, ox: real, oy: real): seq<Entity>
  {
    var frame, offset := Expand(b, fx, fy), Expand(b, ox, oy);
    FrameEntities(scale, frame.left, frame.bottom, frame.right, frame.top)
    + FrameEntities(scale, offset.left, offset.bottom, offset.right, offset.top)
  }

  /**
   * At a positive scale, with positive fractions, larger offset fractions and
   * a box with a positive side, the border is two counter-clockwise closed
   * rings on FRAME, the offset frame strictly around the frame, which is
   * strictly around the box.
   */
  lemma DoubleFrameShape(scale: real, b: Rect, fx: real, fy: real, ox: real, oy: real)
    requires scale > 0.0 && Ordered(b) && Extent(b) > 0.0
    requires 0.0 < fx < ox && 0.0 < fy < oy
    ensures var es := DoubleFrameEntities(scale, b, fx, fy, ox, oy);
      && |es| == 2
      && es[0].LwPolyline? && es[0].closed && es[0].layer == Frame
      && es[1].LwPolyline? && es[1].closed && es[1].layer == Frame
      && OrientationOf(es[0].vertices) == CCW && OrientationOf(es[1].vertices) == CCW
    ensures StrictlyContains(Expand(b, fx, fy), b)
    ensures StrictlyContains(Expand(b, ox, oy), Expand(b, fx, fy))
  {
    var frame, offset := Expand(b, fx, fy), Expand(b, ox, oy);
    ExpandContains(b, fx, fy);
    ExpandNested(b, fx, fy, ox, oy);
    var es := DoubleFrameEntities(scale, b, fx, fy, ox, oy);
    assert es[0] == FrameEntities(scale, frame.left, frame.bottom, frame.right, frame.top)[0];
    assert es[1] == FrameEntities(scale, offset.left, offset.bottom, offset.right, offset.top)[0];
  }
}
