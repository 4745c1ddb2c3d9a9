/**
 * The drawing sink of dxf.py: SurveyDXFManager holds the modelspace of one
 * DXF document and every draw and add method appends the entities it creates,
 * in survey coordinates multiplied by the manager's scale. The modelspace is
 * modelled as the sequence of entities appended so far.
 */
module Drawing {
  import opened Wrappers
  import opened Geometry

  datatype Layer = Points | Lines | Labels | Frame | TitleBlock | ContoursMajor | ContoursMinor | ContourLabels

  datatype TextStyle = SurveyText | Standard

  /** Text placement: ezdxf's default (left, on the baseline), MIDDLE_CENTER or TOP_CENTER. */
  datatype Align = Left | MiddleCenter | TopCenter

  /** An explicit colour index, or the layer's colour. */
  datatype Color = ByLayer | Aci(index: int)

  /**
   * The text of a TEXT entity. Number formatting is kept symbolic:
   * `Metres(d)` is f"{d:.2f} m", `Degrees(n)` is f"{n}°", `Minutes(n)` is
   * f"{n}'" and `OneDecimal(v)` is f"{v:.1f}".
   */
  datatype Content = Plain(text: string) | Metres(value: real) | Degrees(count: int)
                   | Minutes(count: int) | OneDecimal(value: real)

  datatype Point3 = Point3(x: real, y: real, z: real)

  datatype Entity =
    | BlockRef(block: string, insert: Point3, layer: Layer)
    | Text(content: Content, at: Point, height: real, rotation: real, align: Align,
           layer: Layer, style: TextStyle, color: Color)
    | MText(text: string, location: Point, attachment: Align, charHeight: real, width: real,
            layer: Layer, style: TextStyle)
    | LwPolyline(vertices: seq<Point>, closed: bool, layer: Layer)
    | Polyline3D(points: seq<Point3>, layer: Layer)

  /**
   * What a drawing step appends: the entities added before it stopped, and
   * whether it ran to the end (false where the source raises part-way and
   * leaves the entities already added in the modelspace).
   */
  datatype Emitted = Emitted(entities: seq<Entity>, complete: bool)

  /** Entities appended in two steps are the two batches appended at once. */
  lemma AppendAssociates(a: seq<Entity>, b: seq<Entity>, c: seq<Entity>)
    ensures a + b + c == a + (b + c)
  {
  }

  const BeaconBlock: string := "BEACON_POINT"

  /** ezdxf's MTextEditor.UNDERLINE_START and UNDERLINE_STOP. */
  const UnderlineStart: string := "\\L"
  const UnderlineStop: string := "\\l"

  // ---------------------------------------------------------------------
  // What each method appends, at drawing scale `scale`
  // ---------------------------------------------------------------------

  /** draw_beacon: a beacon block, then the name (if any) one scale unit up and right. */
  function BeaconEntities(scale: real, x: real, y: real, z: real, textHeight: real,
                          name: Option<string>): (r: seq<Entity>)
    ensures |r| == (if name.Some? then 2 else 1)
    ensures r[0] == BlockRef(BeaconBlock, Point3(x * scale, y * scale, z * scale), Points)
    ensures name.Some? ==> r[1].Text? && r[1].layer == Labels && r[1].content == Plain(name.value)
  {
    var at := Point3(x * scale, y * scale, z * scale);
    [BlockRef(BeaconBlock, at, Points)]
    + if name.Some? then
        var offset := 1.0 * scale;
        [Text(Plain(name.value), Point(at.x + offset, at.y + offset), textHeight * scale, 0.0,
              Left, Labels, SurveyText, ByLayer)]
      else []
  }

  /**
   * add_parcel: the closed outline on LINES, then the parcel name at the
   * vertex average, yellow and centred, when there are points and a name.
   */
  function ParcelEntities(scale: real, parcelId: string, points: seq<Point>, labelScale: real): (r: seq<Entity>)
    ensures |r| == (if points != [] && parcelId != "" then 2 else 1)
    ensures r[0] == LwPolyline(ScaleAll(points, scale), true, Lines)
    ensures |r| == 2 ==> r[1].Text? && r[1].content == Plain(parcelId) && r[1].color == Aci(2)
  {
    var pts := ScaleAll(points, scale);
    [LwPolyline(pts, true, Lines)]
    + if pts != [] && parcelId != "" then
        [Text(Plain(parcelId), Centroid(pts), labelScale * scale, 0.0, MiddleCenter, Labels,
              SurveyText, Aci(2))]
      else []
  }

  /** add_text: one centred TEXT on LABELS, rotated by `angle` degrees. */
  function TextEntities(scale: real, text: Content, x: real, y: real, angle: real, height: real): seq<Entity>
  {
    [Text(text, Point(x * scale, y * scale), height * scale, angle, MiddleCenter, Labels, SurveyText, ByLayer)]
  }

  /** add_title: one underlined MTEXT on TITLE_BLOCK, attached at its top centre. */
  function TitleEntities(scale: real, text: string, x: real, y: real, width: real, titleHeight: real): seq<Entity>
  {
    [MText(UnderlineStart + text + UnderlineStop, Point(x * scale, y * scale), TopCenter, titleHeight * scale,
           width * scale, TitleBlock, SurveyText)]
  }

  /** The four corners in the order draw_frame passes them. */
  function Corners(minX: real, minY: real, maxX: real, maxY: real): seq<Point>
  {
    [Point(minX, minY), Point(maxX, minY), Point(maxX, maxY), Point(minX, maxY)]
  }

  /**
   * draw_frame: one closed four-vertex polyline on FRAME; for a box with
   * positive width and height, drawn at a positive scale, it is a
   * counter-clockwise ring in the sense of polygon_orientation.
   */
  function FrameEntities(scale: real, minX: real, minY: real, maxX: real, maxY: real): (r: seq<Entity>)
    ensures |r| == 1 && r[0].LwPolyline? && r[0].closed && r[0].layer == Frame && |r[0].vertices| == 4
    ensures scale > 0.0 && minX < maxX && minY < maxY ==> OrientationOf(r[0].vertices) == CCW
  {
    CornersCounterClockwise(scale, minX, minY, maxX, maxY);
    [LwPolyline(Corners(minX * scale, minY * scale, maxX * scale, maxY * scale), true, Frame)]
  }

  // ---------------------------------------------------------------------
  // Scaling: every coordinate, height and width is multiplied by the scale
  // ---------------------------------------------------------------------

  function Scale3(p: Point3, c: real): Point3 { Point3(p.x * c, p.y * c, p.z * c) }

  /** An entity with every coordinate and size multiplied by c; angles and text kept. */
  function ScaleEntity(e: Entity, c: real): Entity
  {
    match e
    case BlockRef(b, at, l) => BlockRef(b, Scale3(at, c), l)
    case Text(t, at, h, rot, al, l, st, col) => Text(t, Times(at, c), h * c, rot, al, l, st, col)
    case MText(t, at, ap, h, w, l, st) => MText(t, Times(at, c), ap, h * c, w * c, l, st)
    case LwPolyline(vs, cl, l) => LwPolyline(ScaleAll(vs, c), cl, l)
    case Polyline3D(ps, l) => Polyline3D(seq(|ps|, i requires 0 <= i < |ps| => Scale3(ps[i], c)), l)
  }

  function ScaleEntities(es: seq<Entity>, c: real): (r: seq<Entity>)
    ensures |r| == |es|
    ensures forall i :: 0 <= i < |es| ==> r[i] == ScaleEntity(es[i], c)
  {
    seq(|es|, i requires 0 <= i < |es| => ScaleEntity(es[i], c))
  }

  lemma ScaleOne(e: Entity, c: real)
    ensures ScaleEntities([e], c) == [ScaleEntity(e, c)]
  {
  }

  lemma ScaleTwo(e: Entity, f: Entity, c: real)
    ensures ScaleEntities([e] + [f], c) == [ScaleEntity(e, c)] + [ScaleEntity(f, c)]
  {
  }

  lemma UnitFactor(a: real, c: real)
    ensures (a * 1.0) * c == a * c
  {
  }

  lemma OffsetFactor(a: real, c: real)
    ensures (a * 1.0 + 1.0 * 1.0) * c == a * c + 1.0 * c
  {
  }

  lemma ScaleAllUnit(s: seq<Point>, c: real)
    ensures ScaleAll(ScaleAll(s, 1.0), c) == ScaleAll(s, c)
  {
    var t := ScaleAll(ScaleAll(s, 1.0), c);
    forall i | 0 <= i < |s| ensures t[i] == Times(s[i], c) {
      UnitFactor(s[i].x, c);
      UnitFactor(s[i].y, c);
    }
  }

  /** draw_beacon at scale c draws the unit-scale beacon and name scaled by c. */
  lemma BeaconScaled(c: real, x: real, y: real, z: real, textHeight: real, name: Option<string>)
    ensures BeaconEntities(c, x, y, z, textHeight, name)
         == ScaleEntities(BeaconEntities(1.0, x, y, z, textHeight, name), c)
  {
    UnitFactor(x, c);
    UnitFactor(y, c);
    UnitFactor(z, c);
    UnitFactor(textHeight, c);
    OffsetFactor(x, c);
    OffsetFactor(y, c);
    var es := BeaconEntities(1.0, x, y, z, textHeight, name);
    var block := BlockRef(BeaconBlock, Point3(x * 1.0, y * 1.0, z * 1.0), Points);
    assert es[0] == block;
    assert ScaleEntity(block, c) == BlockRef(BeaconBlock, Point3(x * c, y * c, z * c), Points);
    if name.Some? {
      var text := Text(Plain(name.value), Point(x * 1.0 + 1.0 * 1.0, y * 1.0 + 1.0 * 1.0), textHeight * 1.0, 0.0,
                       Left, Labels, SurveyText, ByLayer);
      assert es == [block] + [text];
      assert ScaleEntity(text, c) == Text(Plain(name.value), Point(x * c + 1.0 * c, y * c + 1.0 * c), textHeight * c, 0.0,
                                          Left, Labels, SurveyText, ByLayer);
      ScaleTwo(block, text, c);
    } else {
      ScaleOne(block, c);
    }
  }

  /** add_parcel at scale c draws the unit-scale outline and name scaled by c. */
  lemma ParcelScaled(c: real, parcelId: string, points: seq<Point>, labelScale: real)
    ensures ParcelEntities(c, parcelId, points, labelScale)
         == ScaleEntities(ParcelEntities(1.0, parcelId, points, labelScale), c)
  {
    ScaleAllUnit(points, c);
    UnitFactor(labelScale, c);
    var es := ParcelEntities(1.0, parcelId, points, labelScale);
    var unit := ScaleAll(points, 1.0);
    var outline := LwPolyline(unit, true, Lines);
    assert es[0] == outline;
    assert ScaleEntity(outline, c) == LwPolyline(ScaleAll(points, c), true, Lines);
    if points != [] && parcelId != "" {
      CentroidScale(unit, c);
      var text := Text(Plain(parcelId), Centroid(unit), labelScale * 1.0, 0.0, MiddleCenter, Labels, SurveyText, Aci(2));
      assert es == [outline] + [text];
      assert ScaleEntity(text, c) == Text(Plain(parcelId), Centroid(ScaleAll(points, c)), labelScale * c, 0.0,
                                          MiddleCenter, Labels, SurveyText, Aci(2));
      ScaleTwo(outline, text, c);
    } else {
      ScaleOne(outline, c);
    }
  }

  /** add_text scales the position and the height and keeps the rotation. */
  lemma TextScaled(c: real, text: Content, x: real, y: real, angle: real, height: real)
    ensures TextEntities(c, text, x, y, angle, height) == ScaleEntities(TextEntities(1.0, text, x, y, angle, height), c)
  {
    UnitFactor(x, c);
    UnitFactor(y, c);
    UnitFactor(height, c);
    var e := TextEntities(1.0, text, x, y, angle, height)[0];
    assert e == Text(text, Point(x * 1.0, y * 1.0), height * 1.0, angle, MiddleCenter, Labels, SurveyText, ByLayer);
    assert ScaleEntity(e, c) == Text(text, Times(Point(x * 1.0, y * 1.0), c), (height * 1.0) * c, angle, MiddleCenter, Labels, SurveyText, ByLayer);
    assert Times(Point(x * 1.0, y * 1.0), c) == Point(x * c, y * c);
    ScaleOne(e, c);
  }

  /** add_title scales the location, the character height and the width. */
  lemma TitleScaled(c: real, text: string, x: real, y: real, width: real, titleHeight: real)
    ensures TitleEntities(c, text, x, y, width, titleHeight)
         == ScaleEntities(TitleEntities(1.0, text, x, y, width, titleHeight), c)
  {
    UnitFactor(x, c);
    UnitFactor(y, c);
    UnitFactor(width, c);
    UnitFactor(titleHeight, c);
    var e := TitleEntities(1.0, text, x, y, width, titleHeight)[0];
    var body := UnderlineStart + text + UnderlineStop;
    assert e == MText(body, Point(x * 1.0, y * 1.0), TopCenter, titleHeight * 1.0, width * 1.0, TitleBlock, SurveyText);
    assert ScaleEntity(e, c) == MText(body, Point(x * c, y * c), TopCenter, titleHeight * c, width * c, TitleBlock, SurveyText);
    ScaleOne(e, c);
  }

  /** draw_frame scales every corner. */
  lemma FrameScaled(c: real, minX: real, minY: real, maxX: real, maxY: real)
    ensures FrameEntities(c, minX, minY, maxX, maxY) == ScaleEntities(FrameEntities(1.0, minX, minY, maxX, maxY), c)
  {
    UnitFactor(minX, c);
    UnitFactor(minY, c);
    UnitFactor(maxX, c);
    UnitFactor(maxY, c);
    var es := FrameEntities(1.0, minX, minY, maxX, maxY);
    var vs := ScaleAll(es[0].vertices, c);
    assert vs[0] == Point(minX * c, minY * c) && vs[1] == Point(maxX * c, minY * c);
    assert vs[2] == Point(maxX * c, maxY * c) && vs[3] == Point(minX * c, maxY * c);
    assert vs == Corners(minX * c, minY * c, maxX * c, maxY * c);
    ScaleOne(es[0], c);
  }

  lemma CornerSum(minX: real, minY: real, maxX: real, maxY: real)
    ensures RingSum(Corners(minX, minY, maxX, maxY)) == 2.0 * (maxX - minX) * (minY - maxY)
  {
    var s := Corners(minX, minY, maxX, maxY);
    assert s[..3][..2] == s[..2] && s[..2][..1] == s[..1];
    assert PathSum(s[..2]) == EdgeTerm(s[0], s[1]);
    assert PathSum(s[..3]) == EdgeTerm(s[0], s[1]) + EdgeTerm(s[1], s[2]);
    assert s[..4] == s;
    assert RingSum(s) == EdgeTerm(s[0], s[1]) + EdgeTerm(s[1], s[2]) + EdgeTerm(s[2], s[3]) + EdgeTerm(s[3], s[0]);
  }

  lemma NegativeProduct(a: real, b: real)
    requires a > 0.0 && b < 0.0
    ensures 2.0 * a * b < 0.0
  {
  }

  /** The corners of a box with positive sides, scaled by a positive factor, wind counter-clockwise. */
  lemma CornersCounterClockwise(c: real, minX: real, minY: real, maxX: real, maxY: real)
    ensures c > 0.0 && minX < maxX && minY < maxY
            ==> OrientationOf(Corners(minX * c, minY * c, maxX * c, maxY * c)) == CCW
  {
    if c > 0.0 && minX < maxX && minY < maxY {
      CornerSum(minX * c, minY * c, maxX * c, maxY * c);
      ScaledGap(minX, maxX, c);
      ScaledGap(minY, maxY, c);
      NegativeProduct(maxX * c - minX * c, minY * c - maxY * c);
    }
  }

  lemma ScaledGap(lo: real, hi: real, c: real)
    requires c > 0.0 && lo < hi
    ensures lo * c < hi * c
  {
  }

  // ---------------------------------------------------------------------
  // The manager
  // ---------------------------------------------------------------------

  class SurveyDXFManager {
    const planName: string
    const scale: real

    /** The modelspace: every entity added so far, in order. */
    var entities: seq<Entity>

    constructor (planName: string, scale: real)
      ensures this.planName == planName && this.scale == scale && entities == []
    {
      this.planName := planName;
      this.scale := scale;
      entities := [];
    }

    method DrawBeacon(x: real, y: real, z: real, textHeight: real, name: Option<string>)
      modifies this
      ensures entities == old(entities) + BeaconEntities(scale, x, y, z, textHeight, name)
    {
      var sx, sy, sz, height := x * scale, y * scale, z * scale, textHeight * scale;
      entities := entities + [BlockRef(BeaconBlock, Point3(sx, sy, sz), Points)];
      if name.Some? {
        var offset := 1.0 * scale;
        entities := entities + [Text(Plain(name.value), Point(sx + offset, sy + offset), height, 0.0,
                                     Left, Labels, SurveyText, ByLayer)];
      }
    }

    method AddParcel(parcelId: string, points: seq<Point>, labelScale: real)
      modifies this
      ensures entities == old(entities) + ParcelEntities(scale, parcelId, points, labelScale)
    {
      var pts := ScaleAll(points, scale);
      var height := labelScale * scale;
      var outline := LwPolyline(pts, true, Lines);
      entities := entities + [outline];
      if pts != [] && parcelId != "" {
        var centroid := Centroid(pts);
        var text := Text(Plain(parcelId), centroid, height, 0.0, MiddleCenter, Labels, SurveyText, Aci(2));
        entities := entities + [text];
        var expected := ParcelEntities(scale, parcelId, points, labelScale);
        assert |expected| == 2 && expected[0] == outline;
        assert expected[1] == text;
        assert expected == [outline] + [text];
      }
    }

    method AddText(text: Content, x: real, y: real, angle: real, height: real)
      modifies this
      ensures entities == old(entities) + TextEntities(scale, text, x, y, angle, height)
    {
      var sx, sy, h := x * scale, y * scale, height * scale;
      entities := entities + [Text(text, Point(sx, sy), h, angle, MiddleCenter, Labels, SurveyText, ByLayer)];
    }

    method AddTitle(text: string, x: real, y: real, width: real, titleHeight: real)
      modifies this
      ensures entities == old(entities) + TitleEntities(scale, text, x, y, width, titleHeight)
    {
      var sx, sy, h, w := x * scale, y * scale, titleHeight * scale, width * scale;
      entities := entities + [MText(UnderlineStart + text + UnderlineStop, Point(sx, sy), TopCenter, h, w,
                                    TitleBlock, SurveyText)];
    }

    method DrawFrame(minX: real, minY: real, maxX: real, maxY: real)
      modifies this
      ensures entities == old(entities) + FrameEntities(scale, minX, minY, maxX, maxY)
    {
      var x0, y0, x1, y1 := minX * scale, minY * scale, maxX * scale, maxY * scale;
      entities := entities + [LwPolyline([Point(x0, y0), Point(x1, y0), Point(x1, y1), Point(x0, y1)],
                                         true, Frame)];
    }

    /** A direct msp.add_* call, which bypasses the scaling of the methods above. */
    method AddToModelspace(e: Entity)
      modifies this
      ensures entities == old(entities) + [e]
    {
      entities := entities + [e];
    }
  }
}
