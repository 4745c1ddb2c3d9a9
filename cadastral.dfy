/**
 * CadastralPlan: a plan of type CADASTRAL draws a beacon per coordinate,
 * each parcel's outline with its legs labelled, the double border and the
 * title. The bounding box and the drawing scale, which the plan record
 * supplies, are given to the constructor.
 */
module Cadastral {
  import opened Wrappers
  import opened Geometry
  import opened Survey
  import opened Drawing
  import opened Sheet
  import opened LegLabels
  import opened Plans

  // ---------------------------------------------------------------------
  // Parcel vertex resolution
  // ---------------------------------------------------------------------

  /**
   * {coord.id: coord for coord in coordinates}: a later coordinate with an id
   * replaces an earlier one. Its keys are exactly the coordinates' ids, and
   * each maps to a coordinate that carries it.
   */
  function CoordIndex(coords: seq<Coordinate>): (r: map<string, Coordinate>)
    ensures r.Keys == set i | 0 <= i < |coords| :: coords[i].id
    ensures forall id :: id in r ==> r[id].id == id && r[id] in coords
  {
    if coords == [] then map[]
    else
      var c, front := coords[|coords| - 1], coords[..|coords| - 1];
      assert forall i :: 0 <= i < |front| ==> front[i] == coords[i];
      assert (set i | 0 <= i < |coords| :: coords[i].id)
             == (set i | 0 <= i < |front| :: front[i].id) + {c.id};
      CoordIndex(front)[c.id := c]
  }

  /**
   * The index holds exactly the ids of the coordinates, and maps each to the
   * last coordinate that carries it.
   */
  lemma {:induction false} CoordIndexLastWins(coords: seq<Coordinate>, i: int)
    requires 0 <= i < |coords|
    requires forall j :: i < j < |coords| ==> coords[j].id != coords[i].id
    ensures coords[i].id in CoordIndex(coords) && CoordIndex(coords)[coords[i].id] == coords[i]
  {
    var front := coords[..|coords| - 1];
    if i < |coords| - 1 {
      assert forall j :: i < j < |front| ==> front[j] == coords[j];
      CoordIndexLastWins(front, i);
      assert front[i] == coords[i];
    }
  }

  /**
   * [(d[pid].easting, d[pid].northing) for pid in ids if pid in d]. Unknown
   * ids are skipped and nothing else: the result is never longer than the id
   * list, it is as long exactly when every id is known, and it is empty
   * exactly when none is.
   */
  function ResolvePoints(index: map<string, Coordinate>, ids: seq<string>): (r: seq<Point>)
    ensures |r| <= |ids|
    ensures |r| == |ids| <==> forall i :: 0 <= i < |ids| ==> ids[i] in index
    ensures r == [] <==> forall i :: 0 <= i < |ids| ==> ids[i] !in index
  {
    if ids == [] then []
    else
      assert forall i :: 1 <= i < |ids| ==> ids[i] == ids[1..][i - 1];
      (if ids[0] in index then [Position(index[ids[0]])] else []) + ResolvePoints(index, ids[1..])
  }

  /** With every id known, the points are the ids' positions in the parcel's order. */
  lemma {:induction false} ResolveKeepsOrder(index: map<string, Coordinate>, ids: seq<string>)
    requires forall i :: 0 <= i < |ids| ==> ids[i] in index
    ensures |ResolvePoints(index, ids)| == |ids|
    ensures forall i :: 0 <= i < |ids| ==> ResolvePoints(index, ids)[i] == Position(index[ids[i]])
  {
    if ids != [] {
      ResolveKeepsOrder(index, ids[1..]);
      assert forall i :: 1 <= i < |ids| ==> ids[i] == ids[1..][i - 1];
    }
  }

  /** A known id resolves to its coordinate's position, an unknown one to nothing. */
  lemma ResolveOne(index: map<string, Coordinate>, id: string)
    ensures id in index ==> ResolvePoints(index, [id]) == [Position(index[id])]
    ensures id !in index ==> ResolvePoints(index, [id]) == []
  {
    assert [id][1..] == [];
  }

  /**
   * Resolving splits over concatenation, so the result is each id's own
   * resolution in the parcel's order: skipping unknown ids keeps the order
   * of the known ones.
   */
  lemma {:induction false} ResolveAppend(index: map<string, Coordinate>, a: seq<string>, b: seq<string>)
    ensures ResolvePoints(index, a + b) == ResolvePoints(index, a) + ResolvePoints(index, b)
  {
    if a == [] {
      assert a + b == b;
    } else {
      assert (a + b)[0] == a[0];
      assert (a + b)[1..] == a[1..] + b;
      ResolveAppend(index, a[1..], b);
    }
  }

  // ---------------------------------------------------------------------
  // What the plan draws
  // ---------------------------------------------------------------------

  /** One parcel: nothing when none of its ids resolves, else its outline and its leg labels. */
  function ParcelEmitted(scale: real, index: map<string, Coordinate>, parcel: Parcel, labelScale: real): Emitted
  {
    var points := ResolvePoints(index, parcel.ids);
    if points == [] then Emitted([], true)
    else
      var legs := LegsEmitted(scale, parcel.legs, OrientationOf(points), labelScale);
      Emitted(ParcelEntities(scale, parcel.name, points, labelScale) + legs.entities, legs.complete)
  }

  /** The parcels in order, stopping inside the first parcel whose labelling fails. */
  function ParcelsFrom(scale: real, index: map<string, Coordinate>, parcels: seq<Parcel>, labelScale: real): Emitted
  {
    if parcels == [] then Emitted([], true)
    else
      var front := ParcelsFrom(scale, index, parcels[..|parcels| - 1], labelScale);
      if !front.complete then front
      else
        var last := ParcelEmitted(scale, index, parcels[|parcels| - 1], labelScale);
        Emitted(front.entities + last.entities, last.complete)
  }

  /** draw_parcels: nothing without parcels or coordinates. */
  function ParcelsEmitted(scale: real, coords: seq<Coordinate>, parcels: seq<Parcel>, labelScale: real): Emitted
  {
    if parcels == [] || coords == [] then Emitted([], true)
    else ParcelsFrom(scale, CoordIndex(coords), parcels, labelScale)
  }

  lemma {:induction false} ParcelsStayStopped(scale: real, index: map<string, Coordinate>, parcels: seq<Parcel>,
                                              k: nat, labelScale: real)
    requires k <= |parcels| && !ParcelsFrom(scale, index, parcels[..k], labelScale).complete
    ensures ParcelsFrom(scale, index, parcels, labelScale) == ParcelsFrom(scale, index, parcels[..k], labelScale)
  {
    if k < |parcels| {
      var front := parcels[..|parcels| - 1];
      assert front[..k] == parcels[..k];
      ParcelsStayStopped(scale, index, front, k, labelScale);
    } else {
      assert parcels[..k] == parcels;
    }
  }

  /**
   * A parcel whose ids all fail to resolve draws nothing, not even the
   * labels of its legs; one with a resolved vertex starts with its closed
   * outline on LINES.
   */
  lemma ParcelOutlineFirst(scale: real, index: map<string, Coordinate>, parcel: Parcel, labelScale: real)
    ensures (forall i :: 0 <= i < |parcel.ids| ==> parcel.ids[i] !in index)
        ==> ParcelEmitted(scale, index, parcel, labelScale) == Emitted([], true)
    ensures (exists i :: 0 <= i < |parcel.ids| && parcel.ids[i] in index)
        ==> var es := ParcelEmitted(scale, index, parcel, labelScale).entities;
            es != [] && es[0] == LwPolyline(ScaleAll(ResolvePoints(index, parcel.ids), scale), true, Lines)
  {
  }

  /** Every leg of the parcel can be labelled, if the parcel is drawn at all. */
  predicate Labellable(index: map<string, Coordinate>, parcel: Parcel)
  {
    ResolvePoints(index, parcel.ids) != [] ==> forall j :: 0 <= j < |parcel.legs| ==> parcel.legs[j].length != 0.0
  }

  lemma ParcelComplete(scale: real, index: map<string, Coordinate>, parcel: Parcel, labelScale: real)
    ensures ParcelEmitted(scale, index, parcel, labelScale).complete <==> Labellable(index, parcel)
  {
    var points := ResolvePoints(index, parcel.ids);
    if points != [] {
      LegsComplete(scale, parcel.legs, OrientationOf(points), labelScale);
    }
  }

  lemma ParcelsCompleteStep(scale: real, index: map<string, Coordinate>, parcels: seq<Parcel>, labelScale: real)
    requires parcels != []
    ensures ParcelsFrom(scale, index, parcels, labelScale).complete
        == (ParcelsFrom(scale, index, parcels[..|parcels| - 1], labelScale).complete
            && ParcelEmitted(scale, index, parcels[|parcels| - 1], labelScale).complete)
  {
  }

  /** Drawing the parcels completes exactly when no leg of a drawn parcel has length zero. */
  lemma {:induction false} ParcelsComplete(scale: real, index: map<string, Coordinate>, parcels: seq<Parcel>,
                                           labelScale: real)
    ensures ParcelsFrom(scale, index, parcels, labelScale).complete
        <==> forall i :: 0 <= i < |parcels| ==> Labellable(index, parcels[i])
  {
    if parcels != [] {
      var front := parcels[..|parcels| - 1];
      ParcelsComplete(scale, index, front, labelScale);
      ParcelsCompleteStep(scale, index, parcels, labelScale);
      ParcelComplete(scale, index, parcels[|parcels| - 1], labelScale);
      assert front + [parcels[|parcels| - 1]] == parcels;
      assert (forall i :: 0 <= i < |parcels| ==> Labellable(index, parcels[i]))
         <==> (forall i :: 0 <= i < |front| ==> Labellable(index, front[i]))
              && Labellable(index, parcels[|parcels| - 1]);
    }
  }

  /** One more parcel after a prefix that completed: what it adds extends the prefix's entities. */
  lemma ParcelsStep(before: seq<Entity>, now: seq<Entity>, scale: real, index: map<string, Coordinate>,
                    parcels: seq<Parcel>, i: nat, labelScale: real)
    requires i < |parcels| && ParcelsFrom(scale, index, parcels[..i], labelScale).complete
    requires now == before + ParcelsFrom(scale, index, parcels[..i], labelScale).entities
                   + ParcelEmitted(scale, index, parcels[i], labelScale).entities
    ensures now == before + ParcelsFrom(scale, index, parcels[..i + 1], labelScale).entities
    ensures ParcelsFrom(scale, index, parcels[..i + 1], labelScale).complete
         == ParcelEmitted(scale, index, parcels[i], labelScale).complete
  {
    assert parcels[..i + 1][..i] == parcels[..i];
    AppendAssociates(before, ParcelsFrom(scale, index, parcels[..i], labelScale).entities,
                     ParcelEmitted(scale, index, parcels[i], labelScale).entities);
  }

  /** One iteration of draw_parcels' loop. */
  method DrawParcel(drawer: SurveyDXFManager, index: map<string, Coordinate>, parcel: Parcel, labelScale: real)
    returns (ok: bool)
    modifies drawer
    ensures drawer.entities
         == old(drawer.entities) + ParcelEmitted(drawer.scale, index, parcel, labelScale).entities
    ensures ok == ParcelEmitted(drawer.scale, index, parcel, labelScale).complete
  {
    var parcelPoints := ResolvePoints(index, parcel.ids);
    if parcelPoints == [] {
      return true;
    }
    drawer.AddParcel(parcel.name, parcelPoints, labelScale);
    var orientation := PolygonOrientation(parcelPoints);
    ok := LabelLegs(drawer, parcel.legs, orientation, labelScale);
  }

  /** draw_parcels' loop over the parcels, given the coordinate index; it stops at the first failure. */
  method DrawEachParcel(drawer: SurveyDXFManager, coordDict: map<string, Coordinate>, parcels: seq<Parcel>,
                        labelScale: real) returns (ok: bool)
    modifies drawer
    ensures drawer.entities
         == old(drawer.entities) + ParcelsFrom(drawer.scale, coordDict, parcels, labelScale).entities
    ensures ok == ParcelsFrom(drawer.scale, coordDict, parcels, labelScale).complete
  {
    for i := 0 to |parcels|
      invariant drawer.entities
             == old(drawer.entities) + ParcelsFrom(drawer.scale, coordDict, parcels[..i], labelScale).entities
      invariant ParcelsFrom(drawer.scale, coordDict, parcels[..i], labelScale).complete
    {
      var parcelOk := DrawParcel(drawer, coordDict, parcels[i], labelScale);
      ParcelsStep(old(drawer.entities), drawer.entities, drawer.scale, coordDict, parcels, i, labelScale);
      if !parcelOk {
        ParcelsStayStopped(drawer.scale, coordDict, parcels, i + 1, labelScale);
        return false;
      }
    }
    assert parcels[..|parcels|] == parcels;
    ok := true;
  }

  /**
   * The whole drawing: beacons, parcels, then, if the parcels completed, the
   * frames and the title. An unknown bounding box makes draw_frames raise
   * TypeError before it draws, so neither frame nor title is added.
   */
  function PlanEmitted(scale: real, coords: seq<Coordinate>, parcels: seq<Parcel>, box: Option<Rect>,
                       labelScale: real, fontSize: int, title: string): Emitted
  {
    var beacons := BeaconsEntities(scale, coords, labelScale);
    var drawn := ParcelsEmitted(scale, coords, parcels, labelScale);
    if !drawn.complete || box.None? then Emitted(beacons + drawn.entities, false)
    else
      var b := box.value;
      var t := TitlePlacement(b, CadastralFrameX, CadastralFrameY);
      Emitted(beacons + drawn.entities
              + DoubleFrameEntities(scale, b, CadastralFrameX, CadastralFrameY, CadastralOffsetX, CadastralOffsetY)
              + TitleEntities(scale, title, t.x, t.y, t.width, fontSize as real), true)
  }

  class CadastralPlan {
    const name: string
    const coordinates: seq<Coordinate>
    const parcels: seq<Parcel>
    const boundingBox: Option<Rect>
    const labelScale: real
    const fontSize: int
    const drawer: SurveyDXFManager

    /** The record's fields and a fresh drawer at the plan's drawing scale. */
    constructor (name: string, coordinates: seq<Coordinate>, parcels: seq<Parcel>, boundingBox: Option<Rect>,
                 drawingScale: real, labelScale: real, fontSize: int)
      ensures this.name == name && this.coordinates == coordinates && this.parcels == parcels
      ensures this.boundingBox == boundingBox && this.labelScale == labelScale && this.fontSize == fontSize
      ensures fresh(drawer) && drawer.planName == name && drawer.scale == drawingScale && drawer.entities == []
    {
      this.name := name;
      this.coordinates := coordinates;
      this.parcels := parcels;
      this.boundingBox := boundingBox;
      this.labelScale := labelScale;
      this.fontSize := fontSize;
      drawer := new SurveyDXFManager(name, drawingScale);
    }

    /** __init__: a plan of any other type raises ValueError, modelled as no plan. */
    static method Create(kind: PlanType, name: string, coordinates: seq<Coordinate>, parcels: seq<Parcel>,
                         boundingBox: Option<Rect>, drawingScale: real, labelScale: real, fontSize: int)
      returns (plan: CadastralPlan?)
      ensures plan == null <==> kind != Cadastral
      ensures plan != null ==>
        && fresh(plan) && fresh(plan.drawer) && plan.drawer.entities == []
        && plan.drawer.scale == drawingScale && plan.coordinates == coordinates
        && plan.parcels == parcels && plan.boundingBox == boundingBox
        && plan.labelScale == labelScale && plan.fontSize == fontSize
    {
      if kind != Cadastral {
        return null;
      }
      plan := new CadastralPlan(name, coordinates, parcels, boundingBox, drawingScale, labelScale, fontSize);
    }

    /** draw_beacons: one labelled beacon per coordinate, in order. */
    method DrawBeacons()
      modifies drawer
      ensures drawer.entities == old(drawer.entities) + BeaconsEntities(drawer.scale, coordinates, labelScale)
    {
      if coordinates == [] {
        return;
      }
      for i := 0 to |coordinates|
        invariant drawer.entities == old(drawer.entities) + BeaconsEntities(drawer.scale, coordinates[..i], labelScale)
      {
        assert coordinates[..i + 1][..i] == coordinates[..i];
        var coord := coordinates[i];
        drawer.DrawBeacon(coord.easting, coord.northing, 0.0, labelScale, Some(coord.id));
      }
      assert coordinates[..|coordinates|] == coordinates;
    }

    /** draw_parcels; false where a leg label raises, which ends the drawing. */
    method DrawParcels() returns (ok: bool)
      modifies drawer
      ensures drawer.entities
           == old(drawer.entities) + ParcelsEmitted(drawer.scale, coordinates, parcels, labelScale).entities
      ensures ok == ParcelsEmitted(drawer.scale, coordinates, parcels, labelScale).complete
    {
      if parcels == [] || coordinates == [] {
        return true;
      }
      var coordDict := CoordIndex(coordinates);
      ok := DrawEachParcel(drawer, coordDict, parcels, labelScale);
    }

    /**
     * draw_frames: margins 0.35 and 0.7 of the larger side, then 0.38 and
     * 0.73; false, with nothing drawn, where an unknown box makes the
     * arithmetic on None raise TypeError.
     */
    method DrawFrames() returns (ok: bool)
      modifies drawer
      ensures ok <==> boundingBox.Some?
      ensures ok ==>
        drawer.entities == old(drawer.entities)
                           + DoubleFrameEntities(drawer.scale, boundingBox.value, CadastralFrameX, CadastralFrameY,
                                                 CadastralOffsetX, CadastralOffsetY)
      ensures !ok ==> drawer.entities == old(drawer.entities)
    {
      if boundingBox.None? {
        return false;
      }
      ok := true;
      var b := boundingBox.value;
      var width, height := b.right - b.left, b.top - b.bottom;
      var larger := if width >= height then width else height;
      var marginX, marginY := larger * 0.35, larger * 0.7;
      drawer.DrawFrame(b.left - marginX, b.bottom - marginY, b.right + marginX, b.top + marginY);
      var offsetX, offsetY := larger * 0.38, larger * 0.73;
      drawer.DrawFrame(b.left - offsetX, b.bottom - offsetY, b.right + offsetX, b.top + offsetY);
    }

    /** draw_title: the title centred over the frame, a fifth of the top margin below its top edge. */
    method DrawTitle(title: string) returns (ok: bool)
      modifies drawer
      ensures ok <==> boundingBox.Some?
      ensures ok ==> var t := TitlePlacement(boundingBox.value, CadastralFrameX, CadastralFrameY);
        drawer.entities == old(drawer.entities) + TitleEntities(drawer.scale, title, t.x, t.y, t.width, fontSize as real)
      ensures !ok ==> drawer.entities == old(drawer.entities)
    {
      if boundingBox.None? {
        return false;
      }
      ok := true;
      var b := boundingBox.value;
      var width, height := b.right - b.left, b.top - b.bottom;
      var larger := if width >= height then width else height;
      var marginX, marginY := larger * 0.35, larger * 0.7;
      var frameLeft, frameRight, frameTop := b.left - marginX, b.right + marginX, b.top + marginY;
      var frameWidth := frameRight - frameLeft;
      var frameCenterX := frameLeft + frameWidth / 2.0;
      var titleY := frameTop - marginY * 0.2;
      drawer.AddTitle(title, frameCenterX, titleY, frameWidth * 0.6, fontSize as real);
    }

    /** draw: beacons, parcels, frames, title; a raising leg or an unknown box ends it there. */
    method Draw(title: string) returns (ok: bool)
      modifies drawer
      ensures drawer.entities == old(drawer.entities)
           + PlanEmitted(drawer.scale, coordinates, parcels, boundingBox, labelScale, fontSize, title).entities
      ensures ok == PlanEmitted(drawer.scale, coordinates, parcels, boundingBox, labelScale, fontSize, title).complete
    {
      ghost var start := drawer.entities;
      ghost var scale := drawer.scale;
      ghost var beacons := BeaconsEntities(scale, coordinates, labelScale);
      ghost var drawn := ParcelsEmitted(scale, coordinates, parcels, labelScale);
      DrawBeacons();
      ok := DrawParcels();
      AppendAssociates(start, beacons, drawn.entities);
      if !ok {
        return;
      }
      ok := DrawFrames();
      if !ok {
        return;
      }
      ghost var t := TitlePlacement(boundingBox.value, CadastralFrameX, CadastralFrameY);
      ghost var frames := DoubleFrameEntities(scale, boundingBox.value, CadastralFrameX, CadastralFrameY,
                                              CadastralOffsetX, CadastralOffsetY);
      AppendAssociates(start, beacons + drawn.entities, frames);
      ok := DrawTitle(title);
      AppendAssociates(start, beacons + drawn.entities + frames,
                       TitleEntities(scale, title, t.x, t.y, t.width, fontSize as real));
    }
  }
}
