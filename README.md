# Survey plans to CAD entities: a Dafny model

This project models the geometry and bookkeeping layer of a survey-plan
generator. The generator reads survey coordinates, parcels, traverse legs
and contour settings, and fills a DXF modelspace through a
`SurveyDXFManager`. The model covers these parts:

- **Geometry** (`utils.py`):
  - the shoelace-style winding test `polygon_orientation`;
  - the inside/outside edge normals `line_normals`;
  - the direction class `line_direction`.
- **Drawing** (`dxf.py`): the drawing sink, a class whose `entities`
  sequence stands for the modelspace.
  - Each `draw_*`/`add_*` method appends exactly the entities it creates.
  - Those entities are scaled by the manager's drawing scale.
  - A spec function per method says what that method appends.
- **Export** (`dxf.py`):
  - the file-name sanitiser of `get_filename`;
  - the paper-size and orientation choice of `save_pdf`.
- **Sheet**: the frame, offset frame, title anchor and footer-box arithmetic
  of both plan classes.
- **LegLabels**: `add_leg_labels`, which the cadastral and topographic plans
  carry in identical copies. Each leg gets three labels:
  - the distance at the midpoint, on the inside;
  - the degrees and minutes at 20% and 80% of the leg, on the outside;
  - all three rotated to stay upright.
- **Contours** (`topographic.py`):
  - the minimum-distance filter;
  - the choice of contour levels;
  - the major/minor test.
- **Plans**:
  - the beacons both plan classes draw;
  - the double border.
- **Cadastral** (`cadastral.py`):
  - the plan class;
  - beacons, parcels (ids resolved through a dictionary), leg labels, frames and title, drawn in that order.
- **Topographic** (`topographic.py`):
  - the plan class;
  - its frame coordinates;
  - the distinct-id beacons;
  - the emission of every traced contour segment, with its label.

Coordinates are `real`. The plan records are Dafny datatypes holding the
fields the plan code reads: coordinate ids, eastings, northings and
elevations, parcels with ids and legs, and the topographic boundary. A leg
carries two values from the math library, characterised by the predicate
`Survey.Measured`:

- `angle` is `math.degrees(math.atan2(dy, dx))`;
- `length` is `math.hypot` of its normal.

The triangulation and the contour tracer are abstract. Their output is an
input to `TopographicPlan.DrawContours`: either a failure, where the
Delaunay triangulation raises, or for each level a list of segments, each
segment a list of points.

Where the source raises, the model returns a failure value and appends
nothing further:

- `ValueError` for a wrong plan type;
- `ZeroDivisionError` for a leg of length zero;
- `ValueError` for a zero contour interval: the numpy divisions give infinities and NaN, and `int` of NaN raises (topographic.py:310-314);
- `ValueError` for a negative level count, which a negative interval smaller than the elevation range gives, because `np.linspace` rejects it (topographic.py:314-315);
- `TypeError` in the cadastral draw_frames for an unknown bounding box (cadastral.py:100-101): neither frame nor title is drawn;
- the triangulation's error for points Delaunay cannot triangulate (topographic.py:257).

## Model

| member | source | states |
|---|---|---|
| Geometry.PolygonOrientation | utils.py:1-8 | the accumulating loop over every vertex and its successor mod n returns the orientation of the ring |
| Geometry.RingSumRotate | utils.py:4-7 | rotating the vertex list by any k leaves the wrap-around sum unchanged |
| Geometry.OrientationRotate | utils.py:4-8 | the orientation is invariant under cyclic rotation of the vertices |
| Geometry.RingSumReverse | utils.py:4-7 | reversing the vertex order negates the wrap-around sum |
| Geometry.OrientationReverse | utils.py:4-8 | for a ring with non-zero sum, the ring is "CW" exactly when its reversal is "CCW" |
| Geometry.LineNormals | utils.py:10-18 | outside is the negation of inside; both are perpendicular to the edge and as long as it; inside is the +90° rotation of the edge for "CCW" and the −90° rotation for any other string |
| Survey.ZeroLengthIffCoincident | cadastral.py:69-72 | a measured leg has length zero, where the hypot division raises, exactly when its two ends are the same plan position |
| Survey.DirectionFollowsEasting | utils.py:20-25 | for a measured leg, line_direction of its atan2 angle is "left → right" exactly when its easting does not decrease, "right → left" exactly when it does |
| Geometry.CentroidScale | dxf.py:120-130 | the vertex average of the scaled points is the scaled vertex average |
| Geometry.CentroidWithin | dxf.py:128-130 | the vertex average lies inside every axis box that holds all the points |
| Drawing.BeaconEntities | dxf.py:90-115 | a beacon block at the scaled (x, y, z) on POINTS, followed by a LABELS text of the label exactly when a label is given |
| Drawing.ParcelEntities | dxf.py:117-142 | one closed polyline of the scaled points on LINES, then a colour-2 text of the parcel id exactly when there are points and the id is non-empty |
| Drawing.BeaconScaled | dxf.py:92-95 | every coordinate and text height of draw_beacon at scale c is its unit-scale value times c |
| Drawing.ParcelScaled | dxf.py:120-121 | every vertex, the label position and the label height of add_parcel at scale c are their unit-scale values times c |
| Drawing.TextScaled | dxf.py:145-147 | add_text at scale c scales position and height by c and keeps the rotation |
| Drawing.TitleScaled | dxf.py:164-167 | add_title at scale c scales location, character height and width by c |
| Drawing.FrameScaled | dxf.py:180-183 | every corner of draw_frame at scale c is the unit-scale corner times c |
| Drawing.CornerSum | dxf.py:186-190 | the winding sum of the corners in the order (min,min), (max,min), (max,max), (min,max) is 2·(maxX−minX)·(minY−maxY) |
| Drawing.FrameEntities | dxf.py:179-193 | draw_frame adds one closed four-vertex polyline on FRAME, and at a positive scale the frame of a box with positive sides winds counter-clockwise in the sense of polygon_orientation |
| Drawing.SurveyDXFManager.constructor | dxf.py:15-19 | the manager keeps the plan name and scale and starts with an empty modelspace |
| Drawing.SurveyDXFManager.DrawBeacon | dxf.py:90-115 | appends exactly the beacon entities and nothing else changes |
| Drawing.SurveyDXFManager.AddParcel | dxf.py:117-142 | appends exactly the parcel outline and, when there are points and the id is non-empty, its label |
| Drawing.SurveyDXFManager.AddText | dxf.py:144-161 | appends exactly one centred, scaled and rotated LABELS text |
| Drawing.SurveyDXFManager.AddTitle | dxf.py:163-177 | appends exactly one underlined MTEXT on TITLE_BLOCK |
| Drawing.SurveyDXFManager.DrawFrame | dxf.py:179-193 | appends exactly one closed four-vertex FRAME polyline with the scaled corners in order |
| Drawing.SurveyDXFManager.AddToModelspace | topographic.py:352-371 | appends exactly the given entity, as the direct modelspace calls of draw_contours do |
| Export.Lower | dxf.py:196 | lower-casing leaves no ASCII capital letter |
| Export.Upper | dxf.py:221 | upper-casing keeps the length and leaves no lower-case ASCII letter |
| Export.Squeeze | dxf.py:197-199 | every character of a squeezed name is the substitute or comes from the input |
| Export.SqueezeSeparates | dxf.py:197-199 | after squeezing, no two adjacent characters both belong to the squeezed class |
| Export.KeepAllowed | dxf.py:198 | every kept character is in [a-z0-9._-] and comes from the input |
| Export.Filename | dxf.py:195-200 | the file name begins with the sanitised stem, whose characters are all in [a-z0-9._-], followed by "_", the timestamp, "_" and the suffix |
| Export.SanitisedStem | dxf.py:196-199 | the sanitised stem holds only [a-z0-9._-] and never two underscores in a row |
| Export.StemIdempotent | dxf.py:196-199 | sanitising a sanitised stem gives it back unchanged |
| Export.PaperSizeOf | dxf.py:212-221 | "A3"/"a3" selects (297, 420), "A5"/"a5" selects (148, 210), and every other key A4's (210, 297), either as A4 or as the default; Letter and Legal can never be chosen, because the key is upper-cased |
| Export.UpperKey | dxf.py:221 | a key matches "A4", "A3" or "A5" exactly for that key in upper or lower case |
| Export.PageSize | dxf.py:221-225 | the page is the selected paper, either unchanged or with width and height swapped, and it is wider than tall exactly when the orientation lower-cases to "landscape"; since every selectable paper is portrait, it is turned exactly for "landscape" |
| Sheet.Extent | topographic.py:91-92 | the margin base is max(width, height) |
| Sheet.Expand | topographic.py:88-99 | the frame is wider by twice max(w,h)·fx and higher by twice max(w,h)·fy than the box, around the same centre |
| Sheet.ExpandContains | topographic.py:88-99 | the frame from non-negative fractions contains the bounding box, strictly when both fractions and max(w,h) are positive |
| Sheet.ExpandNested | topographic.py:193-196 | larger fractions give a frame containing the smaller one, strictly when the fractions are strictly larger and max(w,h) > 0 |
| Sheet.CadastralFramesNested | cadastral.py:103-110 | with margins 0.35/0.7 and offsets 0.38/0.73 the box lies inside the frame, the frame inside the offset frame, strictly when max(w,h) > 0 |
| Sheet.TopographicFramesNested | topographic.py:186-196 | with margins 0.35/0.8 and 0.03 more for the offset, the same nesting holds |
| Sheet.TitlePlacement | cadastral.py:112-129 | the title is centred over the bounding box, a fifth of the vertical margin below the frame top, with a column 0.6 of the frame width |
| Sheet.TitleInsideFrame | cadastral.py:112-129 | the title anchor lies between the box top and the frame top (strictly with a margin), and its 0.6-width column fits inside the frame |
| Sheet.ScaleBarWithinTitle | topographic.py:198-216 | the graphical scale length 0.4 of the frame width is non-negative and no longer than the title column |
| Sheet.FooterBoxes | topographic.py:220-237 | n footers give n boxes, and zero footers none |
| Sheet.FooterEnds | topographic.py:229-234 | the first box starts at the frame's left edge and the last ends at its right edge |
| Sheet.FooterAdjacent | topographic.py:233-234 | each box ends where the next begins, so the strip has no gaps |
| Sheet.FooterBox | topographic.py:226-236 | each box is (right−left)/n wide and 0.25 of the frame high and rests on the frame bottom |
| Sheet.FooterInside | topographic.py:229-236 | every box lies inside an ordered frame |
| LegLabels.TextUpright | cadastral.py:79-81 | for an atan2 angle the label rotation is, up to a full turn, within [−90, 90] |
| LegLabels.TextAngle | cadastral.py:79-87 | the rotation is turned for exactly the legs line_direction calls right-to-left, and then by exactly 180 |
| LegLabels.LabelPlacement | cadastral.py:59-96 | a placement exists exactly for a leg of non-zero length, and all three labels share the turned rotation |
| LegLabels.OffsetGeometry | cadastral.py:66-72 | the outside offset is the negated inside offset, perpendicular to the leg, of length equal to the drawing scale, on the left of the leg for "CCW" and the right otherwise |
| LegLabels.LabelSides | cadastral.py:59-76 | the distance label sits at the inside offset from the leg's line and both bearing labels at the same distance on the outside |
| LegLabels.LabelsAlongLeg | cadastral.py:59-96 | measured along the leg from its start, the distance label is at 50% of the leg, and the degrees and minutes labels at 20% and 80% for a left-to-right leg, at 80% and 20% otherwise |
| LegLabels.BearingReadingOrder | cadastral.py:86-96 | the minutes label lies 60% of the leg further along the reading direction than the degrees label, and never left of it for a measured leg |
| LegLabels.LegLabelEntities | cadastral.py:84-96 | labels exist exactly for a leg of non-zero length, and then there are three of them |
| LegLabels.LegLabelTexts | cadastral.py:84-96 | the three labels are centred LABELS texts at label scale with the turned rotation: the distance, then the degrees, then the minutes |
| LegLabels.AddLegLabels | cadastral.py:51-96 | appends the three labels of the leg, or nothing and a failure where the division by the normal's length raises; the identical copy at topographic.py lines 133-181 is the same method |
| LegLabels.LabelLegs | cadastral.py:48-49 | labelling a leg list appends each leg's labels in turn and reports whether every leg was labelled |
| LegLabels.StaysStopped | cadastral.py:48-49 | once a leg has raised, the later legs add nothing |
| LegLabels.LegsComplete | cadastral.py:48-49 | the legs are all labelled exactly when none has length zero, and then there are three texts per leg |
| Contours.ApplyMinimumDistanceFilter | topographic.py:19-43 | the filtering loop computes the thinned line |
| Contours.FilterSelects | topographic.py:26-43 | the thinned line is an order-preserving subsequence of the input and never longer |
| Contours.MinDistanceFilter | topographic.py:19-43 | the thinned line is never longer than the input, starts at its first point and, when at least two points survive, ends at its last |
| Contours.FilterSpacing | topographic.py:30-41 | every point kept in the loop is at least the minimum distance from the previously kept point; only the final appended point may be closer |
| Contours.KeepFromEmpty | topographic.py:28-37 | the loop keeps nothing exactly when every later point is closer than the minimum distance to the first |
| Contours.FilterCollapses | topographic.py:40-41 | if every later point lies within the minimum distance of the first, the result is just the first point |
| Contours.CeilBounds | topographic.py:310 | the ceiling is the least integer not below its argument |
| Contours.ContourLevels | topographic.py:310-315 | a zero interval, or a negative one smaller than zMax − zMin, gives no level list (the source raises); a positive interval and zMin ≤ zMax give one, whose consecutive levels differ by exactly one interval |
| Contours.LevelsSound | topographic.py:310-315 | level k is (ceil(zMin/I)+k)·I and lies in [zMin, zMax] |
| Contours.LevelsComplete | topographic.py:310-315 | every multiple of a positive interval within [zMin, zMax] is a level |
| Contours.PyMod | topographic.py:320 | Python's % by a positive divisor lies in [0, divisor), and by a negative one in (divisor, 0] |
| Contours.MultiplesAreMajor | topographic.py:318-321 | every multiple of a non-zero major interval is a major level |
| Contours.IsMajor | topographic.py:320 | for a positive major interval a level is major exactly when it lies less than 0.001 above a multiple of it |
| Contours.MajorLevels | topographic.py:318-321 | the loop collects the major levels in order |
| Contours.MajorMembership | topographic.py:318-321 | a value is among the major levels exactly when it is a level and passes the major test |
| Plans.BeaconsSnoc | cadastral.py:28-29 | one more coordinate appends its beacon after the others |
| Plans.BeaconsLength | cadastral.py:28-29 | each coordinate contributes exactly two entities |
| Plans.BeaconAt | cadastral.py:28-29 | the entities 2i and 2i+1 are those of coordinate i |
| Plans.BeaconsLayout | cadastral.py:24-29 | coordinate i becomes the beacon block at its scaled position on POINTS followed by its id on LABELS |
| Plans.DoubleFrameShape | cadastral.py:98-110 | the border is two closed counter-clockwise FRAME rings, the offset frame strictly around the frame and the frame strictly around the box |
| Cadastral.CoordIndexLastWins | cadastral.py:36 | a coordinate whose id does not recur later is the one the dictionary holds for it |
| Cadastral.CoordIndex | cadastral.py:36 | the dictionary's keys are exactly the coordinates' ids, and each maps to a coordinate with that id |
| Cadastral.ResolvePoints | cadastral.py:39-40 | resolution never lengthens the id list, keeps its length exactly when every id resolves, and is empty exactly when none does |
| Cadastral.ResolveAppend | cadastral.py:39-40 | resolving a concatenation of id lists is the concatenation of their resolutions, so the known ids keep their parcel order |
| Cadastral.ResolveOne | cadastral.py:39-40 | a known id resolves to its coordinate's position, an unknown one to nothing |
| Cadastral.ResolveKeepsOrder | cadastral.py:39-40 | when every id resolves, vertex i is the position of id i |
| Cadastral.ParcelOutlineFirst | cadastral.py:42-45 | a parcel with no resolved id draws nothing and labels no leg; otherwise its first entity is its closed outline on LINES |
| Cadastral.ParcelComplete | cadastral.py:42-49 | a parcel is drawn to the end exactly when it draws nothing or none of its legs has length zero |
| Cadastral.ParcelsStayStopped | cadastral.py:38-49 | after a leg has raised, the later parcels add nothing |
| Cadastral.ParcelsComplete | cadastral.py:38-49 | drawing the parcels completes exactly when every drawn parcel has no leg of length zero |
| Cadastral.DrawParcel | cadastral.py:39-49 | appends the parcel's outline and leg labels, or nothing for a parcel without resolved points |
| Cadastral.DrawEachParcel | cadastral.py:38-49 | appends the parcels' entities in order, stopping where a leg raises |
| Cadastral.CadastralPlan.constructor | cadastral.py:11-16 | the plan keeps its records and gets a fresh, empty drawer at its drawing scale |
| Cadastral.CadastralPlan.Create | cadastral.py:11-14 | a plan is made exactly when the type is CADASTRAL |
| Cadastral.CadastralPlan.DrawBeacons | cadastral.py:24-29 | appends one labelled beacon per coordinate, in order |
| Cadastral.CadastralPlan.DrawParcels | cadastral.py:31-49 | appends nothing without parcels or coordinates, else the parcels resolved through the last-wins dictionary |
| Cadastral.CadastralPlan.DrawFrames | cadastral.py:98-110 | for a known box, appends the frame at margins 0.35/0.7 of max(w,h), then the offset frame at 0.38/0.73; for an unknown one, fails with nothing appended |
| Cadastral.CadastralPlan.DrawTitle | cadastral.py:112-129 | for a known box, appends the title at the frame centre, 0.2 of the margin below the frame top, 0.6 of the frame wide, at the font size; for an unknown one, fails with nothing appended |
| Cadastral.CadastralPlan.Draw | cadastral.py:131-136 | appends beacons, parcels, frames and title in that order; a raising leg stops it after the parcels, an unknown bounding box before the frames |
| Topographic.FrameCoords | topographic.py:83-99 | frame coordinates exist exactly when the bounding box does, and are the box widened by 0.35 and 0.8 of max(w,h) on each side |
| Topographic.FirstOccurrences | topographic.py:105-110 | the drawn coordinates are no more than the boundary's and each is one of them |
| Topographic.FirstOccurrencesSound | topographic.py:105-110 | the drawn coordinates have distinct ids and cover every id of the boundary |
| Topographic.FirstOccurrenceDrawn | topographic.py:105-110 | the first coordinate with a given id is the one drawn |
| Topographic.DrawDistinctBeacons | topographic.py:105-110 | the check-list loop appends one labelled beacon per first occurrence of an id, in order |
| Topographic.CollectElevations | topographic.py:250-253 | the append loop collects every coordinate's elevation in order |
| Topographic.SeqMin | topographic.py:279 | z.min() is an element no greater than any other |
| Topographic.SeqMax | topographic.py:279 | z.max() is an element no smaller than any other |
| Topographic.SegmentEntities | topographic.py:337-371 | a segment shorter than 2 points before or after filtering emits nothing; otherwise at most two entities, the first a polyline of at least two points all at the level, on CONTOURS_MAJOR exactly when the level is major |
| Topographic.SegmentShape | topographic.py:337-371 | a drawn polyline runs from the segment's first point to its last through a subsequence of its points; one label follows exactly when the level is major and the line has ≥ 3 points, at point len//2 |
| Topographic.DrawSegment | topographic.py:337-371 | appends exactly the segment's polyline and label |
| Topographic.DrawLevel | topographic.py:337-371 | appends every segment of one level in order |
| Topographic.DrawTraced | topographic.py:331-371 | appends every traced level in order, with the major test by membership in the major levels |
| Topographic.LevelWellFormed | topographic.py:333-371 | every entity of a level is a polyline at that level on its major/minor layer, or a major level's label |
| Topographic.TracedWellFormed | topographic.py:331-371 | every traced entity is a polyline at one of the levels on the layer its major test selects, or a major level's one-decimal label |
| Topographic.ContoursDefined | topographic.py:239-315 | contours are drawn whenever there are fewer than three coordinates, or the triangulation succeeds and the interval is positive; never with three or more coordinates and a failed triangulation, a zero interval, or a negative interval smaller than the elevation range |
| Topographic.ContoursWellFormed | topographic.py:239-371 | everything draw_contours adds is a contour line at one of the levels of the surveyed elevations, or a major level's label |
| Topographic.TopographicPlan.constructor | topographic.py:62-73 | the plan keeps its records and frame coordinates and gets a fresh, empty drawer |
| Topographic.TopographicPlan.Create | topographic.py:62-73 | a plan is made exactly when the type is TOPOGRAPHIC and frame coordinates exist |
| Topographic.TopographicPlan.DrawBeacons | topographic.py:101-110 | appends nothing without a boundary, else one beacon per distinct id of the boundary, first occurrence first |
| Topographic.TopographicPlan.DrawFrames | topographic.py:183-196 | appends the frame at margins 0.35/0.8 of max(w,h), then the offset frame 0.03 further out |
| Topographic.TopographicPlan.DrawContours | topographic.py:239-371 | appends nothing for fewer than three coordinates, fails without appending where the triangulation fails or the levels cannot be formed, and otherwise appends every traced contour |

## Left out

- Transcendental functions: `math.atan2`, `math.degrees` and `math.hypot` are not computed. Each leg carries its angle and the normal's length, and `Survey.Measured` states what the angle and length satisfy.
- Number formatting: the label strings (`f"{x:.2f} m"`, `f"{d}°"`, `f"{m}'"`, `f"{level:.1f}"`) are kept as symbolic contents (`Metres`, `Degrees`, `Minutes`, `OneDecimal`) rather than rendered digits.
- Contour tracing: the Delaunay triangulation, the centroids, the triangulation of matplotlib and `tricontour` (topographic.py:255-326) are foreign numerical code. What they give is an input: a failure where `Delaunay` raises (for instance for collinear points), or the segments traced at each level.
- calculate_average_point_spacing (topographic.py:45-56): it is never called and is a mean of square roots.
- The `points_filtered` counter of draw_contours: it is never read.
- The `x`/`y` arrays of draw_contours (topographic.py:248-253): they feed only the triangulation and the tracer (topographic.py:256 and 271-277), which are an input here; the elevations `z` are modelled.
- Topographic.TopographicPlan.DrawContours: it requires that the tracer gives segments for no more levels than it was given (`TracedFits`). The source relies on this same property of `tricontour`.
- Contours.ApplyMinimumDistanceFilter: points are compared by squared distance instead of through `np.sqrt`, which gives the same test for a positive minimum distance.
- Floating point:
  - all quantities are exact reals;
  - rounding by `np.linspace` and near non-exact multiples is not modelled;
  - Python's `%` is modelled as floored remainder, so the 0.001 major tolerance is one-sided as written.
- Contour polylines and labels go straight to the modelspace without the drawer's scale, as in the source.
- Case mapping: `str.lower` and `str.upper` are modelled for ASCII letters and the Kelvin sign and capital I with dot above (whose lower-case forms matter to the sanitiser). No other Unicode case mapping is modelled.
- File output:
  - save_dxf, the rendering part of save_pdf, save_dwg (ODA converter), save (temporary files, zip, upload) and upload.py are I/O and are not modelled;
  - `save` passes a `file_name` argument to `upload_file`, whose signature does not accept it (dxf.py:269 against upload.py:7);
  - the `get_filename` timestamp and uuid suffix are parameters of `Export.Filename`.
- Setup left out:
  - the layers, beacon block, text styles and DXF header set up by the manager (dxf.py:20-88) are library configuration;
  - so are setup_font and setup_beacon_style.
- Titles and footers as markup: `html_to_mtext` (pl.py) and `build_title` are not part of this model. The title text is a parameter of `DrawTitle`, and footer contents are not modelled.
- models/plan.py: its record shapes differ from the fields the plans use (`easting`, `northing`, `id`, `topographic_boundary`, `legs`, `get_bounding_box`, `get_drawing_scale`). The records here follow the plan code. The bounding box and drawing scale are given to the constructors.
- Drawer calls that dxf.py does not have: topographic.py calls `draw_title_block`, `draw_footer_box`, `draw_topo_point`, `add_boundary`, `setup_topo_point_style` and `setup_graphical_scale_style`. None of them is defined in dxf.py (the topo-point ones are commented out). As a result:
  - draw_title_block and draw_footer_boxes are modelled only as their layout arithmetic (`Sheet.TitlePlacement`, `Sheet.TitleBlockLayout`, `Sheet.FooterBoxes`);
  - draw_topo_points and draw_boundary are not modelled, apart from draw_boundary's leg-labelling loop, which is `LegLabels.LabelLegs`;
  - the topographic `draw` (topographic.py:376-384), which calls them, is not modelled as a whole.
- Imports: both plan modules import `html_to_mtext` from utils (cadastral.py:3, topographic.py:9), but utils.py does not define it; it is defined in pl.py:5. As written, importing either module raises `ImportError`. The model takes the import as resolving to pl.html_to_mtext.
- Topographic.TopographicPlan.Create: `_setup_drawer` calls `setup_topo_point_style` and `setup_graphical_scale_style` (topographic.py:79-80), which dxf.py does not define, so as written `__init__` raises `AttributeError` for every topographic plan. The model takes those two calls as succeeding style setup, so that the drawing methods can be stated at all.
- LegLabels.TextUpright: it states the upright property only for angles in atan2's range (−180, 180].
