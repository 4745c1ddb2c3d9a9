/**
 * The sheet layout arithmetic shared by the plan classes: the survey's
 * bounding box is expanded by margins proportional to its larger side to get
 * the frame, a slightly larger offset frame makes the double border, the
 * title is anchored near the top of the frame, and the bottom strip of the
 * frame is tiled with equal footer boxes.
 */
module Sheet {

  datatype Rect = Rect(left: real, bottom: real, right: real, top: real)

  function Width(b: Rect): real { b.right - b.left }

  function Height(b: Rect): real { b.top - b.bottom }

  predicate Ordered(b: Rect) { b.left <= b.right && b.bottom <= b.top }

  predicate Contains(outer: Rect, inner: Rect)
  {
    outer.left <= inner.left && outer.bottom <= inner.bottom && inner.right <= outer.right && inner.top <= outer.top
  }

  predicate StrictlyContains(outer: Rect, inner: Rect)
  {
    outer.left < inner.left && outer.bottom < inner.bottom && inner.right < outer.right && inner.top < outer.top
  }

  /** max(width, height): the larger side of the box. */
  function Extent(b: Rect): (m: real)
    ensures m >= Width(b) && m >= Height(b)
    ensures m == Width(b) || m == Height(b)
  {
    if Width(b) >= Height(b) then Width(b) else Height(b)
  }

  /**
   * The box grown by max(w, h) * fx on the left and right and max(w, h) * fy
   * below and above: wider by twice the horizontal margin, higher by twice
   * the vertical one, around the same centre.
   */
  function Expand(b: Rect, fx: real, fy: real): (r: Rect)
    ensures Width(r) == Width(b) + 2.0 * (Extent(b) * fx)
    ensures Height(r) == Height(b) + 2.0 * (Extent(b) * fy)
    ensures r.left + r.right == b.left + b.right && r.bottom + r.top == b.bottom + b.top
  {
    var m := Extent(b);
    Rect(b.left - m * fx, b.bottom - m * fy, b.right + m * fx, b.top + m * fy)
  }

  // The margin fractions of the two plans (cadastral.py, topographic.py).
  const CadastralFrameX: real := 0.35
  const CadastralFrameY: real := 0.7
  const CadastralOffsetX: real := 0.38
  const CadastralOffsetY: real := 0.73
  const TopographicFrameX: real := 0.35
  const TopographicFrameY: real := 0.8
  /** The topographic offset frame adds this to both fractions. */
  const OffsetStep: real := 0.03

  lemma ProductOrder(m: real, f: real, g: real)
    requires m >= 0.0 && f <= g
    ensures m * f <= m * g
    ensures m > 0.0 && f < g ==> m * f < m * g
  {
  }

  lemma ProductSign(m: real, f: real)
    requires m >= 0.0 && f >= 0.0
    ensures m * f >= 0.0
    ensures m > 0.0 && f > 0.0 ==> m * f > 0.0
  {
  }

  /**
   * The frame holds the bounding box, and strictly so once the box has a
   * positive side and both fractions are positive.
   */
  lemma ExpandContains(b: Rect, fx: real, fy: real)
    requires Ordered(b) && fx >= 0.0 && fy >= 0.0
    ensures Ordered(Expand(b, fx, fy)) && Contains(Expand(b, fx, fy), b)
    ensures Extent(b) > 0.0 && fx > 0.0 && fy > 0.0 ==> StrictlyContains(Expand(b, fx, fy), b)
  {
    ProductSign(Extent(b), fx);
    ProductSign(Extent(b), fy);
  }

  /** Larger fractions give a frame around the smaller one. */
  lemma ExpandNested(b: Rect, fx: real, fy: real, gx: real, gy: real)
    requires Ordered(b) && fx <= gx && fy <= gy
    ensures Contains(Expand(b, gx, gy), Expand(b, fx, fy))
    ensures Extent(b) > 0.0 && fx < gx && fy < gy ==> StrictlyContains(Expand(b, gx, gy), Expand(b, fx, fy))
  {
    ExpandSides(b, fx, fy);
    ExpandSides(b, gx, gy);
    MarginsNested(b, Extent(b), fx, fy, gx, gy);
  }

  /** The box grown by m * g around it holds the box grown by m * f, for f <= g on both axes. */
  lemma MarginsNested(b: Rect, m: real, fx: real, fy: real, gx: real, gy: real)
    requires m >= 0.0 && fx <= gx && fy <= gy
    ensures Contains(Rect(b.left - m * gx, b.bottom - m * gy, b.right + m * gx, b.top + m * gy),
                     Rect(b.left - m * fx, b.bottom - m * fy, b.right + m * fx, b.top + m * fy))
    ensures m > 0.0 && fx < gx && fy < gy ==>
      StrictlyContains(Rect(b.left - m * gx, b.bottom - m * gy, b.right + m * gx, b.top + m * gy),
                       Rect(b.left - m * fx, b.bottom - m * fy, b.right + m * fx, b.top + m * fy))
  {
    var outer := Rect(b.left - m * gx, b.bottom - m * gy, b.right + m * gx, b.top + m * gy);
    var inner := Rect(b.left - m * fx, b.bottom - m * fy, b.right + m * fx, b.top + m * fy);
    Widen(b.left, b.right, m, fx, gx);
    Widen(b.bottom, b.top, m, fy, gy);
    assert outer.left <= inner.left && outer.bottom <= inner.bottom;
    assert inner.right <= outer.right && inner.top <= outer.top;
    if m > 0.0 && fx < gx && fy < gy {
      assert outer.left < inner.left && outer.bottom < inner.bottom;
      assert inner.right < outer.right && inner.top < outer.top;
    }
  }

  lemma ExpandSides(b: Rect, fx: real, fy: real)
    ensures Expand(b, fx, fy)
         == Rect(b.left - Extent(b) * fx, b.bottom - Extent(b) * fy, b.right + Extent(b) * fx, b.top + Extent(b) * fy)
  {
  }

  /** Growing an interval [lo, hi] by m * g on each side reaches at least as far as growing it by m * f. */
  lemma Widen(lo: real, hi: real, m: real, f: real, g: real)
    requires m >= 0.0 && f <= g
    ensures lo - m * g <= lo - m * f && hi + m * f <= hi + m * g
    ensures m > 0.0 && f < g ==> lo - m * g < lo - m * f && hi + m * f < hi + m * g
  {
    ProductOrder(m, f, g);
  }

  /** The cadastral double border: box inside frame inside offset frame. */
  lemma CadastralFramesNested(b: Rect)
    requires Ordered(b)
    ensures Contains(Expand(b, CadastralFrameX, CadastralFrameY), b)
    ensures Contains(Expand(b, CadastralOffsetX, CadastralOffsetY), Expand(b, CadastralFrameX, CadastralFrameY))
    ensures Extent(b) > 0.0 ==>
      && StrictlyContains(Expand(b, CadastralFrameX, CadastralFrameY), b)
      && StrictlyContains(Expand(b, CadastralOffsetX, CadastralOffsetY), Expand(b, CadastralFrameX, CadastralFrameY))
  {
    ExpandContains(b, CadastralFrameX, CadastralFrameY);
    ExpandNested(b, CadastralFrameX, CadastralFrameY, CadastralOffsetX, CadastralOffsetY);
  }

  /** The topographic double border, with the offset frame 0.03 further out on each fraction. */
  lemma TopographicFramesNested(b: Rect)
    requires Ordered(b)
    ensures Contains(Expand(b, TopographicFrameX, TopographicFrameY), b)
    ensures Contains(Expand(b, TopographicFrameX + OffsetStep, TopographicFrameY + OffsetStep),
                     Expand(b, TopographicFrameX, TopographicFrameY))
    ensures Extent(b) > 0.0 ==>
      && StrictlyContains(Expand(b, TopographicFrameX, TopographicFrameY), b)
      && StrictlyContains(Expand(b, TopographicFrameX + OffsetStep, TopographicFrameY + OffsetStep),
                          Expand(b, TopographicFrameX, TopographicFrameY))
  {
    ExpandContains(b, TopographicFrameX, TopographicFrameY);
    ExpandNested(b, TopographicFrameX, TopographicFrameY, TopographicFrameX + OffsetStep, TopographicFrameY + OffsetStep);
  }

  // ---------------------------------------------------------------------
  // Title anchor (draw_title, draw_title_block)
  // ---------------------------------------------------------------------

  /** Where the title goes: its top-centre point and its column width. */
  datatype TitleAnchor = TitleAnchor(x: real, y: real, width: real)

  /**
   * The title anchor: centred over the bounding box, a fifth of the vertical
   * margin below the top of the frame, with a column 60% of the frame wide.
   */
  function TitlePlacement(b: Rect, fx: real, fy: real): (r: TitleAnchor)
    ensures r.x == (b.left + b.right) / 2.0
    ensures r.y == Expand(b, fx, fy).top - 0.2 * fy * Extent(b)
    ensures r.width == 0.6 * Width(Expand(b, fx, fy))
  {
    var marginY := Extent(b) * fy;
    var frame := Expand(b, fx, fy);
    var frameWidth := frame.right - frame.left;
    TitleAnchor(frame.left + frameWidth / 2.0, frame.top - marginY * 0.2, frameWidth * 0.6)
  }

  /**
   * The title anchor lies between the top of the box and the top of the
   * frame (strictly once there is a margin), and its column stays inside the
   * frame.
   */
  lemma TitleInsideFrame(b: Rect, fx: real, fy: real)
    requires Ordered(b) && fx >= 0.0 && fy >= 0.0
    ensures var t, frame := TitlePlacement(b, fx, fy), Expand(b, fx, fy);
      && b.top <= t.y <= frame.top
      && (Extent(b) > 0.0 && fy > 0.0 ==> b.top < t.y < frame.top)
      && frame.left <= t.x - t.width / 2.0 && t.x + t.width / 2.0 <= frame.right
  {
    ProductSign(Extent(b), fx);
    ProductSign(Extent(b), fy);
  }

  /** The topographic title block: the title anchor plus the graphical scale bar length. */
  datatype TitleBlock = TitleBlock(anchor: TitleAnchor, scaleBarLength: real)

  function TitleBlockLayout(b: Rect, frame: Rect): TitleBlock
  {
    TitleBlock(TitlePlacement(b, TopographicFrameX, TopographicFrameY), (frame.right - frame.left) * 0.4)
  }

  /** With the frame the plan stores, the scale bar is shorter than the title column. */
  lemma ScaleBarWithinTitle(b: Rect)
    requires Ordered(b)
    ensures var block := TitleBlockLayout(b, Expand(b, TopographicFrameX, TopographicFrameY));
      0.0 <= block.scaleBarLength <= block.anchor.width
  {
    ExpandContains(b, TopographicFrameX, TopographicFrameY);
  }

  // ---------------------------------------------------------------------
  // Footer boxes (draw_footer_boxes)
  // ---------------------------------------------------------------------

  /** Box i of n: a 1/n-wide slice of the frame, a quarter of its height, on its bottom edge. */
  function FooterBox(frame: Rect, n: nat, i: nat): (r: Rect)
    requires n > 0
    ensures Width(r) == (frame.right - frame.left) / n as real
    ensures r.bottom == frame.bottom
    ensures Height(r) == Height(frame) * 0.25
  {
    var boxWidth := (frame.right - frame.left) / n as real;
    var x1 := frame.left + i as real * boxWidth;
    Rect(x1, frame.bottom, x1 + boxWidth, frame.bottom + (frame.top - frame.bottom) * 0.25)
  }

  /** The boxes for n footers; no footers, no boxes. */
  function FooterBoxes(frame: Rect, n: nat): (r: seq<Rect>)
    ensures |r| == n
  {
    if n == 0 then [] else seq(n, i requires 0 <= i < n => FooterBox(frame, n, i))
  }

  lemma NextSlice(i: nat, w: real)
    ensures i as real * w + w == (i + 1) as real * w
  {
  }

  lemma WholeSlices(n: nat, span: real)
    requires n > 0
    ensures n as real * (span / n as real) == span
  {
  }

  lemma SliceWithin(i: nat, n: nat, w: real)
    requires i < n && w >= 0.0
    ensures 0.0 <= i as real * w && i as real * w + w <= n as real * w
  {
    NextSlice(i, w);
    ProductOrder(w, (i + 1) as real, n as real);
  }

  /** The first box starts at the frame's left edge and the last ends at its right edge. */
  lemma FooterEnds(frame: Rect, n: nat)
    requires n > 0
    ensures FooterBoxes(frame, n)[0].left == frame.left
    ensures FooterBoxes(frame, n)[n - 1].right == frame.right
  {
    var w := (frame.right - frame.left) / n as real;
    assert FooterBoxes(frame, n)[n - 1] == FooterBox(frame, n, n - 1);
    NextSlice(n - 1, w);
    WholeSlices(n, frame.right - frame.left);
  }

  /** Each box ends exactly where the next one begins: no gaps, no overlaps. */
  lemma FooterAdjacent(frame: Rect, n: nat, i: nat)
    requires i + 1 < n
    ensures FooterBoxes(frame, n)[i].right == FooterBoxes(frame, n)[i + 1].left
  {
    assert FooterBoxes(frame, n)[i] == FooterBox(frame, n, i);
    assert FooterBoxes(frame, n)[i + 1] == FooterBox(frame, n, i + 1);
    NextSlice(i, (frame.right - frame.left) / n as real);
  }

  /** The end of slice i of a span cut into n slices of width w lies within the span. */
  lemma SliceEnd(left: real, span: real, n: nat, i: nat, w: real)
    requires i < n && w >= 0.0 && n as real * w == span
    ensures left <= left + i as real * w
    ensures left + i as real * w + w <= left + span
  {
    SliceWithin(i, n, w);
    calc {
      left + i as real * w + w;
    <= left + n as real * w;
    == left + span;
    }
  }

  /** In an ordered frame every box lies inside the frame. */
  lemma FooterInside(frame: Rect, n: nat, i: nat)
    requires Ordered(frame) && i < n
    ensures Contains(frame, FooterBoxes(frame, n)[i])
  {
    assert FooterBoxes(frame, n)[i] == FooterBox(frame, n, i);
    var w := (frame.right - frame.left) / n as real;
    WholeSlices(n, frame.right - frame.left);
    SliceEnd(frame.left, frame.right - frame.left, n, i, w);
  }
}
