/** Bounding boxes in pixel space and the normalised YOLO line built from one:
    centre and size divided by the image dimensions, each clamped to [0, 1]. */
module Boxes {

  /** A COCO `bbox`: top-left corner and size, in pixels. */
  datatype BBox = BBox(x: real, y: real, w: real, h: real)

  /** One YOLO label line: `<class> <x_center> <y_center> <width> <height>`. */
  datatype Line = Line(classId: int, xCenter: real, yCenter: real, width: real, height: real)

  predicate InUnit(v: real) { 0.0 <= v <= 1.0 }

  /** All four coordinates of the line lie in [0, 1]. */
  predicate Normalized(l: Line)
  {
    InUnit(l.xCenter) && InUnit(l.yCenter) && InUnit(l.width) && InUnit(l.height)
  }

  function Min(a: real, b: real): real { if b < a then b else a }

  function Max(a: real, b: real): real { if b > a then b else a }

  /** `max(0.0, min(1.0, v))`: the nearest point of [0, 1]. */
  function Clamp01(v: real): (r: real)
    ensures InUnit(r)
    ensures InUnit(v) ==> r == v
    ensures v < 0.0 ==> r == 0.0
    ensures v > 1.0 ==> r == 1.0
  {
    Max(0.0, Min(1.0, v))
  }

  /** Centre and size relative to the image, before clamping. */
  function Unclamped(classId: int, b: BBox, imgW: real, imgH: real): (l: Line)
    requires imgW != 0.0 && imgH != 0.0
    ensures l.classId == classId
    ensures l.width * imgW == b.w && l.height * imgH == b.h
    ensures l.xCenter * imgW == b.x + b.w / 2.0 && l.yCenter * imgH == b.y + b.h / 2.0
  {
    Line(classId, (b.x + b.w / 2.0) / imgW, (b.y + b.h / 2.0) / imgH, b.w / imgW, b.h / imgH)
  }

  /** The line the converter writes for box `b` of an `imgW` x `imgH` image. */
  function ToLine(classId: int, b: BBox, imgW: real, imgH: real): (l: Line)
    requires imgW != 0.0 && imgH != 0.0
    ensures l.classId == classId
    ensures Normalized(l)
  {
    var u := Unclamped(classId, b, imgW, imgH);
    Line(classId, Clamp01(u.xCenter), Clamp01(u.yCenter), Clamp01(u.width), Clamp01(u.height))
  }

  /** Back to pixels: `w = width * W`, `x = x_center * W - w / 2`, and likewise for y. */
  function Denormalize(l: Line, imgW: real, imgH: real): BBox
  {
    var w := l.width * imgW;
    var h := l.height * imgH;
    BBox(l.xCenter * imgW - w / 2.0, l.yCenter * imgH - h / 2.0, w, h)
  }

  /** The box lies within the image. */
  predicate Inside(b: BBox, imgW: real, imgH: real)
  {
    0.0 <= b.x && 0.0 <= b.y && 0.0 <= b.w && 0.0 <= b.h
    && b.x + b.w <= imgW && b.y + b.h <= imgH
  }

  lemma RatioInUnit(a: real, d: real)
    requires 0.0 <= a <= d && 0.0 < d
    ensures InUnit(a / d)
  {
    assert a / d * d == a;
  }

  lemma RatioTimes(a: real, d: real)
    requires d != 0.0
    ensures a / d * d == a
  {
  }

  lemma RatioAtLeastOne(a: real, d: real)
    requires 0.0 < d <= a
    ensures a / d >= 1.0
  {
    assert a / d * d == a;
  }

  lemma RatioNotPositive(a: real, d: real)
    requires 0.0 < d && a <= 0.0
    ensures a / d <= 0.0
  {
    assert a / d * d == a;
  }

  /** A box inside the image already normalises into [0, 1], so clamping leaves it alone. */
  lemma InsideNeedsNoClamp(classId: int, b: BBox, imgW: real, imgH: real)
    requires 0.0 < imgW && 0.0 < imgH && Inside(b, imgW, imgH)
    ensures Normalized(Unclamped(classId, b, imgW, imgH))
    ensures ToLine(classId, b, imgW, imgH) == Unclamped(classId, b, imgW, imgH)
  {
    RatioInUnit(b.x + b.w / 2.0, imgW);
    RatioInUnit(b.y + b.h / 2.0, imgH);
    RatioInUnit(b.w, imgW);
    RatioInUnit(b.h, imgH);
  }

  /** Denormalising the line of a box inside the image gives the box back. */
  lemma InsideRoundTrip(classId: int, b: BBox, imgW: real, imgH: real)
    requires 0.0 < imgW && 0.0 < imgH && Inside(b, imgW, imgH)
    ensures Denormalize(ToLine(classId, b, imgW, imgH), imgW, imgH) == b
  {
    InsideNeedsNoClamp(classId, b, imgW, imgH);
    RatioTimes(b.x + b.w / 2.0, imgW);
    RatioTimes(b.y + b.h / 2.0, imgH);
    RatioTimes(b.w, imgW);
    RatioTimes(b.h, imgH);
  }

  /** A centre at or past the right or bottom edge is written as 1; at or before
      the left or top edge, as 0. */
  lemma CentreSaturates(classId: int, b: BBox, imgW: real, imgH: real)
    requires 0.0 < imgW && 0.0 < imgH
    ensures b.x + b.w / 2.0 >= imgW ==> ToLine(classId, b, imgW, imgH).xCenter == 1.0
    ensures b.x + b.w / 2.0 <= 0.0 ==> ToLine(classId, b, imgW, imgH).xCenter == 0.0
    ensures b.y + b.h / 2.0 >= imgH ==> ToLine(classId, b, imgW, imgH).yCenter == 1.0
    ensures b.y + b.h / 2.0 <= 0.0 ==> ToLine(classId, b, imgW, imgH).yCenter == 0.0
  {
    var cx, cy := b.x + b.w / 2.0, b.y + b.h / 2.0;
    if cx >= imgW { RatioAtLeastOne(cx, imgW); }
    if cx <= 0.0 { RatioNotPositive(cx, imgW); }
    if cy >= imgH { RatioAtLeastOne(cy, imgH); }
    if cy <= 0.0 { RatioNotPositive(cy, imgH); }
  }

  /** The worked example: box [10, 20, 30, 40] of class 2 in a 100 x 200 image
      is written as `2 0.250000 0.200000 0.300000 0.200000`. */
  lemma WorkedExample()
    ensures ToLine(2, BBox(10.0, 20.0, 30.0, 40.0), 100.0, 200.0) == Line(2, 0.25, 0.2, 0.3, 0.2)
  {
  }
}
