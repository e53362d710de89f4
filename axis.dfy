/**
 * `igv.paintAxis` and its local `prettyPrint`: the range axis drawn at the
 * right of a range-scaled track. The drawing surface is replaced by the
 * trace of drawing calls issued, with pixel coordinates as exact reals.
 */
module Axis {
  import opened Wrappers
  import opened JsNumbers

  /** A label: the literal "0", or `toFixed(digits)` of the value. */
  datatype Formatted = Zero | Fixed(value: JsNumber, digits: nat)

  /** `prettyPrint`: fewer decimals the larger the magnitude. */
  function PrettyPrint(x: JsNumber): (r: Formatted)
    ensures x == Finite(0.0) <==> r == Zero
    ensures r.Fixed? ==> r.value == x && r.digits <= 2
  {
    if x == Finite(0.0) then Zero
    else if AtLeast(Abs(x), Finite(10.0)) then Fixed(x, 0)
    else if AtLeast(Abs(x), Finite(1.0)) then Fixed(x, 1)
    else Fixed(x, 2)
  }

  function RealAbs(x: real): real {
    if x < 0.0 then -x else x
  }

  /** A finite nonzero value gets no decimals from 10 up, one from 1 up, and two below 1. */
  lemma DecimalsByMagnitude(x: real)
    requires x != 0.0
    ensures RealAbs(x) >= 10.0 ==> PrettyPrint(Finite(x)) == Fixed(Finite(x), 0)
    ensures 1.0 <= RealAbs(x) < 10.0 ==> PrettyPrint(Finite(x)) == Fixed(Finite(x), 1)
    ensures RealAbs(x) < 1.0 ==> PrettyPrint(Finite(x)) == Fixed(Finite(x), 2)
  {
  }

  /** NaN and the infinities take the non-zero branches: NaN gets two decimals, infinities none. */
  lemma NonFiniteFormats()
    ensures PrettyPrint(NaN) == Fixed(NaN, 2)
    ensures PrettyPrint(PosInf) == Fixed(PosInf, 0) && PrettyPrint(NegInf) == Fixed(NegInf, 0)
  {
  }

  /** A larger magnitude never gets more decimals. */
  lemma DecimalsNonIncreasing(x: real, y: real)
    requires x != 0.0 && RealAbs(x) <= RealAbs(y)
    ensures PrettyPrint(Finite(y)).digits <= PrettyPrint(Finite(x)).digits
  {
  }

  /** Examples: 0 → "0", 15.2 → "15", 3.456 → "3.5", 0.456 → "0.46", -0.004 → "-0.00". */
  lemma PrettyPrintExamples()
    ensures PrettyPrint(Finite(0.0)) == Zero
    ensures PrettyPrint(Finite(15.2)) == Fixed(Finite(15.2), 0)
    ensures PrettyPrint(Finite(3.456)) == Fixed(Finite(3.456), 1)
    ensures PrettyPrint(Finite(0.456)) == Fixed(Finite(0.456), 2)
    ensures PrettyPrint(Finite(-0.004)) == Fixed(Finite(-0.004), 2)
  {
  }

  /** The track's `dataRange`; a missing `min` or `max` is None. */
  datatype RangeBounds = RangeBounds(min: Option<JsNumber>, max: Option<JsNumber>)

  datatype DrawCommand =
    | FillRect(x: real, y: real, width: real, height: real, fillStyle: string)
    | StrokeLine(x1: real, y1: real, x2: real, y2: real)
    | FillText(text: Formatted, x: real, y: real)

  const White := "rgb(255, 255, 255)"

  /** The vertical inset of the ticks, as a fraction of the height. */
  const Shim := 0.01

  /** The draw calls `paintAxis` issues on a surface of the given size; undefined `dataRange` is None. */
  function PaintAxis(dataRange: Option<RangeBounds>, pixelWidth: real, pixelHeight: real): (trace: seq<DrawCommand>)
    ensures trace == [] <==> dataRange.None? || dataRange.value.max.None? || dataRange.value.min.None?
    ensures trace != [] ==> |trace| == 6
  {
    if dataRange.None? || dataRange.value.max.None? || dataRange.value.min.None? then []
    else
      var reference := 0.95 * pixelWidth;
      var x1 := reference - 8.0;
      var x2 := reference;
      var top := Shim * pixelHeight;
      var bottom := (1.0 - Shim) * pixelHeight;
      [ FillRect(0.0, 0.0, pixelWidth, pixelHeight, White),
        StrokeLine(x1, top, x2, top),
        FillText(PrettyPrint(dataRange.value.max.value), x1 + 4.0, top + 12.0),
        StrokeLine(x1, bottom, x2, bottom),
        FillText(PrettyPrint(dataRange.value.min.value), x1 + 4.0, bottom - 4.0),
        StrokeLine(x2, top, x2, bottom) ]
  }

  function Strokes(trace: seq<DrawCommand>): nat {
    if trace == [] then 0 else (if trace[0].StrokeLine? then 1 else 0) + Strokes(trace[1..])
  }

  function Texts(trace: seq<DrawCommand>): nat {
    if trace == [] then 0 else (if trace[0].FillText? then 1 else 0) + Texts(trace[1..])
  }

  /**
   * A range-scaled track gets the surface filled white first, then three
   * strokes and two labels: the top tick and the max label, the bottom tick
   * and the min label, and last the vertical line joining the ticks' right ends.
   */
  lemma AxisShape(min: JsNumber, max: JsNumber, w: real, h: real)
    ensures var t := PaintAxis(Some(RangeBounds(Some(min), Some(max))), w, h);
      && t[0] == FillRect(0.0, 0.0, w, h, White)
      && Strokes(t) == 3 && Texts(t) == 2
      && t[1].StrokeLine? && t[3].StrokeLine? && t[5].StrokeLine?
      && t[2] == FillText(PrettyPrint(max), t[1].x1 + 4.0, t[1].y1 + 12.0)
      && t[4] == FillText(PrettyPrint(min), t[3].x1 + 4.0, t[3].y1 - 4.0)
      && t[5] == StrokeLine(t[1].x2, t[1].y2, t[3].x2, t[3].y2)
  {
    var t := PaintAxis(Some(RangeBounds(Some(min), Some(max))), w, h);
    assert t[6..] == [];
    assert t[5..][1..] == t[6..] && t[4..][1..] == t[5..] && t[3..][1..] == t[4..];
    assert t[2..][1..] == t[3..] && t[1..][1..] == t[2..];
    assert Strokes(t[5..]) == 1 && Texts(t[5..]) == 0;
    assert Strokes(t[4..]) == 1 && Texts(t[4..]) == 1;
    assert Strokes(t[3..]) == 2 && Texts(t[3..]) == 1;
    assert Strokes(t[2..]) == 2 && Texts(t[2..]) == 2;
    assert Strokes(t[1..]) == 3 && Texts(t[1..]) == 2;
  }

  /**
   * The geometry: both ticks are horizontal, 8 pixels long and end at 95% of
   * the width; they sit at 1% and 99% of the height, so the axis line is
   * vertical and, on a surface of positive height, runs downwards inside it.
   * The ticks start inside the surface once it is at least 160/19 wide.
   */
  lemma AxisGeometry(min: JsNumber, max: JsNumber, w: real, h: real)
    requires h > 0.0
    ensures var t := PaintAxis(Some(RangeBounds(Some(min), Some(max))), w, h);
      && t[1].y1 == t[1].y2 == h / 100.0 && t[3].y1 == t[3].y2 == h - h / 100.0
      && t[1].x2 == t[3].x2 == 0.95 * w && t[1].x2 - t[1].x1 == 8.0 && t[3].x2 - t[3].x1 == 8.0
      && t[5].x1 == t[5].x2 && t[5].y1 < t[5].y2
      && 0.0 < t[5].y1 && t[5].y2 < h
      && (w >= 0.0 ==> 0.0 <= t[5].x1 <= w)
      && (w >= 160.0 / 19.0 ==> 0.0 <= t[1].x1 && 0.0 <= t[3].x1)
  {
  }

  /** Range 0.456 to 15.2 on a 200×100 surface. */
  lemma AxisExample()
    ensures PaintAxis(Some(RangeBounds(Some(Finite(0.456)), Some(Finite(15.2)))), 200.0, 100.0) ==
      [ FillRect(0.0, 0.0, 200.0, 100.0, White),
        StrokeLine(182.0, 1.0, 190.0, 1.0),
        FillText(Fixed(Finite(15.2), 0), 186.0, 13.0),
        StrokeLine(182.0, 99.0, 190.0, 99.0),
        FillText(Fixed(Finite(0.456), 2), 186.0, 95.0),
        StrokeLine(190.0, 1.0, 190.0, 99.0) ]
  {
  }
}
