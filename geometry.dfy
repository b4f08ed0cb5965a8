/** Integer and real geometry shared by the decoration and its buttons: Qt's QRect,
    QMargins, QSize and QPointF, and C++ integer division. */
module Geometry {

  /** QRect(x, y, width, height). */
  datatype Rect = Rect(x: int, y: int, width: int, height: int)
  {
    /** QRect::right(): the last column inside the rectangle. */
    function Right(): int { x + width - 1 }
  }

  /** What QRect() builds: an empty rectangle at the origin. */
  const NullRect := Rect(0, 0, 0, 0)

  /** QMargins(left, top, right, bottom). */
  datatype Margins = Margins(left: int, top: int, right: int, bottom: int)

  /** QSize(width, height). */
  datatype Size = Size(width: int, height: int)
  {
    /** QSize::isValid(): both dimensions are non-negative. */
    predicate IsValid() { width >= 0 && height >= 0 }
  }

  /** A translation, as a button's offset holds it. */
  datatype Offset = Offset(x: int, y: int)

  /** QPointF and QRectF, used in the 18 x 18 glyph box of a button. */
  datatype PointF = PointF(x: real, y: real)
  datatype RectF = RectF(x: real, y: real, width: real, height: real)

  /** C++ `a / b` on int, for a positive divisor: the quotient truncated toward
      zero. Dafny's own `/` rounds toward minus infinity for a negative `a`. */
  function CDiv(a: int, b: int): int
    requires b > 0
  {
    if a >= 0 then a / b else -((-a) / b)
  }

  /** The larger of two integers (qMax). */
  function Max(a: int, b: int): (m: int)
    ensures m >= a && m >= b && (m == a || m == b)
  {
    if a >= b then a else b
  }
}
