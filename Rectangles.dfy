/** Integer rectangles and sizes, and their conversions. */
module Rectangles {
  import opened Vectors

  /** Rust's `i32`. */
  newtype int32 = x: int | -0x8000_0000 <= x < 0x8000_0000

  datatype Rectangle = Rectangle(x: int32, y: int32, w: int32, h: int32)
  datatype Size = Size(w: int32, h: int32)

  /** `From<Size> for Rectangle`: a rectangle anchored at the origin. */
  function RectangleOfSize(s: Size): (r: Rectangle)
    ensures r.x == 0 && r.y == 0
    ensures r.w == s.w && r.h == s.h
  {
    Rectangle(0, 0, s.w, s.h)
  }

  /** `From<Rectangle> for Size`: keeps the extent, forgets the position. */
  function SizeOfRectangle(r: Rectangle): (s: Size)
    ensures s.w == r.w && s.h == r.h
  {
    Size(r.w, r.h)
  }

  /** `From<(i32, i32)> for Size`: width first, height second. */
  function SizeOfPair(p: (int32, int32)): (s: Size)
    ensures (s.w, s.h) == p
  {
    Size(p.0, p.1)
  }

  /** `From<Rectangle> for Vector4`: (x, y, w, h) in that order, each
      converted to a float (here exactly, as a real). */
  function Vector4OfRectangle(r: Rectangle): Vector4
  {
    Vector4(r.x as int as real, r.y as int as real, r.w as int as real, r.h as int as real)
  }

  lemma SizeRoundTrip(s: Size)
    ensures SizeOfRectangle(RectangleOfSize(s)) == s
  {
  }

  /** Going through a size loses the position, so the round trip from a
      rectangle is the identity exactly on rectangles at the origin. */
  lemma RectangleRoundTrip(r: Rectangle)
    ensures RectangleOfSize(SizeOfRectangle(r)) == r <==> r.x == 0 && r.y == 0
  {
  }

  /** The derived equalities compare field by field. */
  lemma RectangleEquality(a: Rectangle, b: Rectangle)
    ensures a == b <==> a.x == b.x && a.y == b.y && a.w == b.w && a.h == b.h
  {
  }

  lemma SizeEquality(a: Size, b: Size)
    ensures a == b <==> a.w == b.w && a.h == b.h
  {
  }

  /** The vector of a size's rectangle carries the origin first and the
      extent last. */
  lemma Vector4OfRectangleOfSize(s: Size)
    ensures Vector4OfRectangle(RectangleOfSize(s)) == Vector4(0.0, 0.0, s.w as int as real, s.h as int as real)
  {
  }

  /** Under the exact integer-to-real cast of this model, converting to a
      vector loses nothing: the rectangle can be read back. (The program's
      `i32 as f32` rounds above 2^24 and is not injective there.) */
  lemma Vector4OfRectangleInjective(a: Rectangle, b: Rectangle)
    ensures Vector4OfRectangle(a) == Vector4OfRectangle(b) ==> a == b
  {
  }
}
