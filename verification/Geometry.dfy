/** A shared-memory buffer's rectangle, as the client describes it and as the renderer reads it. */
module Geometry {
  import opened Base

  type I64 = x: int | -0x8000_0000_0000_0000 <= x < 0x8000_0000_0000_0000

  const BYTES_PER_PIXEL: int := 4

  const FORMAT_ARGB8888: U32 := 0
  const FORMAT_XRGB8888: U32 := 1

  datatype GeometryError = InvalidFormat | InvalidStride

  /** A buffer: `height` rows of `width` pixels, each row `stride` bytes after the last. */
  datatype Shape = Shape(offset: I32, width: I32, height: I32, stride: I32)

  /** `check_geometry`: every product and sum is an `i64`, which the types here make an obligation. */
  function CheckGeometry(poolSize: U32, s: Shape, format: U32): Option<GeometryError> {
    if format != FORMAT_ARGB8888 && format != FORMAT_XRGB8888 then Some(InvalidFormat)
    else if s.width <= 0 || s.height <= 0 then Some(InvalidStride)
    else if s.offset < 0 then Some(InvalidStride)
    else
      var rowBytes: I64 := s.width * BYTES_PER_PIXEL;
      if s.stride < rowBytes then Some(InvalidStride)
      else
        RowsFit(s.height, s.stride);
        var rows: I64 := (s.height - 1) * s.stride;
        var start: I64 := s.offset + rows;
        var extent: I64 := start + rowBytes;
        if extent > poolSize then Some(InvalidStride) else None
  }

  /** The largest product there is: of two numbers in the range of an `i32`. */
  lemma RowsFit(height: I32, stride: I32)
    requires height > 0 && stride >= 0
    ensures 0 <= (height - 1) * stride <= 0x7fff_ffff * 0x7fff_ffff
  {
    assert (height - 1) * stride <= 0x7fff_ffff * stride;
  }

  /** Where byte `b` of the pixel at (x, y) is. */
  function PixelByte(s: Shape, x: int, y: int, b: int): int { s.offset + y * s.stride + x * BYTES_PER_PIXEL + b }

  predicate InShape(s: Shape, x: int, y: int, b: int) {
    0 <= x < s.width && 0 <= y < s.height && 0 <= b < BYTES_PER_PIXEL
  }

  /** Every pixel's every byte lies inside `size` bytes, and no row runs into the next. */
  ghost predicate PixelsFit(s: Shape, size: int) {
    && s.offset >= 0 && s.stride >= s.width * BYTES_PER_PIXEL
    && forall x, y, b :: InShape(s, x, y, b) ==> 0 <= PixelByte(s, x, y, b) < size
  }

  lemma RowWithin(s: Shape, y: int)
    requires 0 <= y < s.height && s.stride >= 0
    ensures 0 <= y * s.stride <= (s.height - 1) * s.stride
  {
    assert (s.height - 1 - y) * s.stride >= 0;
    assert (s.height - 1) * s.stride == y * s.stride + (s.height - 1 - y) * s.stride;
  }

  /** A buffer is accepted exactly when it is a rectangle of an advertised format whose every byte is in the pool. */
  lemma GeometryExact(poolSize: U32, s: Shape, format: U32)
    ensures CheckGeometry(poolSize, s, format).None? <==>
      && (format == FORMAT_ARGB8888 || format == FORMAT_XRGB8888)
      && s.width > 0 && s.height > 0 && PixelsFit(s, poolSize)
  {
    if s.width > 0 && s.height > 0 && s.offset >= 0 && s.stride >= s.width * BYTES_PER_PIXEL {
      RowsFit(s.height, s.stride);
      var extent := s.offset + (s.height - 1) * s.stride + s.width * BYTES_PER_PIXEL;
      if extent <= poolSize {
        forall x, y, b | InShape(s, x, y, b) ensures 0 <= PixelByte(s, x, y, b) < poolSize { RowWithin(s, y); }
      } else {
        assert InShape(s, s.width - 1, s.height - 1, BYTES_PER_PIXEL - 1);
        assert PixelByte(s, s.width - 1, s.height - 1, BYTES_PER_PIXEL - 1) == extent - 1;
      }
    }
  }

  /** No two pixels share a byte. */
  lemma PixelsApart(s: Shape, size: int, x: int, y: int, b: int, x': int, y': int, b': int)
    requires PixelsFit(s, size) && InShape(s, x, y, b) && InShape(s, x', y', b')
    requires PixelByte(s, x, y, b) == PixelByte(s, x', y', b')
    ensures x == x' && y == y' && b == b'
  {
    if y < y' { RowsApart(s, x, y, b, x', y', b'); }
    if y' < y { RowsApart(s, x', y', b', x, y, b); }
  }

  lemma RowsApart(s: Shape, x: int, y: int, b: int, x': int, y': int, b': int)
    requires s.stride >= s.width * BYTES_PER_PIXEL && InShape(s, x, y, b) && InShape(s, x', y', b') && y < y'
    ensures PixelByte(s, x, y, b) < PixelByte(s, x', y', b')
  {
    NextRow(y, y', s.stride);
  }

  lemma NextRow(y: int, y': int, stride: int)
    requires y < y' && stride >= 0
    ensures y' * stride >= y * stride + stride
  {
    var more := y' - y - 1;
    assert more * stride >= 0;
    assert y' * stride == (y + 1 + more) * stride == y * stride + stride + more * stride;
  }

  /** The part of `ensure_buffer_image` that decides whether the mapping can be read. */
  predicate RendererReads(s: Shape, mapped: nat) {
    && s.width > 0 && s.height > 0
    && Abs(s.stride) >= Abs(s.width) * BYTES_PER_PIXEL
    && Abs(s.offset) + (Abs(s.height) - 1) * Abs(s.stride) + Abs(s.width) * BYTES_PER_PIXEL <= mapped
  }

  /** `unsigned_abs`. */
  function Abs(x: int): nat { if x < 0 then -x else x }

  /** The renderer reads a buffer exactly when the check would have taken it against the mapping. */
  lemma RendererAgrees(s: Shape, mapped: U32, format: U32)
    requires s.offset >= 0 && s.stride >= 0 && (format == FORMAT_ARGB8888 || format == FORMAT_XRGB8888)
    ensures RendererReads(s, mapped) <==> CheckGeometry(mapped, s, format).None?
  {
    if s.width > 0 && s.height > 0 { RowsFit(s.height, s.stride); }
  }
}
