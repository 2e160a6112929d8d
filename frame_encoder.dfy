/** The frame encoder: where in the RGBA canvas a changed rectangle starts,
    the argument records handed to the external JPEG encoders, and the
    process-wide JPEG quality setting. JPEG encoding and resizing themselves
    are external and not modelled. */
module FrameEncoding {
  import opened Wrappers

  datatype Size = Size(width: nat, height: nat)

  datatype Rect = Rect(x: nat, y: nat, width: nat, height: nat)

  /** The argument record of the external JPEG encoder. */
  datatype JpegEncodeArgs = JpegEncodeArgs(width: nat, height: nat, stride: nat, buffer: seq<Byte>, quality: int)

  /** The argument record of the external resize-then-encode call. */
  datatype JpegResizeArgs =
    JpegResizeArgs(width: nat, height: nat, desiredWidth: nat, desiredHeight: nat, buffer: seq<Byte>, quality: int)

  const BytesPerPixel: nat := 4

  /** Quality used when the configuration gives none. */
  const DefaultQuality: int := 30

  const ThumbnailSize: Size := Size(400, 300)

  const ThumbnailQuality: int := 75

  /** Byte offset of the rectangle's top-left pixel in an RGBA canvas whose
      rows are `displaySize.width` pixels long. */
  function SliceOffset(displaySize: Size, rect: Rect): nat {
    (rect.y * displaySize.width + rect.x) * BytesPerPixel
  }

  /** Node's `subarray(start)`: the bytes from `start` to the end, or none
      when `start` lies past the end. */
  function Subarray(buf: seq<Byte>, start: nat): (r: seq<Byte>)
    ensures |r| == if start <= |buf| then |buf| - start else 0
    ensures forall i :: 0 <= i < |r| ==> r[i] == buf[start + i]
  {
    if start <= |buf| then buf[start..] else []
  }

  /** The offset always falls on a pixel boundary. */
  lemma SliceOffsetAligned(displaySize: Size, rect: Rect)
    ensures SliceOffset(displaySize, rect) % BytesPerPixel == 0
  {
  }

  /** Within a row, the offset names exactly the pixel (rect.x, rect.y):
      dividing it back out in row-major order gives the coordinates. */
  lemma SliceOffsetIsPixel(displaySize: Size, rect: Rect)
    requires rect.x < displaySize.width
    ensures var pixel := SliceOffset(displaySize, rect) / BytesPerPixel;
            pixel / displaySize.width == rect.y && pixel % displaySize.width == rect.x
  {
    var w := displaySize.width;
    var p := rect.y * w + rect.x;
    assert SliceOffset(displaySize, rect) / BytesPerPixel == p;
    DivModUnique(p, w, rect.y, rect.x);
  }

  lemma DivModUnique(p: nat, w: nat, q: nat, r: nat)
    requires 0 <= r < w && p == q * w + r
    ensures p / w == q && p % w == r
  {
    var q', r' := p / w, p % w;
    assert p == q' * w + r';
    MulStep(q', q, w);
    MulStep(q, q', w);
  }

  /** A larger factor adds at least one more whole `w`. */
  lemma {:induction false} MulStep(a: nat, b: nat, w: nat)
    ensures a < b ==> a * w + w <= b * w
    decreases b - a
  {
    if a + 1 < b {
      MulStep(a + 1, b, w);
      assert (a + 1) * w == a * w + w;
    }
  }

  /** A pixel inside a width x height canvas starts a whole pixel inside the
      canvas's 4*width*height bytes. */
  lemma SliceOffsetInCanvas(displaySize: Size, rect: Rect)
    requires rect.x < displaySize.width && rect.y < displaySize.height
    ensures SliceOffset(displaySize, rect) + BytesPerPixel <=
            BytesPerPixel * displaySize.width * displaySize.height
  {
    var w, h := displaySize.width, displaySize.height;
    assert rect.y * w + rect.x + 1 <= rect.y * w + w;
    assert rect.y * w + w == (rect.y + 1) * w;
    assert (rect.y + 1) * w <= h * w;
    assert BytesPerPixel * (rect.y * w + rect.x + 1) <= BytesPerPixel * (h * w);
    assert BytesPerPixel * (h * w) == BytesPerPixel * w * h;
  }

  /** `EncodeThumbnail`: every thumbnail is requested at the fixed size and
      quality, from the source size and buffer as given. */
  function EncodeThumbnail(buffer: seq<Byte>, size: Size): (args: JpegResizeArgs)
    ensures args.desiredWidth == ThumbnailSize.width && args.desiredHeight == ThumbnailSize.height
    ensures args.quality == ThumbnailQuality
    ensures args.width == size.width && args.height == size.height && args.buffer == buffer
  {
    JpegResizeArgs(size.width, size.height, ThumbnailSize.width, ThumbnailSize.height, buffer, ThumbnailQuality)
  }

  /** The encoder's one piece of state: the JPEG quality every later encode
      request uses. */
  class FrameEncoder {
    var jpegQuality: int

    /** The quality starts as the configured screen quality, or the default
        when none is configured. */
    constructor (screenQuality: Option<int>)
      ensures screenQuality.Some? ==> jpegQuality == screenQuality.value
      ensures screenQuality.None? ==> jpegQuality == DefaultQuality
    {
      jpegQuality := if screenQuality.Some? then screenQuality.value else DefaultQuality;
    }

    method SetQuality(quality: int)
      modifies this
      ensures jpegQuality == quality
    {
      jpegQuality := quality;
    }

    /** `Encode`: the request for one changed rectangle of the canvas. */
    function Encode(canvas: seq<Byte>, displaySize: Size, rect: Rect): (args: JpegEncodeArgs)
      reads this
      ensures args.width == rect.width && args.height == rect.height
      ensures args.stride == displaySize.width
      ensures args.quality == jpegQuality
      ensures args.buffer == Subarray(canvas, SliceOffset(displaySize, rect))
      ensures rect.x < displaySize.width && rect.y < displaySize.height &&
              |canvas| == BytesPerPixel * displaySize.width * displaySize.height ==>
                |args.buffer| >= BytesPerPixel &&
                forall i :: 0 <= i < BytesPerPixel ==> args.buffer[i] == canvas[SliceOffset(displaySize, rect) + i]
    {
      var offset := SliceOffset(displaySize, rect);
      var args := JpegEncodeArgs(rect.width, rect.height, displaySize.width, Subarray(canvas, offset), jpegQuality);
      if rect.x < displaySize.width && rect.y < displaySize.height then
        SliceOffsetInCanvas(displaySize, rect);
        args
      else
        args
    }
  }
}
