/**
 * Image helpers (modules/utils/img_utils.py): the file-safe name filter, the
 * numpy-dtype to OpenImageIO-format choice, the numpy to QImage format
 * dispatch with its grey colour table, and the shape guards in front of
 * the OpenImageIO buffer and writer.
 *
 * An array is described by its element type, its shape and its first
 * stride; pixels themselves are not modelled.
 */
module ImgUtils {
  import opened Wrappers

  /** A character `\w` matches, restricted to ASCII: a letter, a digit or `_`. */
  predicate IsWordChar(c: char)
  {
    ('a' <= c <= 'z') || ('A' <= c <= 'Z') || ('0' <= c <= '9') || c == '_'
  }

  /** A character the pattern `[^\w\-_\.]` leaves alone. */
  predicate IsSafeChar(c: char)
  {
    IsWordChar(c) || c == '-' || c == '.'
  }

  /** `create_file_safe_name`: every character outside the safe set becomes `_`. */
  function CreateFileSafeName(filename: string): (r: string)
    ensures |r| == |filename|
    ensures forall i :: 0 <= i < |r| ==> IsSafeChar(r[i])
    ensures forall i :: 0 <= i < |r| ==> (IsSafeChar(filename[i]) <==> r[i] == filename[i])
  {
    if filename == [] then []
    else [if IsSafeChar(filename[0]) then filename[0] else '_'] + CreateFileSafeName(filename[1..])
  }

  /** A name is left as it is exactly when it is already file-safe. */
  lemma SafeNameFixedPoints(filename: string)
    ensures CreateFileSafeName(filename) == filename <==> forall i :: 0 <= i < |filename| ==> IsSafeChar(filename[i])
  {
    var r := CreateFileSafeName(filename);
    if forall i :: 0 <= i < |filename| ==> IsSafeChar(filename[i]) {
      assert forall i :: 0 <= i < |r| ==> r[i] == filename[i];
    }
  }

  /** Sanitising twice is sanitising once. */
  lemma SafeNameIdempotent(filename: string)
    ensures CreateFileSafeName(CreateFileSafeName(filename)) == CreateFileSafeName(filename)
  {
    SafeNameFixedPoints(CreateFileSafeName(filename));
  }

  /** The numpy element types the helpers tell apart. */
  datatype DType = UInt8 | Float32 | OtherDType(name: string)

  /** The OpenImageIO pixel formats the helpers choose between. */
  datatype OiioFormat = OiioFloat | OiioUInt8

  /** A numpy array: element type, shape and `strides[0]`. */
  datatype NdArray = NdArray(dtype: DType, shape: seq<nat>, rowStride: int)

  /** `get_numpy_oiio_img_format`: FLOAT for float32 data, UINT8 for anything else. */
  function GetNumpyOiioImgFormat(a: NdArray): (r: OiioFormat)
    ensures r == OiioFloat <==> a.dtype == Float32
    ensures r == OiioUInt8 <==> a.dtype != Float32
  {
    if a.dtype != Float32 then OiioUInt8 else OiioFloat
  }

  /** `ImageSpec(w, h, c, format)`. */
  datatype ImageSpec = ImageSpec(width: nat, height: nat, channels: nat, format: OiioFormat)

  /** What `np_to_imagebuf` does with an array. */
  datatype BufResult =
    | ShapeRejected            // fewer than three dimensions: logged, no buffer
    | UnpackRaised             // more than three: `h, w, c = shape` raises
    | BufferCreated(spec: ImageSpec)

  /** The spec of an `h x w x c` array. */
  function SpecOf(a: NdArray): ImageSpec
    requires |a.shape| == 3
  {
    ImageSpec(a.shape[1], a.shape[0], a.shape[2], GetNumpyOiioImgFormat(a))
  }

  /** `np_to_imagebuf`: a buffer only for a three-dimensional array. */
  function NpToImageBuf(a: NdArray): (r: BufResult)
    ensures r == ShapeRejected <==> |a.shape| < 3
    ensures r.BufferCreated? <==> |a.shape| == 3
    ensures r.BufferCreated? ==>
              r.spec.height == a.shape[0] && r.spec.width == a.shape[1] && r.spec.channels == a.shape[2] &&
              (r.spec.format == OiioFloat <==> a.dtype == Float32)
  {
    if |a.shape| < 3 then ShapeRejected
    else if |a.shape| > 3 then UnpackRaised
    else BufferCreated(SpecOf(a))
  }

  /** What `write_image` does. */
  datatype WriteResult =
    | NoOutput                 // `ImageOutput.create` failed
    | WriteShapeRejected       // fewer than three dimensions
    | WriteUnpackRaised        // more than three dimensions
    | OpenFailed(spec: ImageSpec)   // logged, output closed, nothing written
    | Written(spec: ImageSpec)      // pixels handed to the writer, output closed

  /**
   * `write_image`, with the library's answers as parameters: whether an
   * output could be created for the file and whether opening it with the
   * spec succeeds. A failure while writing is caught and logged, so it ends
   * like a successful write.
   */
  function WriteImage(a: NdArray, created: bool, canOpen: bool): (r: WriteResult)
    ensures r.Written? ==> created && canOpen && |a.shape| == 3 && r.spec == SpecOf(a)
    ensures r == WriteShapeRejected <==> created && |a.shape| < 3
    ensures r == NoOutput <==> !created
  {
    if !created then NoOutput
    else if |a.shape| < 3 then WriteShapeRejected
    else if |a.shape| > 3 then WriteUnpackRaised
    else if canOpen then Written(SpecOf(a))
    else OpenFailed(SpecOf(a))
  }

  /** Writer and buffer agree: a write happens only for an array that gets a buffer, and with the same spec. */
  lemma WriteMatchesBuffer(a: NdArray, created: bool, canOpen: bool)
    ensures WriteImage(a, created, canOpen).Written? ==>
              NpToImageBuf(a) == BufferCreated(WriteImage(a, created, canOpen).spec)
    ensures created && canOpen && NpToImageBuf(a).BufferCreated? ==>
              WriteImage(a, created, canOpen) == Written(NpToImageBuf(a).spec)
  {
  }

  /** `qRgb(r, g, b)`: an opaque 32-bit ARGB value. */
  function QRgb(r: nat, g: nat, b: nat): (v: nat)
    requires r < 256 && g < 256 && b < 256
    ensures 0xFF00_0000 <= v < 0x1_0000_0000
    ensures (v / 0x1_0000) % 256 == r && (v / 0x100) % 256 == g && v % 256 == b
  {
    0xFF00_0000 + r * 0x1_0000 + g * 0x100 + b
  }

  /** `gray_color_table`, built from 0 up to `n`. */
  function GrayTable(n: nat): (t: seq<nat>)
    requires n <= 256
    ensures |t| == n
    ensures forall i :: 0 <= i < n ==> t[i] == QRgb(i, i, i)
  {
    if n == 0 then [] else GrayTable(n - 1) + [QRgb(n - 1, n - 1, n - 1)]
  }

  const GrayColorTable: seq<nat> := GrayTable(256)

  /** The QImage formats `np_2_q_image` picks. */
  datatype QImageFormat = Indexed8 | RGB888 | ARGB32

  /** `QImage(data, width, height, bytesPerLine, format)` with its colour table. */
  datatype QImage = QImage(width: nat, height: nat, bytesPerLine: int, format: QImageFormat, colorTable: seq<nat>)

  /** `np_2_q_image`: the format follows from the element type and shape; anything else gives `None`. */
  function NpToQImage(im: NdArray): (r: Option<QImage>)
    ensures r.Some? <==>
              im.dtype == UInt8 && (|im.shape| == 2 || (|im.shape| == 3 && (im.shape[2] == 3 || im.shape[2] == 4)))
    ensures r.Some? ==>
              r.value.width == im.shape[1] && r.value.height == im.shape[0] && r.value.bytesPerLine == im.rowStride
    ensures r.Some? ==> (r.value.format == Indexed8 <==> |im.shape| == 2)
    ensures r.Some? && r.value.format == Indexed8 ==> r.value.colorTable == GrayColorTable
    ensures r.Some? && |im.shape| == 3 ==> (r.value.format == RGB888 <==> im.shape[2] == 3)
  {
    if im.dtype == UInt8 then
      if |im.shape| == 2 then
        Some(QImage(im.shape[1], im.shape[0], im.rowStride, Indexed8, GrayColorTable))
      else if |im.shape| == 3 then
        if im.shape[2] == 3 then Some(QImage(im.shape[1], im.shape[0], im.rowStride, RGB888, []))
        else if im.shape[2] == 4 then Some(QImage(im.shape[1], im.shape[0], im.rowStride, ARGB32, []))
        else None
      else None
    else None
  }

  /** The grey table maps every 8-bit index to the opaque grey of that level. */
  lemma GrayColorTableEntries()
    ensures |GrayColorTable| == 256
    ensures forall i :: 0 <= i < 256 ==>
              var v := GrayColorTable[i];
              v / 0x100_0000 == 0xFF && (v / 0x1_0000) % 256 == i && (v / 0x100) % 256 == i && v % 256 == i
  {
    forall i | 0 <= i < 256
      ensures var v := GrayColorTable[i];
              v / 0x100_0000 == 0xFF && (v / 0x1_0000) % 256 == i && (v / 0x100) % 256 == i && v % 256 == i
    {
      var v := GrayColorTable[i];
      assert v == QRgb(i, i, i);
    }
  }
}
