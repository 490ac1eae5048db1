/**
 * Decoding of one raw P2 Pro buffer (video.py:246-262). The buffer is 256x384x2 bytes:
 * the upper half is the YUYV (4:2:2) picture plane of shape (192, 256, 2), the lower half
 * holds 192x256 thermal codes, each an unsigned 16-bit little-endian value.
 */
module FrameCodec {
  import opened Wrappers

  type byte = x: int | 0 <= x < 256
  type uint16 = x: int | 0 <= x < 65536

  const PlaneRows: nat := 192      // P2Pro_resolution[1] // 2
  const PlaneCols: nat := 256      // P2Pro_resolution[0]
  const PlaneBytes: nat := 98304   // 192 * 256 * 2
  const RawFrameBytes: nat := 196608
  const ThermalPixels: nat := 49152
  const RgbBytes: nat := 147456    // 192 * 256 * 3

  /** A numpy uint8 array of shape (rows, cols, channels), stored row-major. */
  datatype Image = Image(rows: nat, cols: nat, channels: nat, data: seq<byte>)

  /** A numpy uint16 array of shape (rows, cols). */
  datatype ThermalImage = ThermalImage(rows: nat, cols: nat, codes: seq<uint16>)

  /** The frame record put on every queue. */
  datatype Frame = Frame(frameNum: nat, rgb: Image, yuv: Image, thermal: ThermalImage)

  /** numpy's failures on a buffer of the wrong length. */
  datatype DecodeError = PictureShape | ThermalBufferSize | ThermalShape

  /** cv2.cvtColor(.., COLOR_YUV2RGB_YUY2), which is outside this model. */
  type Converter = seq<byte> -> seq<byte>

  /** cvtColor's shape promise: a (192, 256, 2) YUYV plane becomes a (192, 256, 3) RGB image. */
  ghost predicate ShapeKeeping(toRgb: Converter) {
    forall yuv: seq<byte> {:trigger toRgb(yuv)} :: |yuv| == PlaneBytes ==> |toRgb(yuv)| == RgbBytes
  }

  /** The 16-bit value of a little-endian byte pair. */
  function Word(lo: byte, hi: byte): (w: uint16)
    ensures w % 256 == lo && w / 256 == hi
  {
    (lo as int) + 256 * (hi as int)
  }

  /** np.frombuffer(.., dtype=np.uint16) on a little-endian host. */
  function DecodeLE16(b: seq<byte>): (v: seq<uint16>)
    requires |b| % 2 == 0
    ensures |v| == |b| / 2
    ensures forall i :: 0 <= i < |v| ==> v[i] == Word(b[2 * i], b[2 * i + 1])
  {
    seq(|b| / 2, i requires 0 <= i < |b| / 2 => Word(b[2 * i], b[2 * i + 1]))
  }

  /** .astype(np.uint16).tobytes() on a little-endian host. */
  function EncodeLE16(v: seq<uint16>): (b: seq<byte>)
    ensures |b| == 2 * |v|
    ensures forall i :: 0 <= i < |v| ==> b[2 * i] == v[i] % 256 && b[2 * i + 1] == v[i] / 256
  {
    seq(2 * |v|, j requires 0 <= j < 2 * |v| => (if j % 2 == 0 then v[j / 2] % 256 else v[j / 2] / 256) as byte)
  }

  lemma DecodeEncodeLE16(v: seq<uint16>)
    ensures DecodeLE16(EncodeLE16(v)) == v
  {
    var e := EncodeLE16(v);
    var d := DecodeLE16(e);
    forall i | 0 <= i < |v| ensures d[i] == v[i] {
      assert d[i] == Word(e[2 * i], e[2 * i + 1]);
    }
  }

  lemma EncodeDecodeLE16(b: seq<byte>)
    requires |b| % 2 == 0
    ensures EncodeLE16(DecodeLE16(b)) == b
  {
    var e := EncodeLE16(DecodeLE16(b));
    forall j | 0 <= j < |b| ensures e[j] == b[j] {
      EncodeDecodeAt(b, j);
    }
  }

  lemma EncodeDecodeAt(b: seq<byte>, j: nat)
    requires |b| % 2 == 0 && j < |b|
    ensures EncodeLE16(DecodeLE16(b))[j] == b[j]
  {
    var v := DecodeLE16(b);
    var i := j / 2;
    assert j == 2 * i || j == 2 * i + 1;
    assert v[i] == Word(b[2 * i], b[2 * i + 1]);
  }

  /** The bytes the thermal encoder receives for one frame. */
  function ThermalBytes(t: ThermalImage): seq<byte> {
    EncodeLE16(t.codes)
  }

  /**
   * Split at int(len(frame) / 2) and reshape both halves; frameNum is frame_counter.
   * The checks are numpy's: reshape((192, 256, 2)) of the picture half, then
   * frombuffer(uint16) (needs an even byte count) and reshape((192, 256)) of the rest.
   */
  function Decode(raw: seq<byte>, frameNum: nat, toRgb: Converter): (r: Result<Frame, DecodeError>)
    ensures r.Success? <==> |raw| == RawFrameBytes
    ensures |raw| == RawFrameBytes + 1 ==> r == Failure(ThermalBufferSize)
    ensures r.Success? ==>
      var f := r.value;
      && f.frameNum == frameNum
      && f.yuv == Image(PlaneRows, PlaneCols, 2, raw[..PlaneBytes])
      && f.rgb == Image(PlaneRows, PlaneCols, 3, toRgb(raw[..PlaneBytes]))
      && f.thermal.rows == PlaneRows && f.thermal.cols == PlaneCols
      && |f.thermal.codes| == ThermalPixels
      && forall i :: 0 <= i < ThermalPixels ==>
           f.thermal.codes[i] == Word(raw[PlaneBytes + 2 * i], raw[PlaneBytes + 2 * i + 1])
  {
    var mid := |raw| / 2;
    if mid != PlaneBytes then Failure(PictureShape)
    else if (|raw| - mid) % 2 != 0 then Failure(ThermalBufferSize)
    else if (|raw| - mid) / 2 != ThermalPixels then Failure(ThermalShape)
    else
      var picture := raw[..mid];
      var thermal := raw[mid..];
      Success(Frame(frameNum,
                    Image(PlaneRows, PlaneCols, 3, toRgb(picture)),
                    Image(PlaneRows, PlaneCols, 2, picture),
                    ThermalImage(PlaneRows, PlaneCols, DecodeLE16(thermal))))
  }

  /** With a converter that keeps cvtColor's shape promise, the RGB image has 192 x 256 x 3 bytes. */
  lemma DecodeRgbShape(raw: seq<byte>, frameNum: nat, toRgb: Converter)
    requires ShapeKeeping(toRgb) && Decode(raw, frameNum, toRgb).Success?
    ensures var img := Decode(raw, frameNum, toRgb).value.rgb;
      img.rows == PlaneRows && img.cols == PlaneCols && img.channels == 3 && |img.data| == RgbBytes
  {
    assert |raw[..PlaneBytes]| == PlaneBytes;
  }

  /** The two planes of a decoded frame put back together are the raw buffer. */
  lemma DecodeRoundTrip(raw: seq<byte>, frameNum: nat, toRgb: Converter)
    requires Decode(raw, frameNum, toRgb).Success?
    ensures var f := Decode(raw, frameNum, toRgb).value;
      && |f.yuv.data| == PlaneBytes && |ThermalBytes(f.thermal)| == PlaneBytes
      && f.yuv.data + ThermalBytes(f.thermal) == raw
  {
    assert |raw| == RawFrameBytes;
    var thermal := raw[PlaneBytes..];
    var f := Decode(raw, frameNum, toRgb).value;
    assert f.thermal.codes == DecodeLE16(thermal);
    EncodeDecodeLE16(thermal);
    assert raw[..PlaneBytes] + thermal == raw;
  }
}
