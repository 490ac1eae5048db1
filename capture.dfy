/**
 * FFMpegCapture (video.py:22-119): the macOS capture backend, an ffmpeg child process
 * whose stdout delivers raw frames. The process itself is outside the model: the class keeps
 * the command lists it launched and the number of release() calls, and `poll()`/`read()`
 * results are parameters.
 */
module Capture {
  import opened Wrappers
  import opened Strings
  import opened FrameCodec

  // OpenCV property ids
  const CapPropFrameWidth: int := 3
  const CapPropFrameHeight: int := 4
  const CapPropFps: int := 5
  const CapPropConvertRgb: int := 16

  /** What one read() of a capture backend gives: (False, None), (True, frame), or an exception. */
  datatype Grab = NoFrame | Grabbed(image: Image) | ReadRaised

  function BytesPerPixel(convertRgb: bool): nat {
    if convertRgb then 3 else 2
  }

  /** frame_size: YUY2 has 2 bytes per pixel, BGR has 3. */
  function FrameSize(width: nat, height: nat, convertRgb: bool): nat {
    width * height * BytesPerPixel(convertRgb)
  }

  function PixFmt(convertRgb: bool): string {
    if convertRgb then "bgr24" else "yuyv422"
  }

  /** The ffmpeg_command list built by __init__. */
  function InitialCommand(inputSource: string, width: nat, height: nat, framerate: nat, convertRgb: bool): seq<string> {
    ["ffmpeg",
     "-f", "avfoundation",
     "-framerate", NatToString(framerate),
     "-video_size", NatToString(width) + "x" + NatToString(height),
     "-i", inputSource,
     "-pix_fmt", PixFmt(convertRgb),
     "-f", "rawvideo",
     "-"]
  }

  /** Where list.index('-pix_fmt') lands in a fresh command: the flag, unless the input source spells it. */
  lemma PixFmtFlagPosition(inputSource: string, width: nat, height: nat, framerate: nat, convertRgb: bool)
    ensures IndexOf(InitialCommand(inputSource, width, height, framerate, convertRgb), "-pix_fmt")
            == if inputSource == "-pix_fmt" then 8 else 9
  {
    var cmd := InitialCommand(inputSource, width, height, framerate, convertRgb);
    var flag := "-pix_fmt";
    assert cmd[4][0] != flag[0] && cmd[6][0] != flag[0];
    assert forall j :: 0 <= j < 8 ==> cmd[j] != flag;
    var k := IndexOf(cmd, flag);
    if inputSource == flag {
      assert cmd[8] == flag;
      assert k == 8;
    } else {
      assert cmd[8] != flag && cmd[9] == flag;
      assert k == 9;
    }
  }

  /** Writing the other pixel format into a fresh command's slot gives the command built with it. */
  lemma RewritePixFmt(inputSource: string, width: nat, height: nat, framerate: nat, convertRgb: bool)
    ensures InitialCommand(inputSource, width, height, framerate, !convertRgb)[10 := PixFmt(convertRgb)]
            == InitialCommand(inputSource, width, height, framerate, convertRgb)
  {
    var before := InitialCommand(inputSource, width, height, framerate, !convertRgb);
    var after := InitialCommand(inputSource, width, height, framerate, convertRgb);
    assert forall j :: 0 <= j < 14 && j != 10 ==> before[j] == after[j];
  }

  class FFMpegCapture {
    const inputSource: string
    const width: nat
    const height: nat
    const framerate: nat
    var convertRgb: bool
    var ffmpegCommand: seq<string>
    var frameSize: nat
    var launched: seq<seq<string>>  // command lists handed to subprocess.Popen, in order
    var releases: nat               // release() calls: stdout closed and the process waited for

    /** The command has its shape and its '-pix_fmt' flag, and the newest process runs it. */
    ghost predicate CommandOk()
      reads this
    {
      && |ffmpegCommand| == 14
      && IndexOf(ffmpegCommand, "-pix_fmt") < 13
      && |launched| > 0 && launched[|launched| - 1] == ffmpegCommand
      && (inputSource != "-pix_fmt" ==>
            ffmpegCommand == InitialCommand(inputSource, width, height, framerate, convertRgb))
    }

    ghost predicate Valid()
      reads this
    {
      CommandOk() && frameSize == FrameSize(width, height, convertRgb)
    }

    /** ffmpeg_command.index('-pix_fmt') + 1 */
    function PixFmtSlot(): nat
      reads this
    {
      IndexOf(ffmpegCommand, "-pix_fmt") + 1
    }

    constructor (inputSource: string, width: nat, height: nat, framerate: nat, convertRgb: bool)
      ensures Valid()
      ensures this.inputSource == inputSource && this.width == width && this.height == height
      ensures this.framerate == framerate && this.convertRgb == convertRgb
      ensures ffmpegCommand == InitialCommand(inputSource, width, height, framerate, convertRgb)
      ensures frameSize == width * height * (if convertRgb then 3 else 2)
      ensures launched == [ffmpegCommand] && releases == 0
      ensures Get(CapPropFrameWidth) == Some(width) && Get(CapPropFrameHeight) == Some(height)
      ensures Get(CapPropFps) == Some(framerate)
    {
      this.inputSource := inputSource;
      this.width := width;
      this.height := height;
      this.framerate := framerate;
      this.convertRgb := convertRgb;
      ffmpegCommand := InitialCommand(inputSource, width, height, framerate, convertRgb);
      launched := [ffmpegCommand];
      releases := 0;
      frameSize := FrameSize(width, height, convertRgb);
      PixFmtFlagPosition(inputSource, width, height, framerate, convertRgb);
    }

    /**
     * isOpened(): a process has been launched (`self.process is not None`) and poll() gives
     * no exit code. Every capture has launched one, so only poll() decides.
     */
    predicate IsOpened(poll: Option<int>): (b: bool)
      reads this
      requires Valid()
      ensures b <==> poll.None?
    {
      |launched| > 0 && poll.None?
    }

    /**
     * read(), given the poll() result and the bytes stdout.read(frame_size) returned:
     * nothing when the process ended or the read was empty, otherwise the reshape to
     * (height, width, bytes per pixel), which raises unless exactly frame_size bytes came.
     */
    function Read(poll: Option<int>, data: seq<byte>): (g: Grab)
      reads this
      requires Valid()
      ensures g == NoFrame <==> poll.Some? || |data| == 0
      ensures g.Grabbed? <==> poll.None? && |data| > 0 && |data| == height * width * BytesPerPixel(convertRgb)
      ensures g.Grabbed? ==> g.image == Image(height, width, BytesPerPixel(convertRgb), data)
    {
      if !IsOpened(poll) then NoFrame
      else if |data| == 0 then NoFrame
      else if |data| != height * width * BytesPerPixel(convertRgb) then ReadRaised
      else Grabbed(Image(height, width, BytesPerPixel(convertRgb), data))
    }

    /** get(prop_id): width, height and frame rate; None for any other id. */
    function Get(propId: int): (r: Option<int>)
      ensures r.Some? <==> propId == CapPropFrameWidth || propId == CapPropFrameHeight || propId == CapPropFps
      ensures propId == CapPropFrameWidth ==> r == Some(width)
      ensures propId == CapPropFrameHeight ==> r == Some(height)
      ensures propId == CapPropFps ==> r == Some(framerate)
    {
      if propId == CapPropFrameWidth then Some(width)
      else if propId == CapPropFrameHeight then Some(height)
      else if propId == CapPropFps then Some(framerate)
      else None
    }

    /** release(): close stdout and wait for the process. */
    method Release()
      modifies this`releases
      ensures releases == old(releases) + 1
    {
      releases := releases + 1;
    }

    /**
     * set(prop_id, value): only CAP_PROP_CONVERT_RGB is understood; 1 and 0 switch the
     * conversion on and off, restarting ffmpeg only when the setting actually changes.
     */
    method Set(propId: int, value: int) returns (ok: bool)
      requires Valid()
      modifies this
      ensures Valid()
      ensures ok <==> propId == CapPropConvertRgb
      ensures convertRgb == (if ok && value == 1 then true else if ok && value == 0 then false else old(convertRgb))
      ensures convertRgb == old(convertRgb) ==>
        ffmpegCommand == old(ffmpegCommand) && frameSize == old(frameSize) &&
        launched == old(launched) && releases == old(releases)
      ensures convertRgb != old(convertRgb) ==>
        && ffmpegCommand == old(ffmpegCommand)[old(PixFmtSlot()) := PixFmt(convertRgb)]
        && launched == old(launched) + [ffmpegCommand]
        && releases == old(releases) + 1
    {
      if propId == CapPropConvertRgb {
        if value == 1 {
          if convertRgb == false {
            convertRgb := true;
            RestartFfmpeg();
          }
        } else if value == 0 {
          if convertRgb == true {
            convertRgb := false;
            RestartFfmpeg();
          }
        }
        return true;
      }
      return false;
    }

    /** _restart_ffmpeg(): release, rewrite the element after '-pix_fmt' in place, relaunch. */
    method RestartFfmpeg()
      requires |ffmpegCommand| == 14 && IndexOf(ffmpegCommand, "-pix_fmt") < 13
      requires |launched| > 0 && launched[|launched| - 1] == ffmpegCommand
      requires inputSource != "-pix_fmt" ==>
        ffmpegCommand == InitialCommand(inputSource, width, height, framerate, !convertRgb)
      modifies this
      ensures Valid()
      ensures convertRgb == old(convertRgb)
      ensures |ffmpegCommand| == |old(ffmpegCommand)|
      ensures ffmpegCommand == old(ffmpegCommand)[old(PixFmtSlot()) := PixFmt(convertRgb)]
      ensures forall j :: 0 <= j < |ffmpegCommand| && j != old(PixFmtSlot()) ==> ffmpegCommand[j] == old(ffmpegCommand)[j]
      ensures launched == old(launched) + [ffmpegCommand]
      ensures releases == old(releases) + 1
      ensures frameSize == FrameSize(width, height, convertRgb)
    {
      Release();
      var slot := IndexOf(ffmpegCommand, "-pix_fmt") + 1;
      IndexOfUpdateAfter(ffmpegCommand, "-pix_fmt", slot, PixFmt(convertRgb));
      if inputSource != "-pix_fmt" {
        PixFmtFlagPosition(inputSource, width, height, framerate, !convertRgb);
        RewritePixFmt(inputSource, width, height, framerate, convertRgb);
      }
      ffmpegCommand := ffmpegCommand[slot := PixFmt(convertRgb)];
      launched := launched + [ffmpegCommand];
      frameSize := FrameSize(width, height, convertRgb);
    }
  }
}
