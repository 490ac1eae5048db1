// The Video class of P2Pro/video.py: opening the camera and the frame loop that
// splits every grabbed buffer and hands the frame to the GUI and the recorder.

module VideoSource {
  import opened Wrappers
  import opened Strings
  import opened Sensor
  import opened FrameCodec
  import opened FrameQueues
  import opened Capture
  import opened DeviceSelect

  /** Queue 0 feeds the GUI, queue 1 the recorder; each holds one frame. */
  const QueueCount: nat := 2

  /** What one turn of the frame loop sees: the capture's answer, or stop() from another thread. */
  datatype LoopEvent = Read(grab: Grab) | StopCalled

  /** The exceptions that end open(). */
  datatype OpenError =
    | ScanFailed(scan: ScanError)     // the udev scan raised
    | CameraNotFound                  // the scan found nothing: ConnectionError
    | CannotOpen                      // isOpened() is false: ConnectionError
    | ContractMismatch                // resolution or frame rate differ: IndexError
    | ReadFailed                      // the capture's read raised
    | DecodeFailed(decode: DecodeError) // a buffer that does not split into the two planes

  /** Errors open() raises before the frame loop starts. */
  predicate BeforeLoop(e: OpenError) {
    !e.ReadFailed? && !e.DecodeFailed?
  }

  /** stop() before any open(): self.cap is None. */
  datatype StopError = NoCapture

  /** The state the frame loop works on, without the queues (those follow `published`). */
  datatype Progress = Progress(counter: nat, running: bool, recording: bool,
                               published: seq<Frame>, fault: Option<OpenError>)

  predicate Halted(p: Progress) {
    !p.recording || p.fault.Some?
  }

  /** Releases of the capture over the loop: stop() releases it once and ends the loop; nothing else does. */
  function LoopReleases(p: Progress): nat {
    if p.recording then 0 else 1
  }

  /** The loop as it enters `while self.recording` with frame_counter = 0. */
  function Initial(running: bool): Progress {
    Progress(0, running, true, [], None)
  }

  /** One turn of the loop; once halted nothing changes any more. */
  function Step(p: Progress, e: LoopEvent, toRgb: Converter): Progress {
    if Halted(p) then p
    else match e
      case StopCalled => p.(recording := false)
      case Read(NoFrame) => p
      case Read(ReadRaised) => p.(fault := Some(ReadFailed))
      case Read(Grabbed(img)) =>
        match Decode(img.data, p.counter, toRgb)
        case Failure(err) => p.(running := true, fault := Some(DecodeFailed(err)))
        case Success(f) => p.(running := true, counter := p.counter + 1, published := p.published + [f])
  }

  function Run(p: Progress, events: seq<LoopEvent>, toRgb: Converter): Progress
    decreases |events|
  {
    if events == [] then p
    else Step(Run(p, events[..|events| - 1], toRgb), events[|events| - 1], toRgb)
  }

  /** Run over one more event is one more Step. */
  lemma RunSnoc(p: Progress, events: seq<LoopEvent>, i: nat, toRgb: Converter)
    requires i < |events|
    ensures Run(p, events[..i + 1], toRgb) == Step(Run(p, events[..i], toRgb), events[i], toRgb)
  {
    assert events[..i + 1][..i] == events[..i];
  }

  /** Frame numbers start at 0, count up by one, and the counter is the number handed out. */
  ghost predicate Numbered(p: Progress) {
    && p.counter == |p.published|
    && forall k :: 0 <= k < |p.published| ==> p.published[k].frameNum == k
  }

  /** Once the loop halts, later events change nothing. */
  lemma {:induction false} RunAfterHalt(p: Progress, events: seq<LoopEvent>, j: nat, toRgb: Converter)
    requires j <= |events| && Halted(Run(p, events[..j], toRgb))
    ensures Run(p, events, toRgb) == Run(p, events[..j], toRgb)
    decreases |events|
  {
    if j < |events| {
      var init := events[..|events| - 1];
      assert init[..j] == events[..j];
      RunAfterHalt(p, init, j, toRgb);
    } else {
      assert events[..j] == events;
    }
  }

  /** Every frame published is numbered by its position: frame_counter counts the frames. */
  lemma {:induction false} RunNumbered(p: Progress, events: seq<LoopEvent>, toRgb: Converter)
    requires Numbered(p)
    ensures Numbered(Run(p, events, toRgb))
    decreases |events|
  {
    if events != [] {
      RunNumbered(p, events[..|events| - 1], toRgb);
    }
  }

  /** Frames are only added, never taken back; and a published frame means video_running. */
  lemma {:induction false} RunExtends(p: Progress, events: seq<LoopEvent>, toRgb: Converter)
    ensures var q := Run(p, events, toRgb);
      && |p.published| <= |q.published|
      && q.published[..|p.published|] == p.published
      && (p.running ==> q.running)
      && (|q.published| > |p.published| ==> q.running)
    decreases |events|
  {
    if events != [] {
      RunExtends(p, events[..|events| - 1], toRgb);
    }
  }

  /** The loop itself only ever fails by a read that raised or a buffer that does not decode. */
  lemma {:induction false} RunFaults(p: Progress, events: seq<LoopEvent>, toRgb: Converter)
    requires p.fault.Some? ==> !BeforeLoop(p.fault.value)
    ensures var q := Run(p, events, toRgb); q.fault.Some? ==> !BeforeLoop(q.fault.value)
    decreases |events|
  {
    if events != [] {
      RunFaults(p, events[..|events| - 1], toRgb);
    }
  }

  /** Without a grabbed buffer the loop neither publishes nor counts nor sets video_running. */
  lemma {:induction false} RunWithoutGrab(p: Progress, events: seq<LoopEvent>, toRgb: Converter)
    requires forall i :: 0 <= i < |events| ==> !(events[i].Read? && events[i].grab.Grabbed?)
    ensures var q := Run(p, events, toRgb);
      q.published == p.published && q.counter == p.counter && q.running == p.running
    decreases |events|
  {
    if events != [] {
      RunWithoutGrab(p, events[..|events| - 1], toRgb);
    }
  }

  /** stop() ends the loop: whatever comes after it is never read. */
  lemma StopEndsLoop(p: Progress, events: seq<LoopEvent>, j: nat, toRgb: Converter)
    requires j < |events| && events[j] == StopCalled
    ensures !Run(p, events, toRgb).recording || Run(p, events, toRgb).fault.Some?
    ensures Run(p, events, toRgb) == Run(p, events[..j + 1], toRgb)
  {
    var e := events[..j + 1];
    assert e[..j] == events[..j];
    assert Halted(Run(p, e, toRgb));
    RunAfterHalt(p, events, j + 1, toRgb);
  }

  /** The camera id as FFMpegCapture writes it after '-i': f"{input_source}". */
  function CameraIdText(id: CameraId): string {
    match id
    case Port(n) => IntToString(n)
    case Named(s) => s
  }

  /** Everything outside the program that open() consults, fixed in advance. */
  datatype OpenEnv = OpenEnv(
    platform: Platform,
    udev: seq<UdevDevice>,          // pyudev's video4linux devices
    listing: string,                // ffmpeg's device listing on stderr
    probes: seq<Probe>,             // cv2.VideoCapture(port) for port 0, 1, ...
    ffmpegPoll: Option<int>,        // poll() of the ffmpeg process, on Darwin
    openCvOpened: bool,             // isOpened() of cv2.VideoCapture, elsewhere
    openCvReported: (real, real, real)) // width, height, fps it reports

  datatype Backend = NoBackend | OpenCv | Ffmpeg

  /**
   * The checks open() makes on the capture before the loop: isOpened(), then the reported
   * resolution and frame rate. The FFMpegCapture reports the 256x384 at 25 it was built with.
   */
  function Preflight(env: OpenEnv): (e: Option<OpenError>)
    ensures e.None? || e == Some(CannotOpen) || e == Some(ContractMismatch)
    ensures e == Some(CannotOpen) <==> if env.platform == Darwin then env.ffmpegPoll.Some? else !env.openCvOpened
    ensures e == Some(ContractMismatch) <==>
      && env.platform != Darwin && env.openCvOpened
      && !ReportedMatches(env.openCvReported.0, env.openCvReported.1, env.openCvReported.2)
  {
    var isOpen := if env.platform == Darwin then env.ffmpegPoll.None? else env.openCvOpened;
    var reported := if env.platform == Darwin then (Width as real, Height as real, Fps) else env.openCvReported;
    assert ReportedMatches(Width as real, Height as real, Fps) by { ReportedMatchesExactly(Width as real, Height as real, Fps); }
    if !isOpen then Some(CannotOpen)
    else if !ReportedMatches(reported.0, reported.1, reported.2) then Some(ContractMismatch)
    else None
  }

  /** The camera open() goes on with: the one given, or what the scan finds for -1. */
  function Target(cameraId: CameraId, env: OpenEnv): Result<CameraId, OpenError> {
    if cameraId != Port(-1) then Success(cameraId)
    else match CapIdSearch(env.platform, env.udev, env.listing, env.probes)
      case Failure(e) => Failure(ScanFailed(e))
      case Success(None) => Failure(CameraNotFound)
      case Success(Some(c)) => Success(c)
  }

  /** The exception open() raises before its loop, if any. */
  function OpenPreflight(cameraId: CameraId, env: OpenEnv): (e: Option<OpenError>)
    ensures e.Some? ==> BeforeLoop(e.value)
    ensures e == Some(ContractMismatch) ==>
      env.platform != Darwin && env.openCvOpened && !ReportedMatches(env.openCvReported.0, env.openCvReported.1, env.openCvReported.2)
    ensures cameraId != Port(-1) ==> e == Preflight(env)
    ensures Target(cameraId, env).Success? ==> e == Preflight(env)
    ensures e.Some? && e.value.ScanFailed? ==> env.platform == Linux
    ensures e == Some(CannotOpen) ==> if env.platform == Darwin then env.ffmpegPoll.Some? else !env.openCvOpened
    ensures e == Some(CameraNotFound) || (e.Some? && e.value.ScanFailed?) ==> cameraId == Port(-1)
    ensures cameraId == Port(-1) && env.platform == Linux && FindUdev(env.udev).Failure? ==>
      e == Some(ScanFailed(FindUdev(env.udev).error))
    ensures cameraId == Port(-1) && env.platform == Linux && FindUdev(env.udev) == Success(None) ==>
      e == Some(CameraNotFound)
    ensures cameraId == Port(-1) && env.platform == Darwin ==>
      (e == Some(CameraNotFound) <==> DarwinCameraIndex(env.listing).None?)
    ensures cameraId == Port(-1) && env.platform == Windows ==>
      var ws := WorkingIds(env.probes);
      (e == Some(CameraNotFound) <==> FirstContractAt(ws) == |ws|)
  {
    match Target(cameraId, env)
    case Failure(e) => Some(e)
    case Success(_) => Preflight(env)
  }

  /**
   * cap is FFMpegCapture(source, 256, 384, convert_rgb=False): yuyv422 at 25 frames a
   * second, still running the one command it was started with.
   */
  ghost predicate OpenedOn(cap: FFMpegCapture, source: string)
    reads cap
  {
    && cap.Valid()
    && cap.inputSource == source && cap.width == Width && cap.height == Height
    && cap.framerate == 25 && !cap.convertRgb
    && cap.ffmpegCommand == InitialCommand(source, 256, 384, 25, false)
    && cap.launched == [cap.ffmpegCommand]
  }

  class Video {
    const frameQueue: seq<FrameQueue>
    const toRgb: Converter              // cv2.cvtColor(..., COLOR_YUV2RGB_YUY2)
    var videoRunning: bool
    var recording: bool
    var backend: Backend                // which kind of object self.cap is
    var ffcap: FFMpegCapture?           // self.cap when it is an FFMpegCapture
    var openCvReleases: nat             // release() calls on a cv2.VideoCapture

    ghost predicate QueuesOk()
      reads frameQueue
    {
      && |frameQueue| == QueueCount
      && (forall i, j :: 0 <= i < j < |frameQueue| ==> frameQueue[i] != frameQueue[j])
      && (forall k :: 0 <= k < |frameQueue| ==> frameQueue[k].maxsize == 1 && frameQueue[k].Valid())
    }

    ghost predicate Valid()
      reads this, frameQueue
    {
      QueuesOk() && ((backend == Ffmpeg) == (ffcap != null))
    }

    constructor (toRgb: Converter)
      ensures Valid() && fresh(frameQueue)
      ensures forall k :: 0 <= k < |frameQueue| ==> frameQueue[k].items == []
      ensures !videoRunning && !recording && backend == NoBackend
    {
      var gui := new FrameQueue(1);
      var rec := new FrameQueue(1);
      frameQueue := [gui, rec];
      this.toRgb := toRgb;
      videoRunning := false;
      recording := false;
      backend := NoBackend;
      ffcap := null;
      openCvReleases := 0;
    }

    /** The FFMpegCapture's release count, 0 when self.cap is not one. */
    ghost function FfReleases(): nat
      reads this, ffcap
    {
      if ffcap == null then 0 else ffcap.releases
    }

    /** The capture in use has been released n times since the counts were ocv0 and ff0. */
    ghost predicate ReleasedSince(ocv0: nat, ff0: nat, n: nat)
      reads this, ffcap
    {
      && openCvReleases == ocv0 + (if backend == OpenCv then n else 0)
      && FfReleases() == ff0 + (if ffcap != null then n else 0)
    }

    /** Offer the frame to every queue, dropping the oldest frame of a full one. */
    method Publish(f: Frame)
      requires Valid()
      modifies frameQueue
      ensures Valid()
      ensures forall k :: 0 <= k < |frameQueue| ==> frameQueue[k].items == [f]
    {
      var k := 0;
      while k < |frameQueue|
        invariant 0 <= k <= |frameQueue|
        invariant Valid()
        invariant forall j :: 0 <= j < k ==> frameQueue[j].items == [f]
      {
        var q := frameQueue[k];
        assert forall j :: 0 <= j < |frameQueue| && j != k ==> frameQueue[j] != q;
        q.PutDropOldest(f);
        k := k + 1;
      }
    }

    /** stop(): clear the flag, then release the capture (AttributeError when there is none). */
    method Stop() returns (r: Outcome<StopError>)
      requires (backend == Ffmpeg) == (ffcap != null)
      modifies this`recording, this`openCvReleases, (if ffcap == null then {} else {ffcap})`releases
      ensures !recording
      ensures r == (if backend == NoBackend then Fail(NoCapture) else Pass)
      ensures backend == Ffmpeg ==> ffcap.releases == old(ffcap.releases) + 1
      ensures openCvReleases == old(openCvReleases) + (if backend == OpenCv then 1 else 0)
    {
      recording := false;
      if backend == NoBackend {
        return Fail(NoCapture);
      } else if backend == Ffmpeg {
        ffcap.Release();
      } else {
        openCvReleases := openCvReleases + 1;
      }
      return Pass;
    }

    /** One turn of the loop: read, split, publish, count; or stop() from the other thread. */
    method Turn(e: LoopEvent, frameCounter: nat, ghost published: seq<Frame>)
      returns (fault: Option<OpenError>, nextCounter: nat, ghost nextPublished: seq<Frame>)
      requires Valid() && recording
      modifies this, frameQueue, (if ffcap == null then {} else {ffcap})`releases
      ensures Valid() && backend == old(backend) && ffcap == old(ffcap)
      ensures recording == !e.StopCalled? && published <= nextPublished
      ensures ReleasedSince(old(openCvReleases), old(FfReleases()), if e.StopCalled? then 1 else 0)
      ensures Step(Progress(frameCounter, old(videoRunning), true, published, None), e, toRgb)
              == Progress(nextCounter, videoRunning, recording, nextPublished, fault)
      ensures forall k :: 0 <= k < |frameQueue| ==>
        frameQueue[k].items == (if nextPublished == published then old(frameQueue[k].items)
                                else [nextPublished[|nextPublished| - 1]])
    {
      fault, nextCounter, nextPublished := None, frameCounter, published;
      match e {
        case StopCalled =>
          var _ := Stop();
        case Read(NoFrame) =>
        case Read(ReadRaised) =>
          fault := Some(ReadFailed);
        case Read(Grabbed(img)) =>
          videoRunning := true;
          match Decode(img.data, frameCounter, toRgb) {
            case Failure(err) =>
              fault := Some(DecodeFailed(err));
            case Success(f) =>
              Publish(f);
              nextPublished := published + [f];
              nextCounter := frameCounter + 1;
          }
      }
    }

    /** The `while self.recording` loop of open(), fed one event per turn. */
    method StreamFrames(events: seq<LoopEvent>) returns (r: Outcome<OpenError>)
      requires Valid() && recording
      modifies this, frameQueue, (if ffcap == null then {} else {ffcap})`releases
      ensures Valid() && backend == old(backend) && ffcap == old(ffcap)
      ensures var q := Run(Initial(old(videoRunning)), events, toRgb);
        && videoRunning == q.running && recording == q.recording
        && r == (if q.fault.Some? then Fail(q.fault.value) else Pass)
        && ReleasedSince(old(openCvReleases), old(FfReleases()), LoopReleases(q))
        && forall k :: 0 <= k < |frameQueue| ==>
             frameQueue[k].items == (if q.published == [] then old(frameQueue[k].items)
                                     else [q.published[|q.published| - 1]])
    {
      var frameCounter: nat := 0;
      ghost var published: seq<Frame> := [];
      ghost var start := Initial(videoRunning);
      var fault: Option<OpenError> := None;
      var i := 0;
      while fault.None? && recording && i < |events|
        invariant 0 <= i <= |events|
        invariant Valid() && backend == old(backend) && ffcap == old(ffcap)
        invariant Run(start, events[..i], toRgb) == Progress(frameCounter, videoRunning, recording, published, fault)
        invariant ReleasedSince(old(openCvReleases), old(FfReleases()), if recording then 0 else 1)
        invariant forall k :: 0 <= k < |frameQueue| ==>
          frameQueue[k].items == (if published == [] then old(frameQueue[k].items) else [published[|published| - 1]])
      {
        RunSnoc(start, events, i, toRgb);
        fault, frameCounter, published := Turn(events[i], frameCounter, published);
        i := i + 1;
      }
      if i < |events| {
        RunAfterHalt(start, events, i, toRgb);
      } else {
        assert events[..i] == events;
      }
      assert Run(Initial(old(videoRunning)), events, toRgb) == Progress(frameCounter, videoRunning, recording, published, fault);
      r := if fault.Some? then Fail(fault.value) else Pass;
    }

    /**
     * The `self.cap = ...` step of open(): an FFMpegCapture for the id on Darwin
     * (yuyv422, 256x384 at 25 frames a second), cv2.VideoCapture elsewhere; then
     * isOpened() and the width, height and frame rate the capture reports.
     */
    method Attach(id: CameraId, env: OpenEnv) returns (isOpen: bool, reported: (real, real, real))
      modifies this`ffcap, this`backend
      ensures (backend == Ffmpeg) == (ffcap != null)
      ensures backend == (if env.platform == Darwin then Ffmpeg else OpenCv)
      ensures isOpen == (if env.platform == Darwin then env.ffmpegPoll.None? else env.openCvOpened)
      ensures reported == (if env.platform == Darwin then (256.0, 384.0, 25.0) else env.openCvReported)
      ensures env.platform == Darwin ==> fresh(ffcap) && OpenedOn(ffcap, CameraIdText(id)) && ffcap.releases == 0
    {
      if env.platform == Darwin {
        var cap := new FFMpegCapture(CameraIdText(id), 256, 384, 25, false);
        ffcap := cap;
        backend := Ffmpeg;
        isOpen := cap.IsOpened(env.ffmpegPoll);
        reported := (cap.Get(CapPropFrameWidth).value as real,
                     cap.Get(CapPropFrameHeight).value as real,
                     cap.Get(CapPropFps).value as real);
      } else {
        ffcap := null;
        backend := OpenCv;
        isOpen := env.openCvOpened;
        reported := env.openCvReported;
      }
    }

    /** open() from `self.cap = ...` on, for the camera id found or given. */
    method Connect(id: CameraId, env: OpenEnv, events: seq<LoopEvent>) returns (r: Outcome<OpenError>)
      requires Valid() && recording
      modifies this, frameQueue
      ensures Valid()
      ensures backend == (if env.platform == Darwin then Ffmpeg else OpenCv)
      ensures env.platform == Darwin ==> ffcap != null && OpenedOn(ffcap, CameraIdText(id))
      ensures Preflight(env).Some? ==>
        && r == Fail(Preflight(env).value) && recording && videoRunning == old(videoRunning)
        && ReleasedSince(old(openCvReleases), 0, 0)
        && forall k :: 0 <= k < |frameQueue| ==> frameQueue[k].items == old(frameQueue[k].items)
      ensures Preflight(env).None? ==>
        var q := Run(Initial(old(videoRunning)), events, toRgb);
        && videoRunning == q.running && recording == q.recording
        && r == (if q.fault.Some? then Fail(q.fault.value) else Pass)
        && ReleasedSince(old(openCvReleases), 0, LoopReleases(q))
        && forall k :: 0 <= k < |frameQueue| ==>
             frameQueue[k].items == (if q.published == [] then old(frameQueue[k].items)
                                     else [q.published[|q.published| - 1]])
    {
      var isOpen, reported := Attach(id, env);
      if !isOpen {
        return Fail(CannotOpen);
      }
      if !ReportedMatches(reported.0, reported.1, reported.2) {
        return Fail(ContractMismatch);
      }
      r := Stream(events, CameraIdText(id));
    }

    /** `self.cap.set(cv2.CAP_PROP_CONVERT_RGB, 0)`, then the frame loop. */
    method Stream(events: seq<LoopEvent>, ghost source: string) returns (r: Outcome<OpenError>)
      requires Valid() && recording
      requires ffcap != null ==> OpenedOn(ffcap, source)
      modifies this, frameQueue, (if ffcap == null then {} else {ffcap})
      ensures Valid() && backend == old(backend) && ffcap == old(ffcap)
      ensures ffcap != null ==> OpenedOn(ffcap, source)
      ensures var q := Run(Initial(old(videoRunning)), events, toRgb);
        && videoRunning == q.running && recording == q.recording
        && r == (if q.fault.Some? then Fail(q.fault.value) else Pass)
        && ReleasedSince(old(openCvReleases), old(FfReleases()), LoopReleases(q))
        && forall k :: 0 <= k < |frameQueue| ==>
             frameQueue[k].items == (if q.published == [] then old(frameQueue[k].items)
                                     else [q.published[|q.published| - 1]])
    {
      if backend == Ffmpeg {
        var _ := ffcap.Set(CapPropConvertRgb, 0);  // already off: nothing restarts
      }
      r := StreamFrames(events);
    }

    /**
     * open(camera_id): with Port(-1) scan for the camera, open it (ffmpeg on Darwin,
     * OpenCV elsewhere), check the reported resolution and frame rate, switch off RGB
     * conversion, then run the frame loop.
     */
    method Open(cameraId: CameraId, env: OpenEnv, events: seq<LoopEvent>) returns (r: Outcome<OpenError>)
      requires Valid()
      modifies this, frameQueue
      ensures Valid()
      ensures Target(cameraId, env).Failure? ==>
        && r == Fail(Target(cameraId, env).error) && recording && videoRunning == old(videoRunning)
        && backend == old(backend) && ffcap == old(ffcap) && ReleasedSince(old(openCvReleases), old(FfReleases()), 0)
        && forall k :: 0 <= k < |frameQueue| ==> frameQueue[k].items == old(frameQueue[k].items)
      ensures Target(cameraId, env).Success? ==>
        && backend == (if env.platform == Darwin then Ffmpeg else OpenCv)
        && (env.platform == Darwin ==> ffcap != null && OpenedOn(ffcap, CameraIdText(Target(cameraId, env).value)))
      ensures Target(cameraId, env).Success? && Preflight(env).Some? ==>
        && r == Fail(Preflight(env).value) && recording && videoRunning == old(videoRunning)
        && ReleasedSince(old(openCvReleases), 0, 0)
        && forall k :: 0 <= k < |frameQueue| ==> frameQueue[k].items == old(frameQueue[k].items)
      ensures Target(cameraId, env).Success? && Preflight(env).None? ==>
        var q := Run(Initial(old(videoRunning)), events, toRgb);
        && videoRunning == q.running && recording == q.recording
        && r == (if q.fault.Some? then Fail(q.fault.value) else Pass)
        && ReleasedSince(old(openCvReleases), 0, LoopReleases(q))
        && forall k :: 0 <= k < |frameQueue| ==>
             frameQueue[k].items == (if q.published == [] then old(frameQueue[k].items)
                                     else [q.published[|q.published| - 1]])
    {
      recording := true;
      var target := FindCamera(cameraId, env);
      match target {
        case Failure(e) => return Fail(e);
        case Success(id) => r := Connect(id, env, events);
      }
    }

    /** The start of open(): -1 asks get_P2Pro_cap_id() for the camera, and None raises. */
    method FindCamera(cameraId: CameraId, env: OpenEnv) returns (target: Result<CameraId, OpenError>)
      ensures target == Target(cameraId, env)
    {
      if cameraId != Port(-1) {
        return Success(cameraId);
      }
      var found := GetP2ProCapId(env.platform, env.udev, env.listing, env.probes);
      match found {
        case Failure(e) => return Failure(ScanFailed(e));
        case Success(None) => return Failure(CameraNotFound);
        case Success(Some(c)) => return Success(c);
      }
    }
  }
}
