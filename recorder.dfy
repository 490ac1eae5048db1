// VideoRecorder of P2Pro/recorder.py: one recording session as the trace of actions
// the recording thread takes on the ffmpeg encoders, the audio recorder and the disk.

module Recording {
  import opened Wrappers
  import opened Strings
  import opened FrameCodec
  import opened FrameQueues
  import opened Audio
  import opened DeviceSelect

  datatype Encoder = RgbEncoder | ThermalEncoder

  /** What the recording thread does, in the order it does it. */
  datatype Action =
    | StartEncoder(enc: Encoder, pixFmt: string, size: string, output: string)  // run_async
    | StartAudio(wavFile: string)                 // AudioRecorder(path).start()
    | Write(enc: Encoder, bytes: seq<byte>)       // proc.stdin.write
    | StopAudio                                   // proc_audio.stop()
    | CloseInput(enc: Encoder)                    // proc.stdin.close()
    | AwaitExit(enc: Encoder)                     // proc.wait()
    | Merge(inputs: seq<string>, output: string)  // ffmpeg.output(*in_streams, ..).run()
    | Remove(file: string)                        // os.remove
    | CleanupWarning                              // FileNotFoundError caught, warning logged

  // ---------------------------------------------------------------- file names

  function RgbFile(path: string): string { path + ".rgb.mkv" }
  function ThermFile(path: string): string { path + ".therm.mkv" }
  function MergedFile(path: string): string { path + ".mkv" }

  /** Two names with the same stem differ once their suffixes differ somewhere. */
  lemma SuffixesDiffer(path: string, a: string, b: string, k: nat)
    requires k < |a| && k < |b| && a[k] != b[k]
    ensures path + a != path + b
  {
    assert (path + a)[|path| + k] == a[k];
    assert (path + b)[|path| + k] == b[k];
  }

  /** in_streams: the RGB file, then the thermal file, then the WAV file, as the flags allow. */
  function SessionFiles(path: string, radiometry: bool, audio: bool): (files: seq<string>)
    ensures |files| == 1 + (if radiometry then 1 else 0) + (if audio then 1 else 0)
    ensures files[0] == RgbFile(path)
    ensures radiometry ==> files[1] == ThermFile(path)
    ensures audio ==> files[|files| - 1] == WaveFileName(path)
    ensures ThermFile(path) in files <==> radiometry
    ensures WaveFileName(path) in files <==> audio
    ensures forall i, j :: 0 <= i < j < |files| ==> files[i] != files[j]
    ensures MergedFile(path) !in files
  {
    SuffixesDiffer(path, ".rgb.mkv", ".therm.mkv", 1);
    SuffixesDiffer(path, ".rgb.mkv", ".wav", 1);
    SuffixesDiffer(path, ".therm.mkv", ".wav", 1);
    SuffixesDiffer(path, ".mkv", ".rgb.mkv", 1);
    SuffixesDiffer(path, ".mkv", ".therm.mkv", 1);
    SuffixesDiffer(path, ".mkv", ".wav", 1);
    [RgbFile(path)] + (if radiometry then [ThermFile(path)] else []) + (if audio then [WaveFileName(path)] else [])
  }

  // ---------------------------------------------------------------- size strings

  /** The encoders' `s` option: f'{shape[1]}x{shape[0]}', width before height. */
  function SizeString(cols: nat, rows: nat): string {
    NatToString(cols) + "x" + NatToString(rows)
  }

  /** Reads a WxH string back into (width, height). */
  function ParseSize(s: string): Option<(nat, nat)> {
    var k := IndexOf(s, 'x');
    if k == |s| || k == 0 || k + 1 == |s| || !AllDigits(s[..k]) || !AllDigits(s[k + 1..]) then None
    else Some((ParseNat(s[..k]), ParseNat(s[k + 1..])))
  }

  /** The size string names exactly the width and the height it was made from. */
  lemma ParseSizeString(cols: nat, rows: nat)
    ensures ParseSize(SizeString(cols, rows)) == Some((cols, rows))
  {
    var w := NatToString(cols);
    var h := NatToString(rows);
    var s := SizeString(cols, rows);
    assert s[|w|] == 'x';
    assert forall j :: 0 <= j < |w| ==> s[j] == w[j];
    assert IndexOf(s, 'x') == |w|;
    assert s[..|w|] == w;
    assert s[|w| + 1..] == h;
    ParseNatToString(cols);
    ParseNatToString(rows);
  }

  /** rgb_data.shape is (rows, cols, 3); thermal_data.shape is (rows, cols). */
  function RgbSize(f: Frame): string { SizeString(f.rgb.cols, f.rgb.rows) }
  function ThermSize(f: Frame): string { SizeString(f.thermal.cols, f.thermal.rows) }

  /** For a frame the camera loop decoded, both encoders are told 256x192. */
  lemma DecodedFrameSizes(raw: seq<byte>, frameNum: nat, toRgb: Converter)
    requires Decode(raw, frameNum, toRgb).Success?
    ensures RgbSize(Decode(raw, frameNum, toRgb).value) == "256x192"
    ensures ThermSize(Decode(raw, frameNum, toRgb).value) == "256x192"
  {
    assert NatToString(256) == "256" by {
      assert NatToString(25) == "25" by { assert NatToString(2) == "2"; }
    }
    assert NatToString(192) == "192" by {
      assert NatToString(19) == "19" by { assert NatToString(1) == "1"; }
    }
  }

  // ---------------------------------------------------------------- encoder streams

  /** What one taken frame makes the feed loop write. */
  function FrameWrites(f: Frame, radiometry: bool): seq<Action> {
    [Write(RgbEncoder, f.rgb.data)] + (if radiometry then [Write(ThermalEncoder, ThermalBytes(f.thermal))] else [])
  }

  function FeedActions(taken: seq<Frame>, radiometry: bool): seq<Action>
    decreases |taken|
  {
    if taken == [] then []
    else FeedActions(taken[..|taken| - 1], radiometry) + FrameWrites(taken[|taken| - 1], radiometry)
  }

  /** Everything the trace writes to one encoder's stdin, in order. */
  function Written(trace: seq<Action>, enc: Encoder): seq<byte>
    decreases |trace|
  {
    if trace == [] then []
    else
      var last := trace[|trace| - 1];
      Written(trace[..|trace| - 1], enc) + (if last.Write? && last.enc == enc then last.bytes else [])
  }

  /** The RGB planes of the frames, one after another. */
  function RgbStream(fs: seq<Frame>): seq<byte>
    decreases |fs|
  {
    if fs == [] then [] else RgbStream(fs[..|fs| - 1]) + fs[|fs| - 1].rgb.data
  }

  /** The gray16le bytes of the frames' thermal planes, one after another. */
  function ThermStream(fs: seq<Frame>): seq<byte>
    decreases |fs|
  {
    if fs == [] then [] else ThermStream(fs[..|fs| - 1]) + ThermalBytes(fs[|fs| - 1].thermal)
  }

  lemma {:induction false} WrittenConcat(a: seq<Action>, b: seq<Action>, enc: Encoder)
    ensures Written(a + b, enc) == Written(a, enc) + Written(b, enc)
    decreases |b|
  {
    if b == [] {
      assert a + b == a;
    } else {
      var b0 := b[..|b| - 1];
      assert (a + b)[..|a + b| - 1] == a + b0;
      WrittenConcat(a, b0, enc);
    }
  }

  /**
   * The RGB encoder receives the taken frames' RGB bytes in order; the thermal one
   * their thermal bytes when radiometry is on, and nothing otherwise.
   */
  lemma {:induction false} FeedWritten(taken: seq<Frame>, radiometry: bool)
    ensures Written(FeedActions(taken, radiometry), RgbEncoder) == RgbStream(taken)
    ensures Written(FeedActions(taken, radiometry), ThermalEncoder) == (if radiometry then ThermStream(taken) else [])
    decreases |taken|
  {
    if taken != [] {
      var init := taken[..|taken| - 1];
      var f := taken[|taken| - 1];
      FeedWritten(init, radiometry);
      WrittenConcat(FeedActions(init, radiometry), FrameWrites(f, radiometry), RgbEncoder);
      WrittenConcat(FeedActions(init, radiometry), FrameWrites(f, radiometry), ThermalEncoder);
      FrameWritten(f, radiometry);
    }
  }

  lemma FrameWritten(f: Frame, radiometry: bool)
    ensures Written(FrameWrites(f, radiometry), RgbEncoder) == f.rgb.data
    ensures Written(FrameWrites(f, radiometry), ThermalEncoder) == (if radiometry then ThermalBytes(f.thermal) else [])
  {
    var r := [Write(RgbEncoder, f.rgb.data)];
    assert r[..0] == [];
    assert Written(r, RgbEncoder) == f.rgb.data;
    assert Written(r, ThermalEncoder) == [];
    if radiometry {
      var w := FrameWrites(f, radiometry);
      assert w[..1] == r;
    } else {
      assert FrameWrites(f, radiometry) == r;
    }
  }

  /** For decoded frames the thermal stream is the bottom halves of the camera's buffers. */
  lemma {:induction false} DecodedThermStream(raws: seq<seq<byte>>, frames: seq<Frame>, toRgb: Converter)
    requires |raws| == |frames|
    requires forall i :: 0 <= i < |frames| ==> Decode(raws[i], frames[i].frameNum, toRgb) == Success(frames[i])
    ensures ThermStream(frames) == ConcatBottoms(raws)
    decreases |frames|
  {
    if frames != [] {
      var n := |frames| - 1;
      DecodedThermStream(raws[..n], frames[..n], toRgb);
      DecodeRoundTrip(raws[n], frames[n].frameNum, toRgb);
      var raw := raws[n];
      var f := frames[n];
      assert raw == f.yuv.data + ThermalBytes(f.thermal);
      assert raw[PlaneBytes..] == ThermalBytes(f.thermal);
    }
  }

  /** The bottom (thermal) half of every raw buffer, concatenated. */
  function ConcatBottoms(raws: seq<seq<byte>>): seq<byte>
    decreases |raws|
  {
    if raws == [] then []
    else ConcatBottoms(raws[..|raws| - 1]) + (var r := raws[|raws| - 1]; if |r| < PlaneBytes then [] else r[PlaneBytes..])
  }

  // ---------------------------------------------------------------- session phases

  function StartActions(path: string, radiometry: bool, audio: bool, first: Frame): seq<Action> {
    [StartEncoder(RgbEncoder, "rgb24", RgbSize(first), RgbFile(path))]
    + (if radiometry then [StartEncoder(ThermalEncoder, "gray16le", ThermSize(first), ThermFile(path))] else [])
    + (if audio then [StartAudio(WaveFileName(path))] else [])
  }

  function StopActions(audio: bool): seq<Action> {
    if audio then [StopAudio] else []
  }

  function CloseActions(radiometry: bool): seq<Action> {
    [CloseInput(RgbEncoder), AwaitExit(RgbEncoder)]
    + (if radiometry then [CloseInput(ThermalEncoder), AwaitExit(ThermalEncoder)] else [])
  }

  function MergeAction(path: string, radiometry: bool, audio: bool): Action {
    Merge(SessionFiles(path, radiometry, audio), MergedFile(path))
  }

  /** The try block: remove the files in order; the first missing one ends it with a warning. */
  function CleanupActions(files: seq<string>, present: set<string>): seq<Action>
    decreases |files|
  {
    if files == [] then []
    else if files[0] in present then [Remove(files[0])] + CleanupActions(files[1..], present)
    else [CleanupWarning]
  }

  /** os.remove for each file, in order. */
  function Removes(files: seq<string>): (r: seq<Action>)
    ensures |r| == |files| && forall i :: 0 <= i < |files| ==> r[i] == Remove(files[i])
  {
    seq(|files|, i requires 0 <= i < |files| => Remove(files[i]))
  }

  /** Files before position k all exist: cleanup removes them and carries on from k. */
  lemma {:induction false} CleanupSplit(files: seq<string>, present: set<string>, k: nat)
    requires k <= |files| && forall j :: 0 <= j < k ==> files[j] in present
    ensures CleanupActions(files, present) == Removes(files[..k]) + CleanupActions(files[k..], present)
    decreases k
  {
    if k > 0 {
      CleanupSplit(files[1..], present, k - 1);
      assert files[1..][..k - 1] == files[..k][1..];
      assert files[1..][k - 1..] == files[k..];
      assert Removes(files[..k]) == [Remove(files[0])] + Removes(files[..k][1..]);
    } else {
      assert files[k..] == files;
    }
  }

  /** The first missing file gets a warning and no later file is tried. */
  lemma CleanupStopsAtFirstMissing(files: seq<string>, present: set<string>, k: nat)
    requires k < |files| && files[k] !in present
    requires forall j :: 0 <= j < k ==> files[j] in present
    ensures CleanupActions(files, present) == Removes(files[..k]) + [CleanupWarning]
  {
    CleanupSplit(files, present, k);
  }

  /** When every file exists, all of them are removed, in order, and nothing is logged. */
  lemma CleanupAllPresent(files: seq<string>, present: set<string>)
    requires forall j :: 0 <= j < |files| ==> files[j] in present
    ensures CleanupActions(files, present) == Removes(files)
  {
    CleanupSplit(files, present, |files|);
    assert files[..|files|] == files;
  }

  /** The outcomes of the recording thread. */
  datatype SessionOutcome =
    | WaitingForFrame    // still polling an empty queue; nothing started
    | StillRecording     // encoders running, rec_running still set
    | AudioFailed        // proc_audio.stop() raised; the encoders are never closed
    | MergeFailed        // the merge run raised; nothing is removed
    | Finished(warned: bool)

  /** What the thread does after the feed loop, up to where the outcome leaves it. */
  function ShutdownActions(path: string, radiometry: bool, audio: bool,
                           outcome: SessionOutcome, present: set<string>): seq<Action>
  {
    match outcome
    case WaitingForFrame => []
    case StillRecording => []
    case AudioFailed => [StopAudio]
    case _ => StopActions(audio) + MergePhase(path, radiometry, audio, outcome.Finished?, present)
  }

  /** Closing and awaiting the encoders, the merge, and the cleanup once the merge has succeeded. */
  function MergePhase(path: string, radiometry: bool, audio: bool, merged: bool, present: set<string>): seq<Action> {
    CloseActions(radiometry) + [MergeAction(path, radiometry, audio)]
    + (if merged then CleanupActions(SessionFiles(path, radiometry, audio), present) else [])
  }

  /** The actions of a session: nothing while it waits for its first frame. */
  function SessionTrace(path: string, radiometry: bool, audio: bool, first: Frame,
                        taken: seq<Frame>, outcome: SessionOutcome, present: set<string>): seq<Action>
  {
    if outcome.WaitingForFrame? then []
    else StartActions(path, radiometry, audio, first) + FeedActions(taken, radiometry)
         + ShutdownActions(path, radiometry, audio, outcome, present)
  }

  /** Regrouping a trace built phase by phase. */
  lemma AppendAssoc<T>(a: seq<T>, b: seq<T>, c: seq<T>, d: seq<T>)
    ensures a + b + c + d == a + (b + c + d)
  {
  }

  lemma Append3Assoc<T>(a: seq<T>, b: seq<T>, c: seq<T>)
    ensures a + b + c == a + (b + c)
    ensures a + b != [] ==> (a + b + c)[0] == (a + b)[0]
  {
  }

  /** Position of each kind of action in the shutdown order. */
  function Rank(a: Action): nat {
    match a
    case StartEncoder(enc, _, _, _) => if enc == RgbEncoder then 0 else 1
    case StartAudio(_) => 2
    case Write(_, _) => 3
    case StopAudio => 4
    case CloseInput(enc) => if enc == RgbEncoder then 5 else 7
    case AwaitExit(enc) => if enc == RgbEncoder then 6 else 8
    case Merge(_, _) => 9
    case Remove(_) => 10
    case CleanupWarning => 11
  }

  ghost predicate PhaseSorted(t: seq<Action>) {
    forall i, j :: 0 <= i < j < |t| ==> Rank(t[i]) <= Rank(t[j])
  }

  ghost predicate RanksWithin(t: seq<Action>, lo: nat, hi: nat) {
    forall i :: 0 <= i < |t| ==> lo <= Rank(t[i]) <= hi
  }

  lemma SortedConcat(a: seq<Action>, b: seq<Action>, lo: nat, m1: nat, m2: nat, hi: nat)
    requires lo <= m1 <= m2 <= hi
    requires PhaseSorted(a) && PhaseSorted(b) && RanksWithin(a, lo, m1) && RanksWithin(b, m2, hi)
    ensures PhaseSorted(a + b) && RanksWithin(a + b, lo, hi)
  {
    forall i | 0 <= i < |a + b| ensures lo <= Rank((a + b)[i]) <= hi {
      if i < |a| {
        assert (a + b)[i] == a[i];
      } else {
        assert (a + b)[i] == b[i - |a|];
      }
    }
    forall i, j | 0 <= i < j < |a + b| ensures Rank((a + b)[i]) <= Rank((a + b)[j]) {
      if j < |a| {
      } else if i >= |a| {
        assert (a + b)[i] == b[i - |a|] && (a + b)[j] == b[j - |a|];
      } else {
        assert (a + b)[i] == a[i] && (a + b)[j] == b[j - |a|];
      }
    }
  }

  lemma {:induction false} FeedRanks(taken: seq<Frame>, radiometry: bool)
    ensures PhaseSorted(FeedActions(taken, radiometry)) && RanksWithin(FeedActions(taken, radiometry), 3, 3)
    decreases |taken|
  {
    if taken != [] {
      FeedRanks(taken[..|taken| - 1], radiometry);
      SortedConcat(FeedActions(taken[..|taken| - 1], radiometry), FrameWrites(taken[|taken| - 1], radiometry), 3, 3, 3, 3);
    }
  }

  lemma {:induction false} CleanupRanks(files: seq<string>, present: set<string>)
    ensures PhaseSorted(CleanupActions(files, present)) && RanksWithin(CleanupActions(files, present), 10, 11)
    decreases |files|
  {
    if files != [] && files[0] in present {
      CleanupRanks(files[1..], present);
      SortedConcat([Remove(files[0])], CleanupActions(files[1..], present), 10, 10, 10, 11);
    }
  }

  lemma ShutdownRanks(path: string, radiometry: bool, audio: bool, outcome: SessionOutcome, present: set<string>)
    ensures var t := ShutdownActions(path, radiometry, audio, outcome, present);
      PhaseSorted(t) && RanksWithin(t, 4, 11)
  {
    if outcome.MergeFailed? || outcome.Finished? {
      var sp := StopActions(audio);
      assert PhaseSorted(sp) && RanksWithin(sp, 4, 4);
      MergePhaseRanks(path, radiometry, audio, outcome.Finished?, present);
      SortedConcat(sp, MergePhase(path, radiometry, audio, outcome.Finished?, present), 4, 4, 5, 11);
    }
  }

  lemma MergePhaseRanks(path: string, radiometry: bool, audio: bool, merged: bool, present: set<string>)
    ensures var t := MergePhase(path, radiometry, audio, merged, present);
      PhaseSorted(t) && RanksWithin(t, 5, 11)
  {
    var cl := CloseActions(radiometry);
    var mg := [MergeAction(path, radiometry, audio)];
    var cu := if merged then CleanupActions(SessionFiles(path, radiometry, audio), present) else [];
    assert PhaseSorted(cl) && RanksWithin(cl, 5, 8);
    SortedConcat(cl, mg, 5, 8, 9, 9);
    CleanupRanks(SessionFiles(path, radiometry, audio), present);
    SortedConcat(cl + mg, cu, 5, 9, 10, 11);
  }

  /**
   * A session runs in the fixed order: encoders and audio start, frames are written,
   * audio stops, RGB then thermal encoder are closed and awaited, the merge runs,
   * and the temporary files are removed.
   */
  lemma SessionPhaseSorted(path: string, radiometry: bool, audio: bool, first: Frame,
                           taken: seq<Frame>, outcome: SessionOutcome, present: set<string>)
    ensures PhaseSorted(SessionTrace(path, radiometry, audio, first, taken, outcome, present))
  {
    if !outcome.WaitingForFrame? {
      var st := StartActions(path, radiometry, audio, first);
      var fd := FeedActions(taken, radiometry);
      assert PhaseSorted(st) && RanksWithin(st, 0, 2);
      FeedRanks(taken, radiometry);
      SortedConcat(st, fd, 0, 2, 3, 3);
      ShutdownRanks(path, radiometry, audio, outcome, present);
      SortedConcat(st + fd, ShutdownActions(path, radiometry, audio, outcome, present), 0, 3, 4, 11);
    }
  }

  /** In a phase-sorted trace nothing is written to an encoder once its input is closed. */
  lemma NoWriteAfterClose(t: seq<Action>, i: nat, j: nat)
    requires PhaseSorted(t) && i < j < |t| && t[i].CloseInput?
    ensures !t[j].Write? && !t[j].StartEncoder?
  {
    assert Rank(t[i]) >= 5;
  }

  /** Whatever its outcome, a session writes exactly the frames it took to the encoders. */
  lemma SessionWritten(path: string, radiometry: bool, audio: bool, first: Frame,
                       taken: seq<Frame>, outcome: SessionOutcome, present: set<string>)
    requires !outcome.WaitingForFrame?
    ensures var t := SessionTrace(path, radiometry, audio, first, taken, outcome, present);
      && Written(t, RgbEncoder) == RgbStream(taken)
      && Written(t, ThermalEncoder) == (if radiometry then ThermStream(taken) else [])
  {
    var st := StartActions(path, radiometry, audio, first);
    var fd := FeedActions(taken, radiometry);
    var sd := ShutdownActions(path, radiometry, audio, outcome, present);
    assert SessionTrace(path, radiometry, audio, first, taken, outcome, present) == st + fd + sd;
    ShutdownRanks(path, radiometry, audio, outcome, present);
    assert RanksWithin(st, 0, 2);
    FeedWritten(taken, radiometry);
    NoWrites(st, 0, 2);
    NoWrites(sd, 4, 11);
    WrittenBetween(st, fd, sd, RgbEncoder);
    WrittenBetween(st, fd, sd, ThermalEncoder);
  }

  /** Only the middle part of a trace writes to the encoder: what it writes is all that is written. */
  lemma WrittenBetween(st: seq<Action>, fd: seq<Action>, sd: seq<Action>, enc: Encoder)
    requires Written(st, enc) == [] && Written(sd, enc) == []
    ensures Written(st + fd + sd, enc) == Written(fd, enc)
  {
    WrittenConcat(st, fd, enc);
    WrittenConcat(st + fd, sd, enc);
    assert Written(st + fd, enc) == Written(fd, enc);
  }

  /** Actions ranked away from the writes write nothing. */
  lemma {:induction false} NoWrites(t: seq<Action>, lo: nat, hi: nat)
    requires RanksWithin(t, lo, hi) && (hi < 3 || lo > 3)
    ensures Written(t, RgbEncoder) == [] && Written(t, ThermalEncoder) == []
    decreases |t|
  {
    if t != [] {
      assert Rank(t[|t| - 1]) != 3;
      NoWrites(t[..|t| - 1], lo, hi);
    }
  }

  // ---------------------------------------------------------------- the recording thread

  /** One thing that happens while the recording thread runs. */
  datatype Tick =
    | Produced(f: Frame)   // the camera loop puts a frame in the input queue, dropping the oldest
    | Poll                 // a turn of the thread's own loop: a sleep while waiting, get(True, 0.1) while feeding
    | StopCalled           // stop() from the GUI thread
    | AudioIn(c: Chunk)    // the sound device delivers a chunk

  /** The frames the camera loop produces during ticks lo .. hi-1, in order. */
  function ArrivalsIn(ticks: seq<Tick>, lo: nat, hi: nat): seq<Frame>
    requires lo <= hi <= |ticks|
    decreases hi - lo
  {
    if lo == hi then []
    else ArrivalsIn(ticks, lo, hi - 1) + (if ticks[hi - 1].Produced? then [ticks[hi - 1].f] else [])
  }

  /** The chunks the sound device delivers during ticks lo .. hi-1, in order. */
  function ChunksIn(ticks: seq<Tick>, lo: nat, hi: nat): seq<Chunk>
    requires lo <= hi <= |ticks|
    decreases hi - lo
  {
    if lo == hi then []
    else ChunksIn(ticks, lo, hi - 1) + (if ticks[hi - 1].AudioIn? then [ticks[hi - 1].c] else [])
  }

  /** stop() is called during ticks lo .. hi-1. */
  predicate StoppedIn(ticks: seq<Tick>, lo: nat, hi: nat)
    requires lo <= hi <= |ticks|
    decreases hi - lo
  {
    lo < hi && (StoppedIn(ticks, lo, hi - 1) || ticks[hi - 1].StopCalled?)
  }

  /** The frames of two consecutive stretches of ticks are those of the whole stretch. */
  lemma {:induction false} ArrivalsSplit(ticks: seq<Tick>, lo: nat, mid: nat, hi: nat)
    requires lo <= mid <= hi <= |ticks|
    ensures ArrivalsIn(ticks, lo, hi) == ArrivalsIn(ticks, lo, mid) + ArrivalsIn(ticks, mid, hi)
    decreases hi - mid
  {
    if mid < hi {
      ArrivalsSplit(ticks, lo, mid, hi - 1);
    }
  }

  lemma {:induction false} StoppedSplit(ticks: seq<Tick>, lo: nat, mid: nat, hi: nat)
    requires lo <= mid <= hi <= |ticks|
    ensures StoppedIn(ticks, lo, hi) <==> StoppedIn(ticks, lo, mid) || StoppedIn(ticks, mid, hi)
    decreases hi - mid
  {
    if mid < hi {
      StoppedSplit(ticks, lo, mid, hi - 1);
    }
  }

  /** taken[j] is offered[idx[j]], with strictly increasing positions: in order, none twice. */
  ghost predicate PickedInOrder(taken: seq<Frame>, offered: seq<Frame>, idx: seq<nat>) {
    && |idx| == |taken|
    && (forall j :: 0 <= j < |idx| ==> idx[j] < |offered| && taken[j] == offered[idx[j]])
    && (forall j, k :: 0 <= j < k < |idx| ==> idx[j] < idx[k])
  }

  /** Taking the newest offered frame, later than every frame taken so far, keeps the order. */
  lemma PickedTake(taken: seq<Frame>, offered: seq<Frame>, idx: seq<nat>)
    requires PickedInOrder(taken, offered, idx) && |offered| > 0
    requires idx == [] || idx[|idx| - 1] < |offered| - 1
    ensures PickedInOrder(taken + [offered[|offered| - 1]], offered, idx + [|offered| - 1])
  {
    var t := taken + [offered[|offered| - 1]];
    var x := idx + [|offered| - 1];
    forall j, k | 0 <= j < k < |x| ensures x[j] < x[k] {
      if k == |idx| {
        assert idx[j] <= idx[|idx| - 1];
      }
    }
    forall j | 0 <= j < |x| ensures x[j] < |offered| && t[j] == offered[x[j]] {
    }
  }

  /** More frames on offer leave the frames taken so far where they were. */
  lemma PickedOffer(taken: seq<Frame>, offered: seq<Frame>, idx: seq<nat>, f: Frame)
    requires PickedInOrder(taken, offered, idx)
    ensures PickedInOrder(taken, offered + [f], idx)
  {
    forall j | 0 <= j < |idx| ensures idx[j] < |offered + [f]| && taken[j] == (offered + [f])[idx[j]] {
    }
  }

  /** The input queue as the feed loop leaves it, and the frames it has taken off it, in order. */
  datatype Fed = Fed(queue: seq<Frame>, taken: seq<Frame>)

  /**
   * One tick of the feed loop on the one-slot input queue: the camera loop's put leaves
   * exactly the new frame (a queued frame is dropped first), get(True, 0.1) takes the
   * queued frame if there is one, and nothing else touches the queue.
   */
  function FeedStep(s: Fed, t: Tick): Fed {
    match t
    case Produced(f) => Fed([f], s.taken)
    case Poll => Fed([], s.taken + s.queue)
    case _ => s
  }

  /** The feed loop over ticks lo .. hi-1, starting from the queue contents q. */
  function FedIn(q: seq<Frame>, ticks: seq<Tick>, lo: nat, hi: nat): Fed
    requires lo <= hi <= |ticks|
    decreases hi - lo
  {
    if lo == hi then Fed(q, []) else FeedStep(FedIn(q, ticks, lo, hi - 1), ticks[hi - 1])
  }

  /** The frames offered to the feed: those queued at the start, then those produced. */
  function OfferedIn(q: seq<Frame>, ticks: seq<Tick>, lo: nat, hi: nat): seq<Frame>
    requires lo <= hi <= |ticks|
  {
    q + ArrivalsIn(ticks, lo, hi)
  }

  lemma OfferedSnoc(q: seq<Frame>, ticks: seq<Tick>, lo: nat, hi: nat)
    requires lo < hi <= |ticks|
    ensures OfferedIn(q, ticks, lo, hi) ==
      OfferedIn(q, ticks, lo, hi - 1) + (if ticks[hi - 1].Produced? then [ticks[hi - 1].f] else [])
  {
  }

  /** The queue holds at most one frame, and that is the newest frame offered. */
  lemma {:induction false} FedQueue(q: seq<Frame>, ticks: seq<Tick>, lo: nat, hi: nat)
    requires lo <= hi <= |ticks| && |q| <= 1
    ensures var s := FedIn(q, ticks, lo, hi);
      var offered := OfferedIn(q, ticks, lo, hi);
      |s.queue| <= 1 && (s.queue != [] ==> |offered| > 0 && s.queue == [offered[|offered| - 1]])
    decreases hi - lo
  {
    if lo == hi {
      assert OfferedIn(q, ticks, lo, hi) == q;
    } else {
      FedQueue(q, ticks, lo, hi - 1);
      OfferedSnoc(q, ticks, lo, hi);
    }
  }

  /** One tick keeps the frames taken picked in order from the frames offered. */
  lemma PickedStep(s: Fed, offered: seq<Frame>, idx: seq<nat>, t: Tick) returns (idx': seq<nat>)
    requires PickedInOrder(s.taken, offered, idx)
    requires s.queue != [] ==> |offered| > 0 && s.queue == [offered[|offered| - 1]]
    requires s.queue != [] && idx != [] ==> idx[|idx| - 1] < |offered| - 1
    ensures var s' := FeedStep(s, t);
      var offered' := offered + (if t.Produced? then [t.f] else []);
      && PickedInOrder(s'.taken, offered', idx')
      && (s'.queue != [] && idx' != [] ==> idx'[|idx'| - 1] < |offered'| - 1)
  {
    idx' := idx;
    if t.Produced? {
      PickedOffer(s.taken, offered, idx, t.f);
    } else if t.Poll? && s.queue != [] {
      PickedTake(s.taken, offered, idx);
      idx' := idx + [|offered| - 1];
    }
  }

  /**
   * The frames taken are frames offered (queued at the start or produced since), in the
   * order they were offered and none twice; a frame still queued is later than all of them.
   */
  lemma {:induction false} FedPicked(q: seq<Frame>, ticks: seq<Tick>, lo: nat, hi: nat) returns (idx: seq<nat>)
    requires lo <= hi <= |ticks| && |q| <= 1
    ensures var s := FedIn(q, ticks, lo, hi);
      var offered := OfferedIn(q, ticks, lo, hi);
      && PickedInOrder(s.taken, offered, idx)
      && (s.queue != [] && idx != [] ==> idx[|idx| - 1] < |offered| - 1)
    decreases hi - lo
  {
    if lo == hi {
      idx := [];
      assert OfferedIn(q, ticks, lo, hi) == q;
    } else {
      var prev := FedPicked(q, ticks, lo, hi - 1);
      FedQueue(q, ticks, lo, hi - 1);
      OfferedSnoc(q, ticks, lo, hi);
      idx := PickedStep(FedIn(q, ticks, lo, hi - 1), OfferedIn(q, ticks, lo, hi - 1), prev, ticks[hi - 1]);
    }
  }

  /** A tick that neither puts nor gets. */
  predicate Idle(t: Tick) {
    t.StopCalled? || t.AudioIn?
  }

  /** Ticks that neither put nor get leave the feed where it was. */
  lemma {:induction false} FedIdle(q: seq<Frame>, ticks: seq<Tick>, lo: nat, a: nat, b: nat)
    requires lo <= a <= b <= |ticks|
    requires forall j :: a <= j < b ==> Idle(ticks[j])
    ensures FedIn(q, ticks, lo, b) == FedIn(q, ticks, lo, a)
    decreases b - a
  {
    if a < b {
      FedIdle(q, ticks, lo, a, b - 1);
      assert Idle(ticks[b - 1]);
    }
  }

  /** Without a get, no frame is taken. */
  lemma {:induction false} FedNoPoll(q: seq<Frame>, ticks: seq<Tick>, lo: nat, a: nat, b: nat)
    requires lo <= a <= b <= |ticks|
    requires forall j :: a <= j < b ==> !ticks[j].Poll?
    ensures FedIn(q, ticks, lo, b).taken == FedIn(q, ticks, lo, a).taken
    decreases b - a
  {
    if a < b {
      FedNoPoll(q, ticks, lo, a, b - 1);
    }
  }

  /** Frames once taken stay taken: the taken list only grows. */
  lemma {:induction false} FedGrows(q: seq<Frame>, ticks: seq<Tick>, lo: nat, a: nat, b: nat)
    requires lo <= a <= b <= |ticks|
    ensures var x := FedIn(q, ticks, lo, a).taken; var y := FedIn(q, ticks, lo, b).taken;
      |x| <= |y| && y[..|x|] == x
    decreases b - a
  {
    if a < b {
      FedGrows(q, ticks, lo, a, b - 1);
    }
  }

  /**
   * A produced frame is written unless the camera replaces it first: when the next put
   * or get after it is a get, that get takes exactly this frame.
   */
  lemma FedTakesOffered(q: seq<Frame>, ticks: seq<Tick>, lo: nat, p: nat, r: nat)
    requires lo <= p < r < |ticks| && ticks[p].Produced? && ticks[r].Poll?
    requires forall j :: p < j < r ==> Idle(ticks[j])
    ensures FedIn(q, ticks, lo, r + 1).taken == FedIn(q, ticks, lo, p).taken + [ticks[p].f]
  {
    FedIdle(q, ticks, lo, p + 1, r);
  }

  /**
   * The drop-oldest put: a frame replaced by a later put before any get is never taken,
   * and afterwards the queue holds only the later frame.
   */
  lemma FedDropped(q: seq<Frame>, ticks: seq<Tick>, lo: nat, p: nat, r: nat)
    requires lo <= p < r < |ticks| && ticks[p].Produced? && ticks[r].Produced?
    requires forall j :: p < j < r ==> !ticks[j].Poll?
    ensures FedIn(q, ticks, lo, r + 1) == Fed([ticks[r].f], FedIn(q, ticks, lo, p).taken)
  {
    FedNoPoll(q, ticks, lo, p, r);
  }

  lemma FeedActionsSnoc(taken: seq<Frame>, f: Frame, radiometry: bool)
    ensures FeedActions(taken + [f], radiometry) == FeedActions(taken, radiometry) + FrameWrites(f, radiometry)
  {
    assert (taken + [f])[..|taken|] == taken;
  }

  class VideoRecorder {
    const inputQueue: FrameQueue
    const path: string
    const withRadiometry: bool
    const withAudio: bool
    const platform: Platform
    var recRunning: bool
    var threadShadowed: bool   // start() has rebound self.rec_thread to the Thread object
    var trace: seq<Action>

    ghost predicate Valid()
      reads inputQueue
    {
      inputQueue.maxsize == 1 && inputQueue.Valid()
    }

    constructor (inputQueue: FrameQueue, path: string, radiometry: bool, audio: bool, platform: Platform)
      ensures this.inputQueue == inputQueue && this.path == path
      ensures withRadiometry == radiometry && withAudio == audio && this.platform == platform
      ensures !recRunning && !threadShadowed && trace == []
    {
      this.inputQueue := inputQueue;
      this.path := path;
      withRadiometry := radiometry;
      withAudio := audio;
      this.platform := platform;
      recRunning := false;
      threadShadowed := false;
      trace := [];
    }

    /**
     * start(): set rec_running and start a thread on self.rec_thread. The assignment
     * replaces the method by the Thread object, so only the first start() launches a
     * session; a later thread's target is not callable.
     */
    method Start() returns (launched: bool)
      modifies this`recRunning, this`threadShadowed
      ensures recRunning && threadShadowed
      ensures launched == !old(threadShadowed)
    {
      recRunning := true;
      launched := !threadShadowed;
      threadShadowed := true;
    }

    /** stop(): clear rec_running; the thread notices on its next turn. */
    method Stop()
      modifies this`recRunning
      ensures !recRunning
    {
      recRunning := false;
    }

    /** `while self.input_queue.empty()`: sleep until a frame is queued; rec_running is not looked at. */
    method WaitForFrame(ticks: seq<Tick>, i0: nat) returns (i: nat)
      requires Valid() && i0 <= |ticks|
      modifies inputQueue, this`recRunning
      ensures Valid() && i0 <= i <= |ticks|
      ensures inputQueue.items == old(inputQueue.items) + ArrivalsIn(ticks, i0, i)
      ensures inputQueue.items == [] ==> i == |ticks|
      ensures old(inputQueue.items) != [] ==> i == i0
      ensures i > i0 ==> old(inputQueue.items) + ArrivalsIn(ticks, i0, i - 1) == []
      ensures recRunning == (old(recRunning) && !StoppedIn(ticks, i0, i))
    {
      i := i0;
      while inputQueue.Empty() && i < |ticks|
        invariant Valid() && i0 <= i <= |ticks|
        invariant inputQueue.items == old(inputQueue.items) + ArrivalsIn(ticks, i0, i)
        invariant old(inputQueue.items) != [] ==> i == i0
        invariant i > i0 ==> old(inputQueue.items) + ArrivalsIn(ticks, i0, i - 1) == []
        invariant recRunning == (old(recRunning) && !StoppedIn(ticks, i0, i))
      {
        WaitTurn(ticks[i]);
        i := i + 1;
      }
    }

    /** One tick while waiting: the camera loop may queue a frame, the GUI may call stop(). */
    method WaitTurn(t: Tick)
      requires Valid() && inputQueue.items == []
      modifies inputQueue, this`recRunning
      ensures Valid()
      ensures inputQueue.items == (if t.Produced? then [t.f] else [])
      ensures recRunning == (old(recRunning) && !t.StopCalled?)
    {
      match t {
        case Produced(f) =>
          inputQueue.PutDropOldest(f);
        case StopCalled =>
          Stop();
        case Poll =>
        case AudioIn(_) =>
      }
    }

    /** Peek at the first frame, start the encoders with its sizes, and start the audio recorder. */
    method StartSession(first: Frame) returns (audio: AudioRecorder?)
      modifies this`trace
      ensures trace == old(trace) + StartActions(path, withRadiometry, withAudio, first)
      ensures (audio != null) == withAudio
      ensures audio != null ==>
        && fresh(audio) && audio.recording && audio.threadStarted && audio.frames == []
        && audio.wf == WaveFile(WaveFileName(path), Channels(platform), SampleWidth, Rate, [], false)
    {
      var rgbResolution := (first.rgb.rows, first.rgb.cols, first.rgb.channels);
      var thermResolution := (first.thermal.rows, first.thermal.cols);
      trace := trace + [StartEncoder(RgbEncoder, "rgb24", SizeString(rgbResolution.1, rgbResolution.0), path + ".rgb.mkv")];
      if withRadiometry {
        trace := trace + [StartEncoder(ThermalEncoder, "gray16le", SizeString(thermResolution.1, thermResolution.0), path + ".therm.mkv")];
      }
      audio := null;
      if withAudio {
        audio := new AudioRecorder(path, platform);
        audio.Start();
        trace := trace + [StartAudio(audio.waveOutputFilename)];
      }
    }

    /** get(True, 0.1): a frame, if queued, is taken and written to the encoders. */
    method TakeFrame(ghost base: seq<Action>, ghost taken: seq<Frame>) returns (ghost taken': seq<Frame>)
      requires Valid() && trace == base + FeedActions(taken, withRadiometry)
      modifies inputQueue, this`trace
      ensures Valid() && inputQueue.items == []
      ensures old(inputQueue.items) == [] ==> taken' == taken && trace == old(trace)
      ensures old(inputQueue.items) != [] ==>
        taken' == taken + old(inputQueue.items)
        && trace == old(trace) + FrameWrites(old(inputQueue.items)[0], withRadiometry)
      ensures trace == base + FeedActions(taken', withRadiometry)
    {
      taken' := taken;
      var got := inputQueue.Get();
      if got.Some? {
        var frame := got.value;
        FeedActionsSnoc(taken, frame, withRadiometry);
        trace := trace + [Write(RgbEncoder, frame.rgb.data)];
        if withRadiometry {
          trace := trace + [Write(ThermalEncoder, ThermalBytes(frame.thermal))];
        }
        assert trace == old(trace) + FrameWrites(frame, withRadiometry);
        Append3Assoc(base, FeedActions(taken, withRadiometry), FrameWrites(frame, withRadiometry));
        taken' := taken + [frame];
        assert old(inputQueue.items) == [frame];
      }
    }

    /** One tick of the feed loop: the feed moves as FeedStep says. */
    method FeedTurn(t: Tick, audio: AudioRecorder?, ghost base: seq<Action>, ghost taken: seq<Frame>)
      returns (ghost taken': seq<Frame>)
      requires Valid() && trace == base + FeedActions(taken, withRadiometry)
      modifies inputQueue, this`recRunning, this`trace, audio
      ensures Valid() && trace == base + FeedActions(taken', withRadiometry)
      ensures Fed(inputQueue.items, taken') == FeedStep(Fed(old(inputQueue.items), taken), t)
      ensures recRunning == (old(recRunning) && t != StopCalled)
      ensures audio != null ==>
        && audio.frames == old(audio.frames) + (if t.AudioIn? then [t.c] else [])
        && audio.wf == old(audio.wf) && audio.threadStarted == old(audio.threadStarted)
        && audio.recording == old(audio.recording)
    {
      taken' := taken;
      match t {
        case Produced(f) =>
          inputQueue.PutDropOldest(f);   // the camera loop's put
        case Poll =>
          taken' := TakeFrame(base, taken);
        case StopCalled =>
          Stop();
        case AudioIn(c) =>
          if audio != null {
            audio.Callback(c);
          }
      }
    }

    /** `while self.rec_running`: take a frame if one comes within the timeout and write it out. */
    method Feed(ticks: seq<Tick>, i0: nat, audio: AudioRecorder?)
      returns (i: nat, ghost taken: seq<Frame>, ghost idx: seq<nat>, ghost offered: seq<Frame>)
      requires Valid() && i0 <= |ticks|
      modifies inputQueue, this`recRunning, this`trace, audio
      ensures Valid() && i0 <= i <= |ticks|
      ensures !recRunning || i == |ticks|
      ensures !old(recRunning) ==> i == i0
      ensures i > i0 ==> !StoppedIn(ticks, i0, i - 1)
      ensures recRunning == (old(recRunning) && !StoppedIn(ticks, i0, i))
      ensures Fed(inputQueue.items, taken) == FedIn(old(inputQueue.items), ticks, i0, i)
      ensures offered == old(inputQueue.items) + ArrivalsIn(ticks, i0, i)
      ensures PickedInOrder(taken, offered, idx)
      ensures trace == old(trace) + FeedActions(taken, withRadiometry)
      ensures audio != null ==>
        && audio.frames == old(audio.frames) + ChunksIn(ticks, i0, i)
        && audio.wf == old(audio.wf) && audio.threadStarted == old(audio.threadStarted)
        && audio.recording == old(audio.recording)
    {
      i := i0;
      taken := [];
      while recRunning && i < |ticks|
        invariant Valid() && i0 <= i <= |ticks|
        invariant !old(recRunning) ==> i == i0
        invariant i > i0 ==> !StoppedIn(ticks, i0, i - 1)
        invariant recRunning == (old(recRunning) && !StoppedIn(ticks, i0, i))
        invariant Fed(inputQueue.items, taken) == FedIn(old(inputQueue.items), ticks, i0, i)
        invariant trace == old(trace) + FeedActions(taken, withRadiometry)
        invariant audio != null ==>
          && audio.frames == old(audio.frames) + ChunksIn(ticks, i0, i)
          && audio.wf == old(audio.wf) && audio.threadStarted == old(audio.threadStarted)
          && audio.recording == old(audio.recording)
      {
        var t := ticks[i];
        if audio != null {
          Append3Assoc(old(audio.frames), ChunksIn(ticks, i0, i), if t.AudioIn? then [t.c] else []);
        }
        taken := FeedTurn(t, audio, old(trace), taken);
        i := i + 1;
      }
      idx := FedPicked(old(inputQueue.items), ticks, i0, i);
      offered := old(inputQueue.items) + ArrivalsIn(ticks, i0, i);
    }

    /** `if self.with_audio: self.audio_recorder.stop()`: the first step after the loop. */
    method StopAudioRecorder(audio: AudioRecorder?) returns (ok: bool)
      requires (audio != null) == withAudio
      requires audio != null ==> audio.threadStarted
      modifies this`trace, audio
      ensures trace == old(trace) + StopActions(withAudio)
      ensures ok <==> audio == null || audio.frames != []
      ensures audio != null ==>
        audio.frames == old(audio.frames) && !audio.recording && audio.threadStarted == old(audio.threadStarted)
      ensures audio != null && ok ==>
        audio.wf == old(audio.wf).(data := old(audio.wf).data + PcmBytes(Concat(audio.frames)), closed := true)
      ensures audio != null && !ok ==> audio.wf == old(audio.wf)
    {
      ok := true;
      if audio != null {
        trace := trace + [StopAudio];
        var r := audio.Stop();
        ok := r.Pass?;
      }
    }

    /** Close the RGB encoder's stdin and wait for it, then the same for the thermal encoder. */
    method CloseEncoders()
      modifies this`trace
      ensures trace == old(trace) + CloseActions(withRadiometry)
    {
      trace := trace + [CloseInput(RgbEncoder), AwaitExit(RgbEncoder)];
      if withRadiometry {
        trace := trace + [CloseInput(ThermalEncoder), AwaitExit(ThermalEncoder)];
      }
    }

    /** in_streams, built by append: RGB video, then thermal video, then sound, as enabled. */
    method MergeInputs() returns (inStreams: seq<string>)
      ensures inStreams == SessionFiles(path, withRadiometry, withAudio)
    {
      inStreams := [path + ".rgb.mkv"];
      if withRadiometry {
        inStreams := inStreams + [path + ".therm.mkv"];
      }
      if withAudio {
        inStreams := inStreams + [path + ".wav"];
      }
    }

    /** After the loop: stop audio, close and await the encoders, merge, remove the temporary files. */
    method Shutdown(audio: AudioRecorder?, mergeOk: bool, present: set<string>) returns (outcome: SessionOutcome)
      requires (audio != null) == withAudio
      requires audio != null ==> audio.threadStarted
      modifies this`trace, audio
      ensures outcome.AudioFailed? || outcome.MergeFailed? || outcome.Finished?
      ensures outcome.AudioFailed? <==> audio != null && audio.frames == []
      ensures outcome.MergeFailed? <==> !outcome.AudioFailed? && !mergeOk
      ensures outcome.Finished? ==>
        var files := SessionFiles(path, withRadiometry, withAudio);
        (outcome.warned <==> exists j :: 0 <= j < |files| && files[j] !in present)
      ensures trace == old(trace) + ShutdownActions(path, withRadiometry, withAudio, outcome, present)
      ensures audio != null ==>
        audio.frames == old(audio.frames) && !audio.recording && audio.threadStarted == old(audio.threadStarted)
      ensures audio != null && !outcome.AudioFailed? ==>
        audio.wf == old(audio.wf).(data := old(audio.wf).data + PcmBytes(Concat(audio.frames)), closed := true)
      ensures audio != null && outcome.AudioFailed? ==> audio.wf == old(audio.wf)
    {
      ghost var t0 := trace;
      var ok := StopAudioRecorder(audio);
      if !ok {
        return AudioFailed;
      }
      outcome := CloseAndMerge(mergeOk, present);
      Append3Assoc(t0, StopActions(withAudio), MergePhase(path, withRadiometry, withAudio, outcome.Finished?, present));
    }

    /** The encoders are closed and awaited, the merge runs, and only a merge that succeeds is cleaned up after. */
    method CloseAndMerge(mergeOk: bool, present: set<string>) returns (outcome: SessionOutcome)
      modifies this`trace
      ensures outcome.MergeFailed? || outcome.Finished?
      ensures outcome.MergeFailed? <==> !mergeOk
      ensures outcome.Finished? ==>
        var files := SessionFiles(path, withRadiometry, withAudio);
        (outcome.warned <==> exists j :: 0 <= j < |files| && files[j] !in present)
      ensures trace == old(trace) + MergePhase(path, withRadiometry, withAudio, outcome.Finished?, present)
    {
      CloseEncoders();
      var inStreams := MergeInputs();
      trace := trace + [Merge(inStreams, path + ".mkv")];
      ghost var t1 := trace;
      assert t1 == old(trace) + (CloseActions(withRadiometry) + [MergeAction(path, withRadiometry, withAudio)]);
      if !mergeOk {
        return MergeFailed;
      }
      var warned := Cleanup(inStreams, present);
      return Finished(warned);
    }

    /** The try block around the removals: the first missing file ends it with a warning. */
    method Cleanup(files: seq<string>, present: set<string>) returns (warned: bool)
      modifies this`trace
      ensures trace == old(trace) + CleanupActions(files, present)
      ensures warned <==> exists j :: 0 <= j < |files| && files[j] !in present
    {
      var k := 0;
      while k < |files| && files[k] in present
        invariant k <= |files|
        invariant forall j :: 0 <= j < k ==> files[j] in present
        invariant trace == old(trace) + Removes(files[..k])
      {
        assert files[..k + 1] == files[..k] + [files[k]];
        trace := trace + [Remove(files[k])];
        k := k + 1;
      }
      if k < |files| {
        trace := trace + [CleanupWarning];
        CleanupStopsAtFirstMissing(files, present, k);
        return true;
      }
      assert files[..k] == files;
      CleanupAllPresent(files, present);
      return false;
    }

    /** rec_thread() once a frame is queued, up to the end of the feed loop. */
    method BeginSession(ticks: seq<Tick>, i0: nat)
      returns (audio: AudioRecorder?, ghost first: Frame, ghost taken: seq<Frame>,
               ghost idx: seq<nat>, ghost offered: seq<Frame>, consumed: nat)
      requires Valid() && i0 <= |ticks| && inputQueue.items != []
      modifies this`recRunning, this`trace, inputQueue
      ensures Valid()
      ensures trace == old(trace) + StartActions(path, withRadiometry, withAudio, first) + FeedActions(taken, withRadiometry)
      ensures first == old(inputQueue.items)[0]
      ensures i0 <= consumed <= |ticks|
      ensures !old(recRunning) ==> consumed == i0
      ensures consumed > i0 ==> !StoppedIn(ticks, i0, consumed - 1)
      ensures Fed(inputQueue.items, taken) == FedIn(old(inputQueue.items), ticks, i0, consumed)
      ensures offered == old(inputQueue.items) + ArrivalsIn(ticks, i0, consumed)
      ensures PickedInOrder(taken, offered, idx)
      ensures recRunning == (old(recRunning) && !StoppedIn(ticks, i0, consumed))
      ensures !recRunning || consumed == |ticks|
      ensures withAudio <==> audio != null
      ensures audio != null ==>
        && fresh(audio) && audio.recording && audio.threadStarted && audio.frames == ChunksIn(ticks, i0, consumed)
        && audio.wf == WaveFile(WaveFileName(path), Channels(platform), SampleWidth, Rate, [], false)
    {
      var peeked := inputQueue.Peek();
      var frame := peeked.value;
      first := frame;
      audio := StartSession(frame);
      consumed, taken, idx, offered := Feed(ticks, i0, audio);
    }

    /**
     * rec_thread() once a frame is queued: peek at it, start the encoders and the audio
     * recorder, feed frames until stop(), and shut down.
     */
    method RunSession(ticks: seq<Tick>, i0: nat, mergeOk: bool, present: set<string>)
      returns (outcome: SessionOutcome, audio: AudioRecorder?, ghost first: Frame, ghost taken: seq<Frame>,
               ghost idx: seq<nat>, ghost offered: seq<Frame>, consumed: nat)
      requires Valid() && i0 <= |ticks| && inputQueue.items != []
      modifies this`recRunning, this`trace, inputQueue
      ensures Valid() && !outcome.WaitingForFrame?
      ensures trace == old(trace) + SessionTrace(path, withRadiometry, withAudio, first, taken, outcome, present)
      ensures first == old(inputQueue.items)[0]
      ensures i0 <= consumed <= |ticks|
      ensures !old(recRunning) ==> consumed == i0
      ensures consumed > i0 ==> !StoppedIn(ticks, i0, consumed - 1)
      ensures Fed(inputQueue.items, taken) == FedIn(old(inputQueue.items), ticks, i0, consumed)
      ensures offered == old(inputQueue.items) + ArrivalsIn(ticks, i0, consumed)
      ensures PickedInOrder(taken, offered, idx)
      ensures recRunning == (old(recRunning) && !StoppedIn(ticks, i0, consumed))
      ensures outcome.StillRecording? <==> recRunning
      ensures !recRunning || consumed == |ticks|
      ensures outcome.AudioFailed? <==> !outcome.StillRecording? && withAudio && ChunksIn(ticks, i0, consumed) == []
      ensures outcome.MergeFailed? ==> !mergeOk
      ensures withAudio <==> audio != null
      ensures audio != null ==> (audio.recording <==> outcome.StillRecording?)
      ensures audio != null && (outcome.MergeFailed? || outcome.Finished?) ==>
        && audio.wf.closed && audio.wf.channels == Channels(platform)
        && audio.wf.data == PcmBytes(Concat(ChunksIn(ticks, i0, consumed)))
    {
      ghost var t0 := trace;
      audio, first, taken, idx, offered, consumed := BeginSession(ticks, i0);
      ghost var st := StartActions(path, withRadiometry, withAudio, first);
      ghost var fd := FeedActions(taken, withRadiometry);
      if recRunning {
        outcome := StillRecording;
        AppendAssoc(t0, st, fd, []);
        assert t0 + st + fd + [] == t0 + st + fd;
        return;
      }
      outcome := Shutdown(audio, mergeOk, present);
      AppendAssoc(t0, st, fd, ShutdownActions(path, withRadiometry, withAudio, outcome, present));
    }

    /**
     * rec_thread(), run against a schedule of ticks, with the merge's success and the
     * set of files on disk at cleanup time given in advance.
     */
    method RecThread(ticks: seq<Tick>, mergeOk: bool, present: set<string>)
      returns (outcome: SessionOutcome, audio: AudioRecorder?, ghost first: Frame, ghost taken: seq<Frame>,
               ghost idx: seq<nat>, ghost offered: seq<Frame>, started: nat, consumed: nat)
      requires Valid() && recRunning
      modifies this`recRunning, this`trace, inputQueue
      ensures Valid()
      ensures outcome.WaitingForFrame? <==> old(inputQueue.items) == [] && ArrivalsIn(ticks, 0, |ticks|) == []
      ensures started <= |ticks|
      ensures outcome.WaitingForFrame? ==>
        trace == old(trace) && audio == null && recRunning == !StoppedIn(ticks, 0, started)
      ensures old(inputQueue.items) != [] ==> started == 0
      ensures started > 0 ==> old(inputQueue.items) + ArrivalsIn(ticks, 0, started - 1) == []
      ensures !outcome.WaitingForFrame? ==>
        && trace == old(trace) + SessionTrace(path, withRadiometry, withAudio, first, taken, outcome, present)
        && first == (old(inputQueue.items) + ArrivalsIn(ticks, 0, |ticks|))[0]
        && started <= consumed <= |ticks|
        && (StoppedIn(ticks, 0, started) ==> consumed == started)
        && (consumed > started ==> !StoppedIn(ticks, 0, consumed - 1))
        && Fed(inputQueue.items, taken) == FedIn(old(inputQueue.items) + ArrivalsIn(ticks, 0, started), ticks, started, consumed)
        && offered == old(inputQueue.items) + ArrivalsIn(ticks, 0, consumed)
        && PickedInOrder(taken, offered, idx)
        && (outcome.StillRecording? <==> consumed == |ticks| && recRunning)
        && (!outcome.StillRecording? ==> StoppedIn(ticks, 0, consumed))
        && (outcome.AudioFailed? <==> !outcome.StillRecording? && withAudio && ChunksIn(ticks, started, consumed) == [])
        && (outcome.MergeFailed? ==> !mergeOk)
        && (withAudio <==> audio != null)
        && (audio != null ==> (audio.recording <==> outcome.StillRecording?))
        && (audio != null && (outcome.MergeFailed? || outcome.Finished?) ==>
              && audio.wf.closed && audio.wf.channels == Channels(platform)
              && audio.wf.data == PcmBytes(Concat(ChunksIn(ticks, started, consumed))))
    {
      started := WaitForFrame(ticks, 0);
      ArrivalsSplit(ticks, 0, started, |ticks|);
      if inputQueue.Empty() {
        first := Frame(0, Image(0, 0, 0, []), Image(0, 0, 0, []), ThermalImage(0, 0, []));
        return WaitingForFrame, null, first, [], [], [], started, started;
      }
      ghost var q0 := old(inputQueue.items);
      ghost var waited := ArrivalsIn(ticks, 0, started);
      Append3Assoc(q0, waited, ArrivalsIn(ticks, started, |ticks|));
      outcome, audio, first, taken, idx, offered, consumed := RunSession(ticks, started, mergeOk, present);
      ArrivalsSplit(ticks, 0, started, consumed);
      Append3Assoc(q0, waited, ArrivalsIn(ticks, started, consumed));
      StoppedSplit(ticks, 0, started, consumed);
      if consumed > started {
        StoppedSplit(ticks, 0, started, consumed - 1);
      }
    }
  }
}
