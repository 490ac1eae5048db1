// AudioRecorder of P2Pro/recorder.py: a buffer of 16-bit sound chunks, filled by the
// sound device's callback and written to a WAV file when recording stops.

module Audio {
  import opened Wrappers
  import opened FrameCodec
  import opened DeviceSelect

  type int16 = x: int | -32768 <= x < 32768

  /** One callback's `indata`, its rows (one per frame) laid out one after another. */
  type Chunk = seq<int16>

  const ChunkFrames: nat := 1024   // CHUNK, frames per callback
  const Rate: nat := 44100         // RATE
  const SampleWidth: nat := 2      // bytes per int16 sample

  /** CHANNELS: mono on Darwin, stereo elsewhere. */
  function Channels(platform: Platform): (c: nat)
    ensures c == 1 || c == 2
    ensures c == 1 <==> platform == Darwin
  {
    if platform == Darwin then 1 else 2
  }

  function WaveFileName(path: string): (name: string)
    ensures |name| == |path| + 4 && name[..|path|] == path && name[|path|..] == ".wav"
  {
    path + ".wav"
  }

  /** np.concatenate(frames, axis=0), flattened. */
  function Concat(chunks: seq<Chunk>): seq<int16>
    decreases |chunks|
  {
    if chunks == [] then [] else Concat(chunks[..|chunks| - 1]) + chunks[|chunks| - 1]
  }

  /** Appending a chunk appends its samples after everything buffered before. */
  lemma ConcatAppend(chunks: seq<Chunk>, c: Chunk)
    ensures Concat(chunks + [c]) == Concat(chunks) + c
  {
    assert (chunks + [c])[..|chunks|] == chunks;
  }

  /** The samples of the first k chunks are the start of the samples of all of them. */
  lemma {:induction false} ConcatPrefix(chunks: seq<Chunk>, k: nat)
    requires k <= |chunks|
    ensures |Concat(chunks[..k])| <= |Concat(chunks)|
    ensures Concat(chunks)[..|Concat(chunks[..k])|] == Concat(chunks[..k])
    decreases |chunks|
  {
    if k < |chunks| {
      var init := chunks[..|chunks| - 1];
      assert init[..k] == chunks[..k];
      ConcatPrefix(init, k);
    } else {
      assert chunks[..k] == chunks;
    }
  }

  /** With blocksize CHUNK every chunk holds CHUNK frames of `channels` samples; so does the whole. */
  lemma {:induction false} ConcatLength(chunks: seq<Chunk>, channels: nat)
    requires forall i :: 0 <= i < |chunks| ==> |chunks[i]| == ChunkFrames * channels
    ensures |Concat(chunks)| == |chunks| * (ChunkFrames * channels)
    decreases |chunks|
  {
    if chunks != [] {
      ConcatLength(chunks[..|chunks| - 1], channels);
    }
  }

  /** The 16-bit two's-complement pattern of a sample, as astype(np.int16).tobytes() stores it. */
  function Unsigned(x: int16): (w: uint16)
    ensures (w - x) % 65536 == 0
  {
    if x < 0 then x + 65536 else x
  }

  function Signed(w: uint16): (x: int16)
    ensures (w - x) % 65536 == 0
  {
    if w >= 32768 then w - 65536 else w
  }

  /** The bytes writeframes() receives: every sample little-endian, low byte first. */
  function PcmBytes(samples: seq<int16>): (b: seq<byte>)
    ensures |b| == SampleWidth * |samples|
  {
    EncodeLE16(seq(|samples|, i requires 0 <= i < |samples| => Unsigned(samples[i])))
  }

  /** Reading the bytes back as int16 values. */
  function PcmSamples(b: seq<byte>): (samples: seq<int16>)
    requires |b| % 2 == 0
    ensures |samples| == |b| / 2
  {
    var w := DecodeLE16(b);
    seq(|w|, i requires 0 <= i < |w| => Signed(w[i]))
  }

  /** Reading the written bytes as int16 gives back exactly the samples. */
  lemma PcmRoundTrip(samples: seq<int16>)
    ensures PcmSamples(PcmBytes(samples)) == samples
  {
    var u := seq(|samples|, i requires 0 <= i < |samples| => Unsigned(samples[i]));
    DecodeEncodeLE16(u);
    var r := PcmSamples(PcmBytes(samples));
    forall i | 0 <= i < |samples| ensures r[i] == samples[i] {
      assert r[i] == Signed(u[i]);
    }
  }

  /** The WAV data is CHUNK whole frames of SampleWidth * channels bytes per captured chunk. */
  lemma PcmLength(chunks: seq<Chunk>, channels: nat)
    requires forall i :: 0 <= i < |chunks| ==> |chunks[i]| == ChunkFrames * channels
    ensures |PcmBytes(Concat(chunks))| == (SampleWidth * channels) * (ChunkFrames * |chunks|)
  {
    ConcatLength(chunks, channels);
    var n := |chunks|;
    assert SampleWidth * (n * (ChunkFrames * channels)) == (SampleWidth * channels) * (ChunkFrames * n);
  }

  /** What wave.open(.., 'wb') and its setters leave: header fields, frames written, closed. */
  datatype WaveFile = WaveFile(name: string, channels: nat, sampleWidth: nat, frameRate: nat,
                               data: seq<byte>, closed: bool)

  datatype AudioError =
    | NoChunks     // np.concatenate of an empty list raises ValueError
    | NotStarted   // stop() before start(): self.thread is None

  class AudioRecorder {
    const waveOutputFilename: string
    const channels: nat
    var wf: WaveFile
    var recording: bool
    var threadStarted: bool
    var frames: seq<Chunk>

    /** __init__(path): fixed parameters and the opened, still empty WAV file. */
    constructor (path: string, platform: Platform)
      ensures waveOutputFilename == WaveFileName(path) && channels == Channels(platform)
      ensures wf == WaveFile(WaveFileName(path), Channels(platform), SampleWidth, Rate, [], false)
      ensures !recording && !threadStarted && frames == []
    {
      waveOutputFilename := path + ".wav";
      channels := if platform == Darwin then 1 else 2;
      wf := WaveFile(path + ".wav", if platform == Darwin then 1 else 2, 2, 44100, [], false);
      recording := false;
      threadStarted := false;
      frames := [];
    }

    /** start(): set the flag and launch the recording thread. */
    method Start()
      modifies this`recording, this`threadStarted
      ensures recording && threadStarted
    {
      recording := true;
      threadStarted := true;
    }

    /** The InputStream callback: a copy of the chunk goes to the end of the buffer. */
    method Callback(indata: Chunk)
      modifies this`frames
      ensures frames == old(frames) + [indata]
      ensures Concat(frames) == Concat(old(frames)) + indata
    {
      frames := frames + [indata];
      ConcatAppend(old(frames), indata);
    }

    /** _write_to_wavefile(): all chunks, in arrival order, as 16-bit samples. */
    method WriteToWavefile() returns (r: Outcome<AudioError>)
      modifies this`wf
      ensures r == (if frames == [] then Fail(NoChunks) else Pass)
      ensures r.Fail? ==> wf == old(wf)
      ensures r.Pass? ==> wf == old(wf).(data := old(wf).data + PcmBytes(Concat(frames)))
    {
      if frames == [] {
        return Fail(NoChunks);
      }
      var audioData := Concat(frames);
      wf := wf.(data := wf.data + PcmBytes(audioData));
      return Pass;
    }

    /** stop(): clear the flag, join the thread, write the buffer, close the file. */
    method Stop() returns (r: Outcome<AudioError>)
      modifies this`recording, this`wf
      ensures !recording
      ensures r == (if !threadStarted then Fail(NotStarted) else if frames == [] then Fail(NoChunks) else Pass)
      ensures r.Fail? ==> wf == old(wf)
      ensures r.Pass? ==> wf == old(wf).(data := old(wf).data + PcmBytes(Concat(frames)), closed := true)
    {
      recording := false;
      if !threadStarted {
        return Fail(NotStarted);
      }
      r := WriteToWavefile();
      if r.Pass? {
        wf := wf.(closed := true);
      }
    }
  }
}
