# P2 Pro viewer: frame decoding, fan-out, device selection and recording

This project is a Dafny model of the core of the P2 Pro viewer: `P2Pro/video.py` and
`P2Pro/recorder.py`. The viewer reads raw buffers from an InfiRay P2 Pro thermal camera. It
splits each buffer into a YUYV picture plane and a plane of 16-bit thermal codes, and hands
each frame to size-1 queues for the GUI and the recorder. The recorder pipes frames into one
ffmpeg encoder for RGB and, optionally, one for thermal data, with an optional sound
recording beside them. When recording stops, the pieces are merged into one `.mkv` file and
the temporary files are removed.

The model is split into these modules:

- `Sensor`: the sensor contract (256x384 at 25 frames per second, USB ids 0x0bda:0x5830) and
  the check `open()` makes against it.
- `FrameCodec`: the split of a raw buffer into the picture plane and the thermal plane, with
  the little-endian 16-bit codec.
- `FrameQueues`: `queue.Queue(1)` as a class, with the producer's drop-oldest put.
- `Capture`: `FFMpegCapture`, the macOS capture backend. The class keeps its command list,
  its `frame_size`, its `convert_rgb` flag and the commands it launched.
- `DeviceSelect`: how `get_P2Pro_cap_id` finds the camera on each platform:
  - Linux: the udev search;
  - macOS: the parser for ffmpeg's `[index] name` device listing;
  - elsewhere: `list_cap_ids`, probing ports against an oracle, then the search for the
    first port with the sensor's resolution and frame rate.
- `VideoSource`: the `Video` class. `open()` is modelled as a loop over an oracle sequence of
  read results and `stop()` calls. Its state is the frame counter, `video_running`,
  `recording` and the two queues.
- `Audio`: `AudioRecorder`, with its fixed WAV parameters, the chunk buffer and the write of
  the concatenated samples.
- `Recording`: `VideoRecorder`. The recording thread is a method that appends abstract
  actions to a trace: encoder start, stdin writes, audio stop, close/wait, merge, remove.
  It runs against a schedule of ticks: frames arriving, polls, `stop()`, audio chunks.
  Lemmas prove the trace's phase order and the exact bytes each encoder receives.
- `Strings` and `Wrappers`: helpers for `str()`, `in`, `list.index`, and `Option`/`Result`.

External effects are parameters of the model:

- The udev device list, the ffmpeg device listing, what `cv2.VideoCapture` reports for each
  port, and the ffmpeg `poll()` result at open time (`OpenEnv`).
- The capture's read results and `stop()` calls, as a sequence of `LoopEvent`s.
- For the recorder: the tick schedule, whether the merge succeeds, and the set of files on
  disk at cleanup time.
- The colour conversion `cv2.cvtColor(.., COLOR_YUV2RGB_YUY2)`, as an opaque function
  (`Converter`) of the YUYV bytes.

Where the program's documentation and its code disagree, the model follows the code:

- A buffer that does not split into the two planes raises inside the frame loop, so it ends
  `open()` (`DecodeFailed`). It is not skipped.
- The encoders' exit status after `wait()` is not looked at. A failing encoder is not
  reported.
- The recorder's wait for a first frame does not look at `rec_running`.
- A read that gives no frame does not end the camera loop: `if (not success): continue` polls
  again (`Read(NoFrame)` in the loop function). Only `stop()` or an exception ends it.
- An audio recording that captured no chunk makes `np.concatenate` raise. The recording
  thread then ends before the encoders are closed (`AudioFailed`).

## Model

| member | source | states |
|---|---|---|
| Sensor.PyInt | P2Pro/video.py:223 | `int()` of a reported value truncates toward zero: the result is within one of the value, on the side of zero |
| Sensor.ReportedMatchesExactly | P2Pro/video.py:223-225 | the contract check passes exactly when 256 <= width < 257, 384 <= height < 385 (the sizes go through `int()`) and the frame rate is exactly 25 |
| FrameCodec.Word | P2Pro/video.py:254 | a little-endian byte pair gives the 16-bit value whose low byte is the first byte and whose high byte is the second |
| FrameCodec.DecodeLE16 | P2Pro/video.py:254 | `np.frombuffer(.., uint16)`: half as many values as bytes; value i is byte 2i + 256 * byte 2i+1 |
| FrameCodec.EncodeLE16 | P2Pro/recorder.py:136 | `.astype(np.uint16).tobytes()`: two bytes per value, the low byte first |
| FrameCodec.DecodeEncodeLE16 | P2Pro/recorder.py:136 | decoding the encoded thermal codes gives back the codes |
| FrameCodec.EncodeDecodeLE16 | P2Pro/video.py:249-254 | encoding the decoded thermal half gives back its bytes |
| FrameCodec.Decode | P2Pro/video.py:246-262 | the split succeeds exactly for 196608-byte buffers. The picture plane is the first 98304 bytes, shaped (192, 256, 2). The RGB plane is the conversion of it, labelled (192, 256, 3). Thermal code i is the little-endian word at bytes 98304+2i and 98304+2i+1. The frame number is the counter. Any other length fails with numpy's error, and a buffer one byte too long fails on the odd thermal byte count |
| FrameCodec.DecodeRgbShape | P2Pro/video.py:252-253 | with a conversion that keeps cvtColor's shape promise ((192, 256, 2) YUYV in, (192, 256, 3) RGB out), the RGB image of a decoded frame holds 192 * 256 * 3 bytes |
| FrameCodec.DecodeRoundTrip | P2Pro/video.py:247-254 | each half of a decoded frame holds 98304 bytes, and picture bytes followed by the thermal codes' bytes is the raw buffer |
| FrameQueues.DropOldestPut | P2Pro/video.py:265-269 | the new frame is last. A full queue loses exactly its oldest item, so its length is unchanged; a queue with room, or without a bound, gains one item and loses none. The older items kept are the newest of the previous contents, so a queue within capacity stays within it |
| FrameQueues.PutAllCapacityOne | P2Pro/video.py:124 | with capacity one, after any number of puts a queue holds exactly the newest frame, whatever it held before |
| FrameQueues.FrameQueue.constructor | P2Pro/video.py:124 | a new queue has the given capacity and is empty |
| FrameQueues.FrameQueue.Peek | P2Pro/recorder.py:99 | `queue[0]` gives the oldest item, only on a nonempty queue, and removes nothing |
| FrameQueues.FrameQueue.Get | P2Pro/recorder.py:129-132 | `get` removes and returns the oldest item; an empty queue gives nothing and stays empty |
| FrameQueues.FrameQueue.Put | P2Pro/video.py:269 | `put` on a queue with room appends the item |
| FrameQueues.FrameQueue.PutDropOldest | P2Pro/video.py:267-269 | the queue's new contents are those of `DropOldestPut`; with capacity one the queue holds exactly the new frame |
| Capture.PixFmtFlagPosition | P2Pro/video.py:30-39 | in a fresh command, `index('-pix_fmt')` is 9, or 8 when the input source is itself the string `-pix_fmt` |
| Capture.RewritePixFmt | P2Pro/video.py:115 | replacing the pixel format in a fresh command gives the command built with the other setting |
| Capture.FFMpegCapture.constructor | P2Pro/video.py:23-44 | the command list is the 14-element list built from the arguments; `frame_size` is width * height * 3 with RGB conversion and width * height * 2 without; exactly that command is launched |
| Capture.FFMpegCapture.IsOpened | P2Pro/video.py:46-50 | a capture that has launched its process is open exactly when `poll()` gives no exit code |
| Capture.FFMpegCapture.Get | P2Pro/video.py:76-87 | `get` answers exactly the width, height and frame-rate ids, with the values the capture was built with, and gives none for every other id |
| Capture.FFMpegCapture.Read | P2Pro/video.py:52-69 | no frame when the process has exited or the read is empty. A frame exactly when the read returned height * width * (3 with RGB, 2 without) bytes, shaped (height, width, bytes per pixel). Any other length raises |
| Capture.FFMpegCapture.Release | P2Pro/video.py:71-74 | one more release of the process |
| Capture.FFMpegCapture.Set | P2Pro/video.py:89-105 | returns true exactly for CAP_PROP_CONVERT_RGB. Value 1 switches conversion on and 0 switches it off. Only an actual change restarts ffmpeg, rewriting the slot after `-pix_fmt` and launching the new command. Anything else changes nothing |
| Capture.FFMpegCapture.RestartFfmpeg | P2Pro/video.py:107-119 | one release, then only the element after `-pix_fmt` is replaced by the format for the current setting. The length and every other element are unchanged, the new list is launched, and `frame_size` is recomputed by the same rule |
| Strings.IndexOf | P2Pro/video.py:115 | `index(x)` is the first position holding x, and no earlier position holds it; a value that does not occur gives the length |
| Strings.IndexOfUpdateAfter | P2Pro/video.py:115 | overwriting an element after the first `-pix_fmt` leaves `index('-pix_fmt')` where it was |
| Strings.NatToString | P2Pro/video.py:33-34 | `str()` of a natural number is a nonempty run of digits with no leading zero |
| Strings.ParseNatToString | P2Pro/recorder.py:105 | reading back the digits `str()` wrote gives the number |
| Strings.IntToString | P2Pro/video.py:35 | `str()` of an integer: a minus sign exactly for negative values, then digits that read back as the absolute value |
| Strings.ContainsAt | P2Pro/video.py:189 | a string that occurs at some position is `in` the other string |
| Strings.ContainsIff | P2Pro/video.py:189 | `needle in hay` holds exactly when the needle occurs at some position of hay: both directions |
| DeviceSelect.DigitRun | P2Pro/video.py:182 | `\d+` takes the longest run of digits at the start |
| DeviceSelect.LineTail | P2Pro/video.py:182 | `.*` takes everything up to, not including, the first newline |
| DeviceSelect.MatchHere | P2Pro/video.py:182 | a match of `\[(\d+)\] (.*)` yields a nonempty digit index and a name without newlines, and spans at least one character |
| DeviceSelect.FindAll | P2Pro/video.py:185 | every device `findall` returns has a nonempty digit index and a one-line name |
| DeviceSelect.FindAllQuiet | P2Pro/video.py:185 | text in which no `[` is followed by a digit yields no match: `findall` goes on with what follows it |
| DeviceSelect.MatchLine | P2Pro/video.py:182 | one listing line `[index] name` matches as a whole, giving that index and name |
| DeviceSelect.FindAllRender | P2Pro/video.py:182-185 | parsing stderr made of well-formed `[index] name` lines and text in which no `[` is followed by a digit gives back exactly the devices of the lines, in order |
| DeviceSelect.FirstUsbCameraAt | P2Pro/video.py:188-191 | the position found is the first device whose name contains "USB Camera"; no earlier one does |
| DeviceSelect.DarwinCameraIndex | P2Pro/video.py:172-194 | the macOS search gives none only when no parsed device name contains "USB Camera", gives an index only when one does, and that index is the first such device's |
| DeviceSelect.DarwinPicksFirstUsbCamera | P2Pro/video.py:172-194 | for ffmpeg's stderr, with device lines among other text, the macOS search gives none exactly when no listed name contains "USB Camera", and otherwise the index of the first device whose name does |
| DeviceSelect.UdevStop | P2Pro/video.py:165-167 | every device before the position found is passed over (ids differ, or no capture capability); the device there is not |
| DeviceSelect.FindUdev | P2Pro/video.py:163-169 | the Linux search gives DEVNAME of the first device that is not passed over. It raises when that device lacks an id, or has matching ids and no capabilities. It gives none when every device is passed over |
| DeviceSelect.FailedLowerBound | P2Pro/video.py:138-143 | every port beyond the probed devices fails, so probing always reaches six failures |
| DeviceSelect.ProbedPorts | P2Pro/video.py:138 | the number of ports probed is the first count at which six have failed |
| DeviceSelect.ProbeStopsAtSixthFailure | P2Pro/video.py:138-143 | probing ends right after a port that did not open, which was the sixth failure |
| DeviceSelect.ClassifiedPartition | P2Pro/video.py:141-156 | each probed port is in the working list exactly when it opened and read, in the available list exactly when it opened and did not read, and in the failed list exactly when it did not open |
| DeviceSelect.ClassifiedBelow | P2Pro/video.py:133-158 | the three lists hold every probed port once in all; each is in increasing port order; every entry is below the number of ports probed |
| DeviceSelect.ListCapIds | P2Pro/video.py:129-159 | the loop returns the classification of ports 0, 1, 2, ... up to the sixth failure, and the failed list has exactly six entries |
| DeviceSelect.FirstContractAt | P2Pro/video.py:199-201 | the position found is the first working port with resolution (256, 384) and frame rate 25; no earlier one has them |
| DeviceSelect.CapIdSearch | P2Pro/video.py:163-202 | `get_P2Pro_cap_id` only raises on Linux. On Linux it gives DEVNAME of the first udev device not passed over, raises when that device is faulty, and gives none otherwise. On macOS it gives none only when no listed name contains "USB Camera", and else the first such index. Elsewhere it gives none only when no working port matches (256, 384, 25), and else the first matching port |
| DeviceSelect.GetP2ProCapId | P2Pro/video.py:163-202 | the method gives the platform's search result: the udev node on Linux, the first "USB Camera" index on macOS, the first matching working port elsewhere, or none |
| VideoSource.RunSnoc | P2Pro/video.py:234-271 | the loop over one more event is one more turn |
| VideoSource.RunAfterHalt | P2Pro/video.py:234 | once `recording` is false or the loop has raised, later events change nothing |
| VideoSource.RunNumbered | P2Pro/video.py:232-271 | frames are numbered 0, 1, 2, ... in publishing order, and the counter equals the number published |
| VideoSource.RunExtends | P2Pro/video.py:240-271 | published frames are never taken back; `video_running` never goes back to false; a published frame means `video_running` is set |
| VideoSource.RunFaults | P2Pro/video.py:234-262 | inside the loop only a raising read or an undecodable buffer ends `open()` with an error |
| VideoSource.RunWithoutGrab | P2Pro/video.py:237-238 | without a successful read nothing is published and neither the counter nor `video_running` changes |
| VideoSource.StopEndsLoop | P2Pro/video.py:234 | after `stop()` the loop reads nothing more |
| VideoSource.Preflight | P2Pro/video.py:212-227 | the capture fails to open exactly when the ffmpeg process has exited (macOS) or OpenCV's capture did not open (elsewhere). The contract error is raised exactly when an opened OpenCV capture reports other values. The macOS FFMpegCapture always reports the contract |
| VideoSource.OpenPreflight | P2Pro/video.py:204-227 | the errors `open()` raises before its loop. Scan errors occur only on Linux, and scan errors and "not found" only for camera id -1. The udev search raising is a scan error; the udev search, the macOS listing or the probe finding nothing is "not found". A given id, or a camera the scan found, goes straight to the open and contract checks |
| VideoSource.Video.constructor | P2Pro/video.py:122-127 | two distinct empty queues of capacity one; not running, not recording, no capture |
| VideoSource.Video.Publish | P2Pro/video.py:264-269 | after the fan-out every queue holds exactly the new frame |
| VideoSource.Video.Stop | P2Pro/video.py:273-275 | `recording` becomes false and the capture is released once: the FFMpegCapture's release count, or the OpenCV capture's. Nothing else of the capture changes. With no capture, stop fails |
| VideoSource.Video.Turn | P2Pro/video.py:234-271 | one loop turn moves the state as one step of the loop function, and leaves the queues unchanged or holding exactly the newly published frame. Only a `stop()` turn clears `recording` and releases the capture, once; no other turn releases it |
| VideoSource.Video.StreamFrames | P2Pro/video.py:232-271 | the loop leaves `video_running`, `recording` and the result as the loop function over the events gives them. Every queue holds the last frame published, or what it held before when none was. The capture is released once when `stop()` ended the loop, and never otherwise |
| VideoSource.Video.Attach | P2Pro/video.py:212-216 | macOS gets a fresh FFMpegCapture for the id (256x384, YUYV) reporting 256, 384, 25; elsewhere the OpenCV capture reports what the device reports |
| VideoSource.Video.Connect | P2Pro/video.py:212-271 | `self.cap` is an FFMpegCapture on macOS, running the yuyv422 256x384 command for the id at 25 frames a second with RGB conversion off, and an OpenCV capture elsewhere. A failed open or contract check raises with no frame published, no queue touched and no release. Otherwise the result is that of the frame loop, and the new capture is released once exactly when `stop()` ended it |
| VideoSource.Video.Stream | P2Pro/video.py:226-271 | switching RGB conversion off on the capture just opened restarts nothing and leaves it running its command; then flags, result and queues are those of the frame loop, and the capture is released once exactly when `stop()` ended it |
| VideoSource.Video.Open | P2Pro/video.py:204-271 | `open()` raises the scan's error, or else the error of the open and contract checks, leaving queues and `video_running` as they were and releasing nothing. When no camera is found the capture is left as it was; once one is, `self.cap` is the macOS FFMpegCapture for it, or an OpenCV capture elsewhere. Without an error, the result, flags and queues are those of the frame loop, and the capture is released once exactly when `stop()` ended it |
| VideoSource.Video.FindCamera | P2Pro/video.py:204-210 | id -1 goes to `get_P2Pro_cap_id()`: its error is a scan error and its none is "not found"; any other id is used as given |
| Audio.Channels | P2Pro/recorder.py:26-30 | one channel on macOS, two elsewhere |
| Audio.WaveFileName | P2Pro/recorder.py:21 | the WAV file name is the path followed by `.wav` |
| Audio.ConcatAppend | P2Pro/recorder.py:64 | a chunk appended to the buffer comes after all earlier samples in the concatenation |
| Audio.ConcatPrefix | P2Pro/recorder.py:74 | the samples of the first chunks are the start of the samples of all of them: later chunks never disturb earlier ones |
| Audio.ConcatLength | P2Pro/recorder.py:67-74 | with 1024 frames of `channels` samples per chunk, the concatenation holds chunks * 1024 * channels samples |
| Audio.Unsigned | P2Pro/recorder.py:75 | the 16-bit pattern stored for a sample equals the sample modulo 65536 |
| Audio.Signed | P2Pro/recorder.py:75 | reading a 16-bit pattern back gives the value congruent to it modulo 65536 |
| Audio.PcmBytes | P2Pro/recorder.py:75 | two bytes per sample |
| Audio.PcmRoundTrip | P2Pro/recorder.py:75 | reading the written bytes as int16 gives back exactly the samples |
| Audio.PcmLength | P2Pro/recorder.py:72-75 | the WAV data is 2 * channels bytes for each of the 1024 frames of every chunk |
| Audio.AudioRecorder.constructor | P2Pro/recorder.py:20-40 | the file `path.wav` is opened with the platform's channels, sample width 2 and rate 44100; not recording; no thread; no chunks |
| Audio.AudioRecorder.Start | P2Pro/recorder.py:42-47 | the flag is set and the thread started |
| Audio.AudioRecorder.Callback | P2Pro/recorder.py:60-64 | the chunk is appended at the end; earlier chunks are unchanged |
| Audio.AudioRecorder.WriteToWavefile | P2Pro/recorder.py:72-75 | with no chunk the write fails and the file is untouched; otherwise the concatenated samples are appended as 16-bit little-endian bytes |
| Audio.AudioRecorder.Stop | P2Pro/recorder.py:49-56 | the flag is cleared. Without a started thread, stop fails. With no chunk it fails before closing the file. Otherwise the samples are written and the file is closed |
| Recording.SuffixesDiffer | P2Pro/recorder.py:149-157 | names with the same path and different suffixes are different files |
| Recording.SessionFiles | P2Pro/recorder.py:148-153 | merge inputs are `path.rgb.mkv`, then `path.therm.mkv` exactly when radiometry is on, then `path.wav` exactly when audio is on. They are distinct, and none is the output `path.mkv` |
| Recording.ParseSizeString | P2Pro/recorder.py:105-116 | the size string `WxH` reads back as exactly the width (shape[1]) and height (shape[0]) it was made from |
| Recording.DecodedFrameSizes | P2Pro/recorder.py:100-116 | for a frame the camera loop decoded, both encoders are told `256x192` |
| Recording.WrittenConcat | P2Pro/recorder.py:134-136 | what two stretches of actions write to an encoder is what the first writes, then what the second writes |
| Recording.FeedWritten | P2Pro/recorder.py:128-136 | the feed loop gives the RGB encoder the taken frames' RGB bytes in order, and the thermal encoder their thermal bytes when radiometry is on, and nothing otherwise |
| Recording.FrameWritten | P2Pro/recorder.py:134-136 | one taken frame writes its RGB bytes to the RGB encoder, and its thermal bytes to the thermal encoder only with radiometry |
| Recording.DecodedThermStream | P2Pro/recorder.py:136 | for frames decoded from camera buffers, the thermal encoder's input is the concatenation of the buffers' bottom halves |
| Recording.CleanupSplit | P2Pro/recorder.py:166-173 | files that exist are removed one after another before cleanup goes on |
| Recording.CleanupStopsAtFirstMissing | P2Pro/recorder.py:166-173 | the first missing file ends the cleanup with a warning; earlier files are removed in order and no later file is tried |
| Recording.CleanupAllPresent | P2Pro/recorder.py:166-171 | when every file exists, all are removed in order and no warning is logged |
| Recording.SessionPhaseSorted | P2Pro/recorder.py:103-171 | a session runs in a fixed order: RGB encoder, thermal encoder and audio start; frames are written; audio stops; RGB then thermal stdin are closed and awaited; the merge runs; files are removed |
| Recording.NoWriteAfterClose | P2Pro/recorder.py:134-146 | in a session trace nothing is written to, or started on, an encoder after an encoder's input has been closed |
| Recording.SessionWritten | P2Pro/recorder.py:128-146 | whatever the outcome, the session writes exactly the frames it took: their RGB bytes to the RGB encoder, their thermal bytes to the thermal encoder with radiometry, nothing to it without |
| Recording.ArrivalsSplit | P2Pro/video.py:264-269 | the frames produced over two consecutive stretches of the schedule are those of the whole |
| Recording.StoppedSplit | P2Pro/recorder.py:183-184 | `stop()` falls in a stretch of the schedule exactly when it falls in one of its two parts |
| Recording.PickedTake | P2Pro/recorder.py:130 | taking the newest frame on offer keeps the taken frames in offer order, none taken twice |
| Recording.PickedOffer | P2Pro/video.py:267-269 | frames offered later leave the frames taken so far where they were |
| Recording.FedQueue | P2Pro/video.py:265-269 | the recorder's one-slot queue holds at most one frame, and a queued frame is the newest one offered |
| Recording.PickedStep | P2Pro/recorder.py:128-132 | one tick of the feed keeps the frames taken a selection, in order, of the frames offered, with a still-queued frame later than all of them |
| Recording.FedPicked | P2Pro/recorder.py:128-132 | over any stretch of ticks the frames taken are frames offered (queued at the start or produced since), in offer order and none twice; a frame still queued is later than every taken one |
| Recording.FedIdle | P2Pro/recorder.py:128-136 | ticks with no put and no get leave the queue and the frames taken unchanged |
| Recording.FedNoPoll | P2Pro/recorder.py:129-132 | without a get no frame is taken |
| Recording.FedGrows | P2Pro/recorder.py:129-136 | frames once taken stay taken: the taken frames at any tick are the start of those at every later tick |
| Recording.FedTakesOffered | P2Pro/recorder.py:129-136 | a produced frame followed, before any further put, by a get is exactly the next frame taken and written |
| Recording.FedDropped | P2Pro/video.py:265-269 | a frame replaced by a later put before any get is never taken; the queue then holds only the later frame |
| Recording.VideoRecorder.constructor | P2Pro/recorder.py:79-86 | the queue, path and flags are kept; not running; nothing done yet |
| Recording.VideoRecorder.Start | P2Pro/recorder.py:177-181 | `rec_running` is set; only the first `start()` launches a session, because the assignment shadows the method with the thread |
| Recording.VideoRecorder.Stop | P2Pro/recorder.py:183-185 | `rec_running` is cleared |
| Recording.VideoRecorder.WaitForFrame | P2Pro/recorder.py:93-95 | the wait ends at the first tick after which a frame is queued, or when the schedule is over. It reads no tick when a frame was already queued. The queue gains the frames produced meanwhile; a `stop()` meanwhile clears `rec_running` but does not end the wait |
| Recording.VideoRecorder.WaitTurn | P2Pro/recorder.py:93-95 | one tick of the wait: a produced frame is queued; `stop()` clears `rec_running` |
| Recording.VideoRecorder.StartSession | P2Pro/recorder.py:99-126 | the peeked frame's shapes give the size strings. The RGB encoder (`rgb24`, `path.rgb.mkv`) starts, then the thermal encoder (`gray16le`, `path.therm.mkv`) with radiometry, then a fresh, started audio recorder for `path.wav` with audio |
| Recording.VideoRecorder.TakeFrame | P2Pro/recorder.py:129-136 | `get` empties the queue. The frame it held, if any, is appended to the frames taken and written, RGB then thermal; a timed-out get writes nothing |
| Recording.VideoRecorder.FeedTurn | P2Pro/recorder.py:128-136 | one tick of the feed loop moves the queue and the frames taken as one feed step: a put leaves exactly the new frame queued, a get moves the queued frame to the taken ones and writes it; `stop()` clears `rec_running`; an audio chunk is appended. The audio recorder's flag, thread and file are untouched |
| Recording.VideoRecorder.Feed | P2Pro/recorder.py:128-136 | the loop stops at the tick after the first `stop()`, or at the end of the schedule, and reads nothing once `rec_running` was already clear. The queue and the frames taken are those of the feed steps over the ticks read, the taken frames are offered frames in offer order, and the trace gains their writes. The audio buffer gains the chunks delivered meanwhile, in order; the audio recorder keeps recording |
| Recording.VideoRecorder.StopAudioRecorder | P2Pro/recorder.py:138-139 | with audio, it stops the recorder: its recording flag is cleared, and the stop fails exactly when no chunk came; without audio it does nothing |
| Recording.VideoRecorder.CloseEncoders | P2Pro/recorder.py:141-146 | close and await the RGB encoder, then, with radiometry, the thermal one |
| Recording.VideoRecorder.MergeInputs | P2Pro/recorder.py:148-153 | the merge inputs built by appending are exactly the session's files, in order |
| Recording.VideoRecorder.CloseAndMerge | P2Pro/recorder.py:141-173 | close the encoders, merge the session files into `path.mkv`, and clean up only after a successful merge; the warning is logged exactly when some file is missing |
| Recording.VideoRecorder.Shutdown | P2Pro/recorder.py:138-173 | after the loop: audio stop, which clears the audio recorder's flag and ends the session when it fails; then close, merge and cleanup. The WAV file holds the concatenated chunks and is closed when audio stopped |
| Recording.VideoRecorder.Cleanup | P2Pro/recorder.py:166-173 | removes files in order up to the first missing one; the warning is logged exactly when some file is missing |
| Recording.VideoRecorder.BeginSession | P2Pro/recorder.py:99-136 | peek at the first frame, start the session with a recording audio recorder when audio is on, then feed up to the first `stop()`: the queue and the frames taken follow the feed steps over the ticks read, and the trace is the start actions then the writes of the frames taken |
| Recording.VideoRecorder.RunSession | P2Pro/recorder.py:99-173 | once a frame is queued, the feed reads the ticks up to the first `stop()` and moves as the feed steps say, and the trace is the session trace for the frames taken and the outcome. The thread, and the audio recorder, are still recording exactly when `rec_running` is still set. Audio fails exactly when no chunk arrived. The closed WAV file holds every chunk delivered while recording |
| Recording.VideoRecorder.RecThread | P2Pro/recorder.py:92-175 | the whole thread. It waits with nothing done exactly when no frame ever arrives, and then `rec_running` is cleared exactly by a `stop()` seen while waiting; the wait ends at the first tick that queues a frame. Otherwise the first frame queued is the one peeked, the feed runs to the first `stop()` after it as the feed steps say, and the trace is the session trace. The audio recorder is still recording exactly when the thread is. A finished thread has seen `stop()`. Audio fails exactly when no chunk came after the session started |

## Left out

- `cv2.cvtColor(.., COLOR_YUV2RGB_YUY2)` is an OpenCV conversion: the RGB plane is an opaque function of the YUYV bytes. Its shape promise, (192, 256, 2) in and (192, 256, 3) out, is a stated assumption (`ShapeKeeping`) under which `DecodeRgbShape` gives the RGB byte count; the pixel values are not modelled.
- Strings.IsDigit: `\d` is taken as the ASCII digits 0-9. Python 3's `re` also matches other Unicode decimal digits in `str` patterns; ffmpeg prints device indices in ASCII.
- The recorder's input queue is `queue.Queue(1)` shared with the camera loop. The feed steps (`FeedStep`) model that one-slot queue directly: the camera's drop-oldest put leaves exactly the new frame, and a get takes what is queued.
- Processes and devices are outside the model and their answers are parameters. These are `subprocess.Popen`/`run`, the ffmpeg-python graph and `run_async`, `util.PipeLogger`, pyudev, `cv2.VideoCapture` and sounddevice. Only the command lists launched and the number of releases are kept.
- Threads, sleeps, `join` and timeouts are left out. The two threads are modelled as one interleaving, a schedule of ticks. A chunk delivered while the recorder waits for its first frame is dropped: no audio recorder exists yet.
- Logging and printing are left out.
- The udev ids are taken as already-parsed integers. A missing id stands for `int(None, 16)` raising; malformed hex text is not modelled.
- The per-port answers of OpenCV's probe are a finite list (`ProbeAt`). Every port past its end is taken as failing to open; this is what bounds the probing of `list_cap_ids`.
- `cv2.VideoCapture(camera_id, cv2)`: the second argument, and how OpenCV reads it, are not modelled; the device's answers are parameters.
- `frame_queue` is a class attribute of `Video` shared by all instances. The model gives each `Video` its own two queues.
- Windows `frame[0]` flattening and the (384, 256, 2) shape of the macOS reshape are left out: the raw buffer is a flat byte sequence on every platform.
- Reported frame rates and sizes are exact reals. Floating-point rounding is not modelled; `int()` is truncation toward zero.
- What the encoders and the merge put in the output files is ffmpeg's business. The model records which bytes go to each encoder and which files are merged, not their encoded contents.
- The WAV header writing of the wave module is not modelled; the file is a record of its parameters and data bytes.
- `AudioRecorder.record` is kept only as the callback and the flags: the stream and its sleep loop are device I/O.
- `VideoRecorder.capture_still` has an empty body, and `VideoRecorder.thread` is never used.
- `main.py` is the display loop and keyboard dispatch: UI glue, not part of this model.
- `P2Pro.util` is not part of this model.
- FrameQueues.FrameQueue.Put: a `put` on a full queue would block; the producer never issues one here, so the method requires room.
