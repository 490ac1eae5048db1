/**
 * Finding the P2 Pro (video.py:128-202): the udev search on Linux, the parse of ffmpeg's
 * avfoundation device listing on macOS, and elsewhere the port probe `list_cap_ids`
 * followed by a search for the sensor's resolution and frame rate. udev, ffmpeg and
 * cv2.VideoCapture are outside the model: what they report is given as parameters.
 */
module DeviceSelect {
  import opened Wrappers
  import opened Strings
  import opened Sensor

  datatype Platform = Linux | Darwin | Windows

  /** A camera id of open(): a port number (-1 asks for a scan) or a device name/index string. */
  datatype CameraId = Port(n: int) | Named(s: string)

  // ---------------------------------------------------------------- macOS listing

  /** One `[index] name` entry found in ffmpeg's device listing. */
  datatype Listed = Listed(index: string, name: string)

  /** Length of the run of digits that starts s: what `\d+` takes. */
  function DigitRun(s: string): (n: nat)
    ensures n <= |s| && AllDigits(s[..n]) && (n < |s| ==> !IsDigit(s[n]))
  {
    if s == [] || !IsDigit(s[0]) then 0 else 1 + DigitRun(s[1..])
  }

  /** The part of s before its first newline: what `.*` takes. */
  function LineTail(s: string): (t: string)
    ensures |t| <= |s| && t == s[..|t|] && '\n' !in t
    ensures |t| < |s| ==> s[|t|] == '\n'
  {
    if s == [] || s[0] == '\n' then [] else [s[0]] + LineTail(s[1..])
  }

  /** A match of `\[(\d+)\] (.*)` at the start of s, with the number of characters it spans. */
  function MatchHere(s: string): (m: Option<(Listed, nat)>)
    ensures m.Some? ==> 0 < m.value.1 <= |s|
    ensures m.Some? ==> |m.value.0.index| > 0 && AllDigits(m.value.0.index) && '\n' !in m.value.0.name
  {
    if |s| == 0 || s[0] != '[' then None
    else
      var n := DigitRun(s[1..]);
      if n == 0 || |s| < n + 3 || s[n + 1] != ']' || s[n + 2] != ' ' then None
      else
        var name := LineTail(s[n + 3..]);
        assert s[1..][..n] == s[1..n + 1];
        Some((Listed(s[1..n + 1], name), n + 3 + |name|))
  }

  /** re.findall: try a match at each position, resuming right after each match found. */
  function FindAll(s: string): (ds: seq<Listed>)
    ensures forall i :: 0 <= i < |ds| ==> |ds[i].index| > 0 && AllDigits(ds[i].index) && '\n' !in ds[i].name
    decreases |s|
  {
    if s == [] then []
    else match MatchHere(s)
      case Some((d, len)) => [d] + FindAll(s[len..])
      case None => FindAll(s[1..])
  }

  predicate WellFormed(d: Listed) {
    |d.index| > 0 && AllDigits(d.index) && '\n' !in d.name
  }

  /** One line of the listing. */
  function Line(d: Listed): string {
    "[" + d.index + "] " + d.name + "\n"
  }

  /**
   * Text in which no entry can start: every '[' is followed, still inside the text, by
   * something other than a digit, as in ffmpeg's "[AVFoundation indev @ 0x...] " prefixes
   * and its "AVFoundation video devices:" headers.
   */
  predicate Quiet(t: string) {
    forall j :: 0 <= j < |t| && t[j] == '[' ==> j + 1 < |t| && !IsDigit(t[j + 1])
  }

  /** A piece of ffmpeg's stderr: a device entry line, or other text. */
  datatype Piece = Entry(d: Listed) | Other(t: string)

  predicate PieceOk(p: Piece) {
    match p
    case Entry(d) => WellFormed(d)
    case Other(t) => Quiet(t)
  }

  /** The stderr text made of the pieces, one after another. */
  function Render(ps: seq<Piece>): string {
    if ps == [] then ""
    else (match ps[0] case Entry(d) => Line(d) case Other(t) => t) + Render(ps[1..])
  }

  /** The device entries among the pieces, in order. */
  function Entries(ps: seq<Piece>): seq<Listed> {
    if ps == [] then []
    else (match ps[0] case Entry(d) => [d] case Other(_) => []) + Entries(ps[1..])
  }

  lemma {:induction false} DigitRunOf(digits: string, rest: string)
    requires AllDigits(digits) && rest != [] && !IsDigit(rest[0])
    ensures DigitRun(digits + rest) == |digits|
  {
    if digits != [] {
      assert (digits + rest)[1..] == digits[1..] + rest;
      DigitRunOf(digits[1..], rest);
    }
  }

  lemma {:induction false} LineTailOf(line: string, rest: string)
    requires '\n' !in line
    ensures LineTail(line + "\n" + rest) == line
  {
    if line != [] {
      assert (line + "\n" + rest)[1..] == line[1..] + "\n" + rest;
      LineTailOf(line[1..], rest);
    }
  }

  /** A rendered line matches as a whole, up to (not including) its newline. */
  lemma MatchLine(d: Listed, rest: string)
    requires WellFormed(d)
    ensures MatchHere(Line(d) + rest) == Some((d, |Line(d)| - 1))
  {
    var s := Line(d) + rest;
    var n := |d.index|;
    var tail := "] " + d.name + "\n" + rest;
    assert s[1..] == d.index + tail;
    DigitRunOf(d.index, tail);
    assert s[n + 1] == ']' && s[n + 2] == ' ';
    assert s[1..n + 1] == d.index;
    assert s[n + 3..] == d.name + "\n" + rest;
    LineTailOf(d.name, rest);
  }

  lemma FindAllLine(d: Listed, rest: string)
    requires WellFormed(d)
    ensures FindAll(Line(d) + rest) == [d] + FindAll(rest)
  {
    var s := Line(d) + rest;
    MatchLine(d, rest);
    assert s[|Line(d)| - 1..] == "\n" + rest;
    assert ("\n" + rest)[1..] == rest;
  }

  /** No match starts in quiet text: findall goes on from the text after it. */
  lemma {:induction false} FindAllQuiet(t: string, rest: string)
    requires Quiet(t)
    ensures FindAll(t + rest) == FindAll(rest)
    decreases |t|
  {
    if t != [] {
      var s := t + rest;
      if s[0] == '[' {
        assert t[0] == '[' && |t| > 1 && !IsDigit(t[1]);
        assert s[1..][0] == t[1];
      }
      assert MatchHere(s).None?;
      assert FindAll(s) == FindAll(s[1..]);
      assert s[1..] == t[1..] + rest;
      assert Quiet(t[1..]) by {
        forall j | 0 <= j < |t[1..]| && t[1..][j] == '[' ensures j + 1 < |t[1..]| && !IsDigit(t[1..][j + 1]) {
          assert t[j + 1] == '[';
        }
      }
      FindAllQuiet(t[1..], rest);
    } else {
      assert t + rest == rest;
    }
  }

  /** Parsing stderr made of entry lines and quiet text gives back its devices, in order. */
  lemma {:induction false} FindAllRender(ps: seq<Piece>)
    requires forall i :: 0 <= i < |ps| ==> PieceOk(ps[i])
    ensures FindAll(Render(ps)) == Entries(ps)
  {
    if ps != [] {
      assert PieceOk(ps[0]);
      match ps[0] {
        case Entry(d) => FindAllLine(d, Render(ps[1..]));
        case Other(t) => FindAllQuiet(t, Render(ps[1..]));
      }
      FindAllRender(ps[1..]);
    }
  }

  /** Position of the first listed device whose name contains "USB Camera" (|ds| if none). */
  function FirstUsbCameraAt(ds: seq<Listed>): (k: nat)
    ensures k <= |ds|
    ensures k < |ds| ==> Contains(ds[k].name, "USB Camera")
    ensures forall j :: 0 <= j < k ==> !Contains(ds[j].name, "USB Camera")
  {
    if ds == [] then 0
    else if Contains(ds[0].name, "USB Camera") then 0
    else 1 + FirstUsbCameraAt(ds[1..])
  }

  /** The macOS branch: the index string of the first "USB Camera", or None. */
  function DarwinCameraIndex(listing: string): (r: Option<string>)
    ensures r.None? ==> forall i :: 0 <= i < |FindAll(listing)| ==> !Contains(FindAll(listing)[i].name, "USB Camera")
    ensures r.Some? ==> exists i :: 0 <= i < |FindAll(listing)| && Contains(FindAll(listing)[i].name, "USB Camera")
    ensures var ds := FindAll(listing);
      forall k :: 0 <= k < |ds| && Contains(ds[k].name, "USB Camera") &&
                  (forall j :: 0 <= j < k ==> !Contains(ds[j].name, "USB Camera"))
                  ==> r == Some(ds[k].index)
  {
    var ds := FindAll(listing);
    var k := FirstUsbCameraAt(ds);
    if k < |ds| then Some(ds[k].index) else None
  }

  /**
   * For stderr made of entry lines and quiet text, the macOS branch names exactly the
   * first entry whose name contains "USB Camera".
   */
  lemma DarwinPicksFirstUsbCamera(ps: seq<Piece>)
    requires forall i :: 0 <= i < |ps| ==> PieceOk(ps[i])
    ensures var ds := Entries(ps);
      DarwinCameraIndex(Render(ps)).None? <==> forall i :: 0 <= i < |ds| ==> !Contains(ds[i].name, "USB Camera")
    ensures var ds := Entries(ps);
      forall k :: 0 <= k < |ds| && Contains(ds[k].name, "USB Camera") &&
                  (forall j :: 0 <= j < k ==> !Contains(ds[j].name, "USB Camera"))
                  ==> DarwinCameraIndex(Render(ps)) == Some(ds[k].index)
  {
    FindAllRender(ps);
  }

  // ---------------------------------------------------------------- Linux udev

  /** One video4linux device as udev reports it; None stands for a property it lacks. */
  datatype UdevDevice = UdevDevice(vendorId: Option<int>, modelId: Option<int>,
                                   capabilities: Option<string>, devName: Option<string>)

  /** int(None, 16) or `'capture' in None` raise TypeError inside the scan. */
  datatype ScanError = UdevTypeError

  predicate IdsMatch(d: UdevDevice)
    requires d.vendorId.Some? && d.modelId.Some?
  {
    d.vendorId.value == UsbVendorId && d.modelId.value == UsbProductId
  }

  /** Devices the loop passes over without returning or raising. */
  predicate Skipped(d: UdevDevice) {
    d.vendorId.Some? && d.modelId.Some? &&
    (!IdsMatch(d) || (d.capabilities.Some? && !Contains(d.capabilities.value, "capture")))
  }

  /** Devices on which the loop raises. */
  predicate Faulty(d: UdevDevice) {
    d.vendorId.None? || d.modelId.None? || (IdsMatch(d) && d.capabilities.None?)
  }

  /** Position of the first device the loop does not pass over. */
  function UdevStop(ds: seq<UdevDevice>): (k: nat)
    ensures k <= |ds|
    ensures forall j :: 0 <= j < k ==> Skipped(ds[j])
    ensures k < |ds| ==> !Skipped(ds[k])
  {
    if ds == [] || !Skipped(ds[0]) then 0 else 1 + UdevStop(ds[1..])
  }

  /** The Linux branch: DEVNAME of the first device with the P2 Pro's ids and capture capability. */
  function FindUdev(ds: seq<UdevDevice>): (r: Result<Option<string>, ScanError>)
    ensures var k := UdevStop(ds);
      r == if k == |ds| then Success(None)
           else if Faulty(ds[k]) then Failure(UdevTypeError)
           else Success(ds[k].devName)
  {
    if ds == [] then Success(None)
    else
      var d := ds[0];
      if d.vendorId.None? || d.modelId.None? then Failure(UdevTypeError)
      else if IdsMatch(d) then
        if d.capabilities.None? then Failure(UdevTypeError)
        else if Contains(d.capabilities.value, "capture") then Success(d.devName)
        else FindUdev(ds[1..])
      else FindUdev(ds[1..])
  }

  // ---------------------------------------------------------------- port probe

  /** What cv2.VideoCapture(port) reports: not opened, or opened with a read result and properties. */
  datatype Probe = Closed | Opened(reading: bool, width: real, height: real, fps: real, backend: string)

  /** A working_ids entry: (port, (w, h), fps, backend). */
  datatype WorkingPort = WorkingPort(port: nat, width: int, height: int, fps: real, backend: string)

  /** Ports past the end of the oracle have no device. */
  function ProbeAt(probes: seq<Probe>, port: nat): Probe {
    if port < |probes| then probes[port] else Closed
  }

  /** The three lists after probing ports 0 .. n-1 in order. */
  function Classified(probes: seq<Probe>, n: nat): (seq<WorkingPort>, seq<nat>, seq<nat>)
  {
    if n == 0 then ([], [], [])
    else
      var (w, a, f) := Classified(probes, n - 1);
      match ProbeAt(probes, n - 1)
      case Closed => (w, a, f + [n - 1])
      case Opened(ok, width, height, fps, backend) =>
        if ok then (w + [WorkingPort(n - 1, PyInt(width), PyInt(height), fps, backend)], a, f)
        else (w, a + [n - 1], f)
  }

  function Ports(ws: seq<WorkingPort>): (ps: seq<nat>)
    ensures |ps| == |ws| && forall i :: 0 <= i < |ws| ==> ps[i] == ws[i].port
  {
    seq(|ws|, i requires 0 <= i < |ws| => ws[i].port)
  }

  function FailedCount(probes: seq<Probe>, n: nat): nat {
    |Classified(probes, n).2|
  }

  /** Every port past the oracle fails, so failures keep up with the port number. */
  lemma {:induction false} FailedLowerBound(probes: seq<Probe>, n: nat)
    ensures FailedCount(probes, n) + |probes| >= n
    ensures n + 1 > |probes| ==> FailedCount(probes, n + 1) == FailedCount(probes, n) + 1
  {
    if n > 0 {
      FailedLowerBound(probes, n - 1);
    }
  }

  function ProbedFrom(probes: seq<Probe>, n: nat): (stop: nat)
    requires FailedCount(probes, n) < 6
    ensures n < stop && FailedCount(probes, stop) == 6
    ensures forall m :: n <= m < stop ==> FailedCount(probes, m) < 6
    decreases |probes| + 6 - n
  {
    FailedLowerBound(probes, n);
    if FailedCount(probes, n + 1) == 6 then n + 1 else ProbedFrom(probes, n + 1)
  }

  /** How many ports list_cap_ids tries: it stops right after the sixth failure. */
  function ProbedPorts(probes: seq<Probe>): (n: nat)
    ensures FailedCount(probes, n) == 6
    ensures forall m :: 0 <= m < n ==> FailedCount(probes, m) < 6
  {
    ProbedFrom(probes, 0)
  }

  /** Probing ends right after a failing port, the sixth failure. */
  lemma ProbeStopsAtSixthFailure(probes: seq<Probe>)
    ensures var n := ProbedPorts(probes);
      n > 0 && ProbeAt(probes, n - 1).Closed? && FailedCount(probes, n - 1) == 5
  {
    var n := ProbedPorts(probes);
    assert FailedCount(probes, n - 1) < 6;
  }

  /** Over the first n ports, each port lands in exactly the list its probe result says, and in no other. */
  lemma {:induction false} ClassifiedPartition(probes: seq<Probe>, n: nat, p: nat)
    requires p < n
    ensures var (w, a, f) := Classified(probes, n);
      && (p in Ports(w) <==> ProbeAt(probes, p).Opened? && ProbeAt(probes, p).reading)
      && (p in a <==> ProbeAt(probes, p).Opened? && !ProbeAt(probes, p).reading)
      && (p in f <==> ProbeAt(probes, p).Closed?)
  {
    ClassifiedBelow(probes, n - 1);
    var (w0, a0, f0) := Classified(probes, n - 1);
    var (w, a, f) := Classified(probes, n);
    assert Ports(w) == Ports(w0) || Ports(w) == Ports(w0) + [n - 1];
    if p < n - 1 {
      ClassifiedPartition(probes, n - 1, p);
    }
  }

  /** Every listed port is below n, and each list is in probing order. */
  lemma {:induction false} ClassifiedBelow(probes: seq<Probe>, n: nat)
    ensures var (w, a, f) := Classified(probes, n);
      && |w| + |a| + |f| == n
      && (forall i, j :: 0 <= i < j < |w| ==> w[i].port < w[j].port)
      && (forall i, j :: 0 <= i < j < |a| ==> a[i] < a[j])
      && (forall i, j :: 0 <= i < j < |f| ==> f[i] < f[j])
      && (forall i :: 0 <= i < |w| ==> w[i].port < n)
      && (forall i :: 0 <= i < |a| ==> a[i] < n)
      && (forall i :: 0 <= i < |f| ==> f[i] < n)
  {
    if n > 0 {
      ClassifiedBelow(probes, n - 1);
    }
  }

  /** list_cap_ids(): probe ports 0, 1, 2, ... while fewer than six have failed. */
  method ListCapIds(probes: seq<Probe>) returns (working: seq<WorkingPort>, available: seq<nat>, nonWorking: seq<nat>)
    ensures (working, available, nonWorking) == Classified(probes, ProbedPorts(probes))
    ensures |nonWorking| == 6
  {
    nonWorking := [];
    var devPort: nat := 0;
    working := [];
    available := [];
    while |nonWorking| < 6
      invariant (working, available, nonWorking) == Classified(probes, devPort)
      invariant devPort <= |probes| + |nonWorking| && |nonWorking| <= 6
      invariant |nonWorking| < 6 ==> ProbedPorts(probes) == ProbedFrom(probes, devPort)
      invariant |nonWorking| == 6 ==> ProbedPorts(probes) == devPort
      decreases |probes| + 6 - devPort
    {
      FailedLowerBound(probes, devPort);
      match ProbeAt(probes, devPort) {
        case Closed =>
          nonWorking := nonWorking + [devPort];
        case Opened(isReading, w, h, fps, backend) =>
          if isReading {
            working := working + [WorkingPort(devPort, PyInt(w), PyInt(h), fps, backend)];
          } else {
            available := available + [devPort];
          }
      }
      devPort := devPort + 1;
    }
  }

  /** Position of the first working port with the sensor's resolution and frame rate. */
  function FirstContractAt(ws: seq<WorkingPort>): (k: nat)
    ensures k <= |ws|
    ensures k < |ws| ==> MatchesContract(ws[k].width, ws[k].height, ws[k].fps)
    ensures forall j :: 0 <= j < k ==> !MatchesContract(ws[j].width, ws[j].height, ws[j].fps)
  {
    if ws == [] then 0
    else if MatchesContract(ws[0].width, ws[0].height, ws[0].fps) then 0
    else 1 + FirstContractAt(ws[1..])
  }

  /** working_ids as list_cap_ids() returns it. */
  function WorkingIds(probes: seq<Probe>): seq<WorkingPort> {
    Classified(probes, ProbedPorts(probes)).0
  }

  /**
   * What get_P2Pro_cap_id() finds: the udev device node on Linux, the avfoundation index
   * on Darwin, elsewhere the first working port with the sensor's resolution and frame rate.
   * Success(None) is "not found".
   */
  function CapIdSearch(platform: Platform, udev: seq<UdevDevice>, listing: string, probes: seq<Probe>)
    : (r: Result<Option<CameraId>, ScanError>)
    ensures r.Failure? ==> platform == Linux
    ensures platform == Linux ==> var k := UdevStop(udev);
      r == if k == |udev| then Success(None)
           else if Faulty(udev[k]) then Failure(UdevTypeError)
           else if udev[k].devName.None? then Success(None)
           else Success(Some(Named(udev[k].devName.value)))
    ensures platform == Darwin ==> var ds := FindAll(listing);
      && (r == Success(None) ==> forall i :: 0 <= i < |ds| ==> !Contains(ds[i].name, "USB Camera"))
      && (r != Success(None) ==> exists i :: 0 <= i < |ds| && Contains(ds[i].name, "USB Camera"))
      && forall k :: 0 <= k < |ds| && Contains(ds[k].name, "USB Camera") &&
                     (forall j :: 0 <= j < k ==> !Contains(ds[j].name, "USB Camera"))
                     ==> r == Success(Some(Named(ds[k].index)))
    ensures platform == Windows && r == Success(None) ==>
      forall j :: 0 <= j < |WorkingIds(probes)| ==> !MatchesContract(WorkingIds(probes)[j].width, WorkingIds(probes)[j].height, WorkingIds(probes)[j].fps)
    ensures platform == Windows && r != Success(None) ==>
      exists j :: 0 <= j < |WorkingIds(probes)| && MatchesContract(WorkingIds(probes)[j].width, WorkingIds(probes)[j].height, WorkingIds(probes)[j].fps)
    ensures platform == Windows ==> var ws := WorkingIds(probes);
      forall k :: 0 <= k < |ws| && MatchesContract(ws[k].width, ws[k].height, ws[k].fps) &&
                  (forall j :: 0 <= j < k ==> !MatchesContract(ws[j].width, ws[j].height, ws[j].fps))
                  ==> r == Success(Some(Port(ws[k].port)))
  {
    if platform == Linux then
      match FindUdev(udev)
      case Failure(e) => Failure(e)
      case Success(None) => Success(None)
      case Success(Some(name)) => Success(Some(Named(name)))
    else if platform == Darwin then
      Success(match DarwinCameraIndex(listing) case None => None case Some(i) => Some(Named(i)))
    else
      var ws := WorkingIds(probes);
      var k := FirstContractAt(ws);
      Success(if k < |ws| then Some(Port(ws[k].port)) else None)
  }

  /** get_P2Pro_cap_id(): the platform's search, the Windows one over list_cap_ids(). */
  method GetP2ProCapId(platform: Platform, udev: seq<UdevDevice>, listing: string, probes: seq<Probe>)
    returns (r: Result<Option<CameraId>, ScanError>)
    ensures r == CapIdSearch(platform, udev, listing, probes)
  {
    if platform == Linux {
      match FindUdev(udev)
      case Failure(e) => return Failure(e);
      case Success(None) => return Success(None);
      case Success(Some(name)) => return Success(Some(Named(name)));
    }
    if platform == Darwin {
      match DarwinCameraIndex(listing)
      case None => return Success(None);
      case Some(i) => return Success(Some(Named(i)));
    }
    var workingIds, _, _ := ListCapIds(probes);
    var k := 0;
    while k < |workingIds|
      invariant k <= |workingIds|
      invariant forall j :: 0 <= j < k ==> !MatchesContract(workingIds[j].width, workingIds[j].height, workingIds[j].fps)
    {
      var id := workingIds[k];
      if id.width == Width && id.height == Height && id.fps == Fps {
        return Success(Some(Port(id.port)));
      }
      k := k + 1;
    }
    return Success(None);
  }
}
