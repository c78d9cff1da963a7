// The trim editor: two seek bars choose a range of a recording, the play
// button plays from inside that range, and export hands the range to the
// trimmer with an output file next to the recording. Times are Kotlin
// `Long` milliseconds; the player, the seek bars and the file system are
// modelled only by the values the editor reads from and writes to them.

module Editing {
  import opened Wrappers
  import Decimal
  import Trimmer

  const INT_MIN: int := -0x8000_0000
  const INT_MAX: int := 0x7FFF_FFFF

  /** `Long.toInt()`: keep the low 32 bits, as a signed value. */
  function ToInt32(x: int): (r: int)
    ensures INT_MIN <= r <= INT_MAX
    ensures INT_MIN <= x <= INT_MAX ==> r == x
  {
    if INT_MIN <= x <= INT_MAX then x else (x - INT_MIN) % 0x1_0000_0000 + INT_MIN
  }

  /** The conversion keeps the value modulo 2^32: only the high bits are lost. */
  lemma ToInt32Wraps(x: int)
    ensures (ToInt32(x) - x) % 0x1_0000_0000 == 0
  {
    var m := 0x1_0000_0000;
    if !(INT_MIN <= x <= INT_MAX) {
      var q := (x - INT_MIN) / m;
      assert x - INT_MIN == q * m + (x - INT_MIN) % m;
      assert ToInt32(x) - x == -q * m;
    }
  }

  /** Kotlin's `/` on integers, which rounds toward zero. */
  function Quot(a: int, b: int): (q: int)
    requires b > 0
  {
    if a >= 0 then a / b else -((-a) / b)
  }

  /** Kotlin's `%` on integers, whose sign follows the dividend. */
  function Rem(a: int, b: int): (r: int)
    requires b > 0
    ensures a == Quot(a, b) * b + r
    ensures a >= 0 ==> 0 <= r < b
    ensures a < 0 ==> -b < r <= 0
  {
    a - Quot(a, b) * b
  }

  // ---------------------------------------------------------------------------
  // formatDuration

  /** `"%02d".format(n)` in a locale whose digits are ASCII: at least two
      characters, padded with a leading zero. */
  function Pad2(n: int): (s: string)
    ensures |s| >= 2
    ensures 0 <= n < 10 ==> s == ['0', Decimal.DigitChar(n)]
    ensures 10 <= n < 100 ==> s == Decimal.Digits(n)
  {
    var d := Decimal.Show(n);
    if |d| < 2 then "0" + d else d
  }

  /** `formatDuration()`: `m:ss` of the whole seconds in `ms`, in ASCII digits. */
  function FormatDuration(ms: int): string {
    var totalSeconds := ToInt32(Quot(ms, 1000));
    var minutes := Quot(totalSeconds, 60);
    var seconds := Rem(totalSeconds, 60);
    Decimal.Show(minutes) + ":" + Pad2(seconds)
  }

  /** For a time that is neither negative nor beyond the 32-bit seconds the
      format keeps, the label is the minutes, a colon, and two digits of the
      seconds within the minute. */
  lemma FormatDurationShape(ms: int)
    requires 0 <= ms && ms / 1000 <= INT_MAX
    ensures var f := FormatDuration(ms);
      && f == Decimal.Digits(ms / 1000 / 60) + ":" + Pad2(ms / 1000 % 60)
      && |Pad2(ms / 1000 % 60)| == 2
      && f[|f| - 3] == ':'
      && forall i :: 0 <= i < |f| && i != |f| - 3 ==> Decimal.IsDigit(f[i])
  {
    var s := ms / 1000 % 60;
    var m := Decimal.Digits(ms / 1000 / 60);
    var p := Pad2(s);
    FormatDurationParts(ms);
    if s < 10 {
      assert p == ['0', Decimal.DigitChar(s)];
    } else {
      assert p == Decimal.Digits(s);
    }
    DigitsAroundColon(m, p);
  }

  /** Within range, the Kotlin arithmetic of the format is the plain one. */
  lemma FormatDurationParts(ms: int)
    requires 0 <= ms && ms / 1000 <= INT_MAX
    ensures FormatDuration(ms) == Decimal.Digits(ms / 1000 / 60) + ":" + Pad2(ms / 1000 % 60)
  {
    var t := ms / 1000;
    assert Quot(ms, 1000) == t;
    assert ToInt32(t) == t;
    assert Quot(t, 60) == t / 60;
    assert Rem(t, 60) == t % 60;
  }

  /** Digits, a colon and two more digits: every character but the colon is a digit. */
  lemma DigitsAroundColon(m: string, p: string)
    requires |p| == 2 && Decimal.IsDigit(p[0]) && Decimal.IsDigit(p[1])
    requires forall i :: 0 <= i < |m| ==> Decimal.IsDigit(m[i])
    ensures var f := m + ":" + p;
      f[|f| - 3] == ':' && forall i :: 0 <= i < |f| && i != |f| - 3 ==> Decimal.IsDigit(f[i])
  {
    var f := m + ":" + p;
    assert forall i :: 0 <= i < |f| && i != |f| - 3 ==> (if i < |m| then f[i] == m[i] else f[i] == p[i - |m| - 1]);
  }

  /** The two digits `Pad2` prints for a second within a minute read back as it. */
  lemma Pad2RoundTrip(n: int)
    requires 0 <= n < 60
    ensures var p := Pad2(n); |p| == 2 && Decimal.IsDigit(p[0]) && Decimal.IsDigit(p[1])
    ensures Decimal.ParseDigits(Pad2(n)) == n
  {
    var p := Pad2(n);
    if n < 10 {
      Decimal.DigitRoundTrip(n);
      assert p[..1] == "0";
      assert p[..1][..0] == [];
      assert Decimal.ParseDigits(p[..1]) == 0;
      assert p[1] == Decimal.DigitChar(n);
      assert p[..|p| - 1] == p[..1];
    } else {
      Decimal.DigitsRoundTrip(n);
    }
  }

  /** Reading the label back gives the whole seconds of the time. */
  lemma {:induction false} FormatDurationRoundTrip(ms: int)
    requires 0 <= ms && ms / 1000 <= INT_MAX
    ensures var f := FormatDuration(ms);
      && |f| >= 4
      && (forall i :: 0 <= i < |f| - 3 ==> Decimal.IsDigit(f[i]))
      && (forall i :: |f| - 2 <= i < |f| ==> Decimal.IsDigit(f[i]))
      && Decimal.ParseDigits(f[..|f| - 3]) * 60 + Decimal.ParseDigits(f[|f| - 2..]) == ms / 1000
  {
    FormatDurationShape(ms);
    var minutes := ms / 1000 / 60;
    var s := ms / 1000 % 60;
    var m := Decimal.Digits(minutes);
    var p := Pad2(s);
    Pad2RoundTrip(s);
    Decimal.DigitsRoundTrip(minutes);
    SplitAtColon(m, p);
  }

  lemma SplitAtColon(m: string, p: string)
    requires |p| == 2
    ensures var f := m + ":" + p; f[..|f| - 3] == m && f[|f| - 2..] == p
  {
  }

  /** Times of less than a second either way read as zero. */
  lemma UnderASecondIsZero(ms: int)
    requires -1000 < ms < 1000
    ensures FormatDuration(ms) == "0:00"
  {
    assert Quot(ms, 1000) == 0;
    assert Decimal.Show(0) == "0";
  }

  // ---------------------------------------------------------------------------
  // Paths, as `java.io.File` treats them on a Unix file system

  /** Collapse every run of separators into one. */
  function Collapse(s: string): (r: string)
    ensures |r| <= |s|
    ensures NoDoubleSlash(r)
    ensures s != [] ==> r != [] && r[0] == s[0]
  {
    if |s| <= 1 then s
    else if s[0] == '/' && s[1] == '/' then Collapse(s[1..])
    else [s[0]] + Collapse(s[1..])
  }

  predicate NoDoubleSlash(s: string) {
    forall i :: 0 <= i < |s| - 1 ==> !(s[i] == '/' && s[i + 1] == '/')
  }

  lemma {:induction false} CollapseKeeps(s: string)
    requires NoDoubleSlash(s)
    ensures Collapse(s) == s
  {
    if |s| > 1 {
      assert !(s[0] == '/' && s[1] == '/');
      assert NoDoubleSlash(s[1..]) by {
        forall i | 0 <= i < |s[1..]| - 1 ensures !(s[1..][i] == '/' && s[1..][i + 1] == '/') {
          assert s[1..][i] == s[i + 1] && s[1..][i + 1] == s[i + 2];
        }
      }
      CollapseKeeps(s[1..]);
    }
  }

  /** The path `File(path)` holds: separators collapsed, a trailing one dropped. */
  function Normalize(path: string): (r: string)
    ensures NoDoubleSlash(r)
    ensures |r| > 1 ==> r[|r| - 1] != '/'
  {
    var c := Collapse(path);
    if |c| > 1 && c[|c| - 1] == '/' then c[..|c| - 1] else c
  }

  predicate IsNormal(path: string) {
    NoDoubleSlash(path) && (|path| > 1 ==> path[|path| - 1] != '/')
  }

  lemma NormalizeKeeps(path: string)
    requires IsNormal(path)
    ensures Normalize(path) == path
  {
    CollapseKeeps(path);
  }

  /** The last position of `c` in `s`, or -1. */
  function LastIndexOf(s: string, c: char): (i: int)
    ensures -1 <= i < |s|
    ensures i >= 0 ==> s[i] == c
    ensures forall j :: i < j < |s| ==> s[j] != c
  {
    if s == [] then -1
    else if s[|s| - 1] == c then |s| - 1
    else LastIndexOf(s[..|s| - 1], c)
  }

  /** `File(path).parent`: everything before the last separator, the root for
      a file in the root, and nothing for a bare name. */
  function ParentOf(path: string): Option<string> {
    var p := Normalize(path);
    var index := LastIndexOf(p, '/');
    var prefix := if |p| > 0 && p[0] == '/' then 1 else 0;
    if index < prefix then (if prefix > 0 && |p| > prefix then Some(p[..prefix]) else None)
    else Some(p[..index])
  }

  /** `File(parent, child)`. */
  function Resolve(parent: string, child: string): string {
    if child == [] then parent
    else if child[0] == '/' then (if parent == "/" then child else parent + child)
    else if parent == "/" then parent + child
    else parent + "/" + child
  }

  function OutputName(timestamp: string): string {
    "MNML-" + timestamp + "-edited.mp4"
  }

  /** `createOutputFile(recording)`: next to the recording, or in the app's
      files directory when the recording's path has no parent. */
  function OutputPath(recordingPath: string, filesDir: string, timestamp: string): string {
    var parent := ParentOf(recordingPath).GetOr(filesDir);
    Normalize(Resolve(parent, OutputName(timestamp)))
  }

  lemma {:induction false} ChildKeepsNormal(dir: string, name: string)
    requires IsNormal(dir) && dir != [] && dir != "/"
    requires name != [] && '/' !in name
    ensures IsNormal(dir + "/" + name)
  {
    var s := dir + "/" + name;
    forall i | 0 <= i < |s| - 1 ensures !(s[i] == '/' && s[i + 1] == '/') {
      if i + 1 < |dir| {
        assert s[i] == dir[i] && s[i + 1] == dir[i + 1];
      } else if i + 1 == |dir| {
        assert s[i] == dir[|dir| - 1];
        assert |dir| > 1 || dir[0] != '/';
      } else {
        assert s[i + 1] == name[i - |dir|];
      }
    }
    assert s[|s| - 1] == name[|name| - 1];
  }

  /** A child named without a separator, put in a directory in normal form,
      has that directory as its parent. */
  lemma {:induction false} ParentOfChild(dir: string, name: string)
    requires IsNormal(dir) && dir != []
    requires name != [] && '/' !in name
    ensures ParentOf(Resolve(dir, name)) == Some(dir)
  {
    var s := Resolve(dir, name);
    if dir == "/" {
      assert s == "/" + name;
      assert IsNormal(s) by {
        forall i | 0 <= i < |s| - 1 ensures !(s[i] == '/' && s[i + 1] == '/') {
          assert s[i + 1] == name[i];
        }
        assert s[|s| - 1] == name[|name| - 1];
      }
      NormalizeKeeps(s);
      assert forall j :: 0 < j < |s| ==> s[j] == name[j - 1];
      assert LastIndexOf(s, '/') == 0;
    } else {
      assert s == dir + "/" + name;
      ChildKeepsNormal(dir, name);
      NormalizeKeeps(s);
      assert forall j :: |dir| < j < |s| ==> s[j] == name[j - |dir| - 1];
      assert s[|dir|] == '/';
      assert LastIndexOf(s, '/') == |dir|;
      assert s[..|dir|] == dir;
    }
  }

  /** The exported file is named `MNML-<timestamp>-edited.mp4` and sits in the
      recording's folder, or in the files directory when there is none. */
  lemma OutputBesideRecording(recordingPath: string, filesDir: string, timestamp: string)
    requires IsNormal(filesDir) && filesDir != []
    requires '/' !in timestamp
    ensures var dir := ParentOf(recordingPath).GetOr(filesDir);
      ParentOf(OutputPath(recordingPath, filesDir, timestamp)) == Some(dir)
  {
    var dir := ParentOf(recordingPath).GetOr(filesDir);
    var name := OutputName(timestamp);
    OutputNameHasNoSlash(timestamp);
    ParentIsNormal(recordingPath);
    ParentOfChild(dir, name);
    ChildOfNormalIsNormal(dir, name);
    NormalizeKeeps(Resolve(dir, name));
  }

  /** The output name is one path component. */
  lemma OutputNameHasNoSlash(timestamp: string)
    requires '/' !in timestamp
    ensures OutputName(timestamp) != [] && '/' !in OutputName(timestamp)
  {
    var name := OutputName(timestamp);
    assert forall i :: 0 <= i < |name| ==> name[i] == '-' || name[i] in timestamp || name[i] in "MNMLedit.mp4";
  }

  /** A parent is nonempty and in normal form. */
  lemma ParentIsNormal(path: string)
    ensures ParentOf(path).Some? ==> ParentOf(path).value != [] && IsNormal(ParentOf(path).value)
  {
    var p := Normalize(path);
    var index := LastIndexOf(p, '/');
    if ParentOf(path).Some? {
      var r := ParentOf(path).value;
      assert r == p[..if index < 1 then 1 else index];
      if index >= 1 && |r| > 1 {
        assert r[|r| - 1] == p[index - 1];
        assert p[index] == '/';
        assert p[index - 1] != '/';
      }
      assert forall i :: 0 <= i < |r| ==> r[i] == p[i];
    }
  }

  lemma ChildOfNormalIsNormal(dir: string, name: string)
    requires IsNormal(dir) && dir != []
    requires name != [] && '/' !in name
    ensures IsNormal(Resolve(dir, name))
  {
    if dir == "/" {
      var s := Resolve(dir, name);
      forall i | 0 <= i < |s| - 1 ensures !(s[i] == '/' && s[i + 1] == '/') {
        assert s[i + 1] == name[i];
      }
      assert s[|s| - 1] == name[|name| - 1];
    } else {
      ChildKeepsNormal(dir, name);
    }
  }

  // ---------------------------------------------------------------------------
  // The editor

  /** What export hands to the trimmer. */
  datatype TrimRequest = TrimRequest(inputPath: string, outputPath: string, startMs: int, endMs: int)

  /** The export guard: a range of at least one millisecond. */
  predicate ExportAllowed(startMs: int, endMs: int) {
    endMs - startMs > 0
  }

  /** A range the editor lets through is one the trimmer accepts, whenever the
      start is not before the recording; a negative start gets past the
      editor and is turned down by the trimmer instead. */
  lemma ExportGuardMatchesTrimmer(startMs: int, endMs: int)
    ensures startMs >= 0 ==> (ExportAllowed(startMs, endMs) <==> Trimmer.RangeValid(startMs, endMs))
    ensures startMs < 0 ==> !Trimmer.RangeValid(startMs, endMs)
  {
  }

  class TrimEditor {
    var durationMs: int
    var startMs: int
    var endMs: int
    /** The seek bars' maximum and the end bar's progress. */
    var seekMax: int
    var endProgress: int
    var startLabel: string
    var endLabel: string
    /** The player: its position and whether it plays. */
    var positionMs: int
    var playing: bool
    /** Whether export and both seek bars are enabled. */
    var controlsEnabled: bool
    var toasts: nat

    /** The labels show the range. */
    ghost predicate LabelsShowRange()
      reads this
    {
      startLabel == FormatDuration(startMs) && endLabel == FormatDuration(endMs)
    }

    constructor ()
      ensures durationMs == 0 && startMs == 0 && endMs == 0
      ensures LabelsShowRange() && controlsEnabled && !playing && toasts == 0
    {
      durationMs, startMs, endMs := 0, 0, 0;
      seekMax, endProgress := 0, 0;
      startLabel, endLabel := FormatDuration(0), FormatDuration(0);
      positionMs, playing := 0, false;
      controlsEnabled := true;
      toasts := 0;
    }

    /** `updateLabels()`. */
    method UpdateLabels()
      modifies this`startLabel, this`endLabel
      ensures LabelsShowRange()
    {
      startLabel := FormatDuration(startMs);
      endLabel := FormatDuration(endMs);
    }

    /** The player's prepared listener with the stream's duration. */
    method OnPrepared(playerDurationMs: int)
      requires INT_MIN <= playerDurationMs <= INT_MAX
      modifies this`durationMs, this`startMs, this`endMs, this`startLabel, this`endLabel, this`seekMax, this`endProgress
      ensures durationMs == playerDurationMs && startMs == 0 && endMs == playerDurationMs
      ensures seekMax == playerDurationMs && endProgress == playerDurationMs
      ensures LabelsShowRange()
      ensures playerDurationMs >= 0 ==> startMs <= endMs
    {
      durationMs := playerDurationMs;
      ShowWholeRange();
    }

    /** Select the whole recording, on the labels and on both seek bars. */
    method ShowWholeRange()
      modifies this`startMs, this`endMs, this`startLabel, this`endLabel, this`seekMax, this`endProgress
      ensures startMs == 0 && endMs == durationMs && LabelsShowRange()
      ensures seekMax == ToInt32(durationMs) && endProgress == ToInt32(durationMs)
    {
      var max := ToInt32(durationMs);
      seekMax := max;
      endProgress := max;
      startMs := 0;
      endMs := durationMs;
      UpdateLabels();
    }

    /** The rest of `setupVideo()`: while no duration is known, read it from
        the file's metadata (`None` when that fails, which reads as 0). */
    method LoadDuration(metadataDurationMs: Option<int>)
      modifies this`durationMs, this`startMs, this`endMs, this`startLabel, this`endLabel, this`seekMax, this`endProgress
      ensures old(durationMs) > 0 ==> durationMs == old(durationMs) && startMs == old(startMs) && endMs == old(endMs)
      ensures old(durationMs) <= 0 ==> durationMs == metadataDurationMs.GetOr(0)
      ensures old(durationMs) <= 0 && durationMs > 0 ==>
        && startMs == 0 && endMs == durationMs && LabelsShowRange()
        && seekMax == ToInt32(durationMs) && endProgress == ToInt32(durationMs)
      ensures old(durationMs) <= 0 && durationMs <= 0 ==> startMs == old(startMs) && endMs == old(endMs)
      ensures old(durationMs) > 0 || durationMs <= 0 ==>
        startLabel == old(startLabel) && endLabel == old(endLabel) && seekMax == old(seekMax) && endProgress == old(endProgress)
    {
      if durationMs <= 0 {
        durationMs := metadataDurationMs.GetOr(0);
        if durationMs > 0 {
          ShowWholeRange();
        }
      }
    }

    /** The start bar moved to `progress`: the start never passes the end. */
    method OnStartSeek(progress: int, fromUser: bool)
      modifies this`startMs, this`startLabel, this`endLabel, this`positionMs
      ensures !fromUser ==>
        startMs == old(startMs) && positionMs == old(positionMs)
        && startLabel == old(startLabel) && endLabel == old(endLabel)
      ensures fromUser ==>
        && startMs == (if progress <= endMs then progress else endMs)
        && startMs <= endMs
        && LabelsShowRange()
        && positionMs == ToInt32(startMs)
      ensures endMs == old(endMs)
    {
      if !fromUser {
        return;
      }
      startMs := if progress <= endMs then progress else endMs;
      UpdateLabels();
      positionMs := ToInt32(startMs);
    }

    /** The end bar moved to `progress`: the end never comes before the start. */
    method OnEndSeek(progress: int, fromUser: bool)
      modifies this`endMs, this`startLabel, this`endLabel
      ensures !fromUser ==> endMs == old(endMs) && startLabel == old(startLabel) && endLabel == old(endLabel)
      ensures fromUser ==>
        && endMs == (if progress >= startMs then progress else startMs)
        && startMs <= endMs
        && LabelsShowRange()
      ensures startMs == old(startMs)
    {
      if !fromUser {
        return;
      }
      endMs := if progress >= startMs then progress else startMs;
      UpdateLabels();
    }

    /** The play/pause button. */
    method OnPlayPause()
      modifies this`playing, this`positionMs
      ensures playing == !old(playing)
      ensures old(playing) || (startMs <= old(positionMs) <= endMs) ==> positionMs == old(positionMs)
      ensures !old(playing) && !(startMs <= old(positionMs) <= endMs) ==> positionMs == ToInt32(startMs)
    {
      if playing {
        playing := false;
      } else {
        if positionMs < startMs || positionMs > endMs {
          positionMs := ToInt32(startMs);
        }
        playing := true;
      }
    }

    /** `exportTrimmed()`: an empty range shows a toast and nothing else;
        otherwise the controls are disabled and the trim is requested. */
    method ExportTrimmed(recordingPath: string, filesDir: string, timestamp: string)
      returns (request: Option<TrimRequest>)
      modifies this`controlsEnabled, this`toasts
      ensures request.None? <==> !ExportAllowed(startMs, endMs)
      ensures request.None? ==> toasts == old(toasts) + 1 && controlsEnabled == old(controlsEnabled)
      ensures request.Some? ==>
        && request.value == TrimRequest(recordingPath, OutputPath(recordingPath, filesDir, timestamp), startMs, endMs)
        && !controlsEnabled && toasts == old(toasts)
    {
      var trimDuration := endMs - startMs;
      if trimDuration <= 0 {
        toasts := toasts + 1;
        return None;
      }
      var outputPath := OutputPath(recordingPath, filesDir, timestamp);
      controlsEnabled := false;
      request := Some(TrimRequest(recordingPath, outputPath, startMs, endMs));
    }

    /** The trim failed: the controls come back. */
    method OnExportFailed()
      modifies this`controlsEnabled
      ensures controlsEnabled
    {
      controlsEnabled := true;
    }
  }

  /** Whatever the bars are moved to, and in whatever order, the range
      afterwards is ordered. */
  method SeekKeepsOrder(editor: TrimEditor, first: int, second: int, startFirst: bool)
    modifies editor
    ensures editor.startMs <= editor.endMs
  {
    if startFirst {
      editor.OnStartSeek(first, true);
      editor.OnEndSeek(second, true);
    } else {
      editor.OnEndSeek(first, true);
      editor.OnStartSeek(second, true);
    }
  }
}
