/**
 * The editor's trim/remux pipeline (`VideoTrimmer.trim`): copy the samples of
 * a time window from every audio and video track of a container into a new
 * container, rebasing their timestamps and copying bytes and flags unchanged.
 *
 * The demultiplexer is a sequence of samples per track; the multiplexer is a
 * list of output tracks that is only ever appended to. Which platform call
 * throws is an input (`Faults`), so that every exit path can be followed.
 */
module Trimmer {
  import opened Wrappers

  type Byte = bv8

  /** An opaque `MediaFormat`; the output track gets the source track's format verbatim. */
  type Format = nat

  /** `MediaExtractor.SAMPLE_FLAG_SYNC`: the sample is a keyframe. */
  const SAMPLE_FLAG_SYNC: bv32 := 1

  /** Buffer size used when a track's format has no `KEY_MAX_INPUT_SIZE`. */
  const DEFAULT_BUFFER_SIZE: int := 1 * 1024 * 1024

  /** One sample as a reader reports it: time, flags and, when `readSampleData`
      succeeds, its bytes (`None`: the read reports a negative size). */
  datatype Sample = Sample(timeUs: int, flags: bv32, data: Option<seq<Byte>>)

  /** A source track: its MIME type (`None` when the format has none), its
      format, its `KEY_MAX_INPUT_SIZE`, and its samples in stream order. */
  datatype Track = Track(mime: Option<string>, format: Format, maxInputSize: Option<nat>, samples: seq<Sample>)

  /** A sample as written to the multiplexer. */
  datatype OutSample = OutSample(presentationTimeUs: int, flags: bv32, data: seq<Byte>)

  datatype OutTrack = OutTrack(format: Format, samples: seq<OutSample>)

  datatype TrimError =
    | InvalidRange(message: string)
    | InputFault
    | MuxerFault
    | AddTrackFault(track: nat)
    | MuxerStartFault
    | ReaderFault(track: nat)
    | SampleTooLarge(track: nat)
    | WriteFault(track: nat)

  datatype TrimResult = Trimmed | Failed(error: TrimError)

  /** The platform calls `trim` makes, in order (each entry is an attempt). */
  datatype Call =
    | MakeOutputDirs
    | OpenInput
    | CreateMuxer
    | AddTrack(track: nat)
    | StartMuxer
    | OpenReader(track: nat)
    | ReleaseReader(track: nat)
    | ReleaseInput
    | StopMuxer
    | ReleaseMuxer

  /** Which platform call throws: opening the input, creating the muxer, adding
      source track `addTrack`, starting the muxer, opening the reader of source
      track `reader`, the `n`-th `writeSampleData` of source track `t` for
      `write == Some((t, n))`, and stopping the muxer. */
  datatype Faults = Faults(
    openInput: bool,
    createMuxer: bool,
    addTrack: Option<nat>,
    startMuxer: bool,
    reader: Option<nat>,
    write: Option<(nat, nat)>,
    stopMuxer: bool)

  datatype CopyFault = BufferTooSmall | WriteFailed

  // ---------------------------------------------------------------------------
  // Track selection

  predicate StartsWith(s: string, prefix: string) {
    |prefix| <= |s| && s[..|prefix|] == prefix
  }

  /** A track is copied iff its format names a MIME type starting with `audio/` or `video/`. */
  predicate IsMediaTrack(mime: Option<string>) {
    mime.Some? && (StartsWith(mime.value, "audio/") || StartsWith(mime.value, "video/"))
  }

  /** The source indices below `n` of the tracks that are copied, in ascending order. */
  function MediaTracks(input: seq<Track>, n: nat): (r: seq<nat>)
    requires n <= |input|
    ensures forall k :: 0 <= k < |r| ==> r[k] < n && IsMediaTrack(input[r[k]].mime)
    ensures |r| <= n
  {
    if n == 0 then []
    else MediaTracks(input, n - 1) + (if IsMediaTrack(input[n - 1].mime) then [n - 1] else [])
  }

  /** Tracks are copied in source order, each once. */
  lemma {:induction false} MediaTracksIncreasing(input: seq<Track>, n: nat)
    requires n <= |input|
    ensures forall k, l :: 0 <= k < l < |MediaTracks(input, n)| ==> MediaTracks(input, n)[k] < MediaTracks(input, n)[l]
  {
    if n > 0 {
      MediaTracksIncreasing(input, n - 1);
    }
  }

  /** Every audio and video track below `n` is copied. */
  lemma {:induction false} MediaTracksComplete(input: seq<Track>, n: nat)
    requires n <= |input|
    ensures forall j :: 0 <= j < n && IsMediaTrack(input[j].mime) ==> j in MediaTracks(input, n)
  {
    if n > 0 {
      MediaTracksComplete(input, n - 1);
      var r := MediaTracks(input, n);
      forall j | 0 <= j < n && IsMediaTrack(input[j].mime) ensures j in r {
        if j < n - 1 {
          assert j in MediaTracks(input, n - 1);
        } else {
          assert r[|r| - 1] == j;
        }
      }
    }
  }

  // ---------------------------------------------------------------------------
  // Seeking

  predicate IsSync(x: Sample) {
    x.flags & SAMPLE_FLAG_SYNC != 0
  }

  /** Where `seekTo(t, SEEK_TO_PREVIOUS_SYNC)` leaves a reader: on the last
      keyframe whose time is at most `t`, or on the first sample when there is none. */
  function SeekIndex(s: seq<Sample>, t: int): (i: nat)
    ensures i == 0 || i < |s|
    ensures i > 0 ==> IsSync(s[i]) && s[i].timeUs <= t
    ensures forall j :: i < j < |s| ==> !(IsSync(s[j]) && s[j].timeUs <= t)
    decreases |s|
  {
    if |s| == 0 then 0
    else if IsSync(s[|s| - 1]) && s[|s| - 1].timeUs <= t then |s| - 1
    else SeekIndex(s[..|s| - 1], t)
  }

  /** The samples a fresh reader of `track` yields after the seek to `startUs`. */
  function SamplesFromSeek(track: Track, startUs: int): seq<Sample> {
    track.samples[SeekIndex(track.samples, startUs)..]
  }

  // ---------------------------------------------------------------------------
  // The copy loop, specified as filter(t >= startUs, takeWhile(continues, samples))

  /** The copy loop goes on past `x`: `x` is not the end-of-stream marker (a
      negative time), and it either lies before the window (it is skipped
      without being read) or lies at most at `endUs` and is readable. */
  predicate Continues(x: Sample, startUs: int, endUs: int) {
    0 <= x.timeUs && (x.timeUs < startUs || (x.timeUs <= endUs && x.data.Some?))
  }

  function TakeWhileContinues(s: seq<Sample>, startUs: int, endUs: int): seq<Sample> {
    if s == [] || !Continues(s[0], startUs, endUs) then []
    else [s[0]] + TakeWhileContinues(s[1..], startUs, endUs)
  }

  /** The samples at or after `startUs`, in order. */
  function FromStart(s: seq<Sample>, startUs: int): seq<Sample> {
    if s == [] then []
    else (if s[0].timeUs >= startUs then [s[0]] else []) + FromStart(s[1..], startUs)
  }

  /** A sample as the muxer receives it: time rebased by `startUs`, flags and bytes unchanged. */
  function Rebase(x: Sample, startUs: int): OutSample {
    OutSample(x.timeUs - startUs, x.flags, x.data.GetOr([]))
  }

  function RebaseAll(s: seq<Sample>, startUs: int): seq<OutSample> {
    if s == [] then [] else [Rebase(s[0], startUs)] + RebaseAll(s[1..], startUs)
  }

  /** What one track's copy writes when nothing throws. */
  function Emitted(s: seq<Sample>, startUs: int, endUs: int): seq<OutSample> {
    RebaseAll(FromStart(TakeWhileContinues(s, startUs, endUs), startUs), startUs)
  }

  lemma {:induction false} TakeWhileSplit(s: seq<Sample>, i: nat, startUs: int, endUs: int)
    requires i <= |s|
    requires forall j :: 0 <= j < i ==> Continues(s[j], startUs, endUs)
    ensures TakeWhileContinues(s, startUs, endUs) == s[..i] + TakeWhileContinues(s[i..], startUs, endUs)
  {
    if i > 0 {
      TakeWhileSplit(s[1..], i - 1, startUs, endUs);
      assert s[1..][i - 1..] == s[i..];
      assert [s[0]] + s[1..][..i - 1] == s[..i];
    }
  }

  lemma {:induction false} FromStartAppend(a: seq<Sample>, b: seq<Sample>, startUs: int)
    ensures FromStart(a + b, startUs) == FromStart(a, startUs) + FromStart(b, startUs)
  {
    if a != [] {
      assert (a + b)[1..] == a[1..] + b;
      FromStartAppend(a[1..], b, startUs);
    } else {
      assert a + b == b;
    }
  }

  lemma {:induction false} RebaseAllAppend(a: seq<Sample>, b: seq<Sample>, startUs: int)
    ensures RebaseAll(a + b, startUs) == RebaseAll(a, startUs) + RebaseAll(b, startUs)
  {
    if a != [] {
      assert (a + b)[1..] == a[1..] + b;
      RebaseAllAppend(a[1..], b, startUs);
    } else {
      assert a + b == b;
    }
  }

  lemma {:induction false} RebaseAllLength(s: seq<Sample>, startUs: int)
    ensures |RebaseAll(s, startUs)| == |s|
    ensures forall k :: 0 <= k < |s| ==> RebaseAll(s, startUs)[k] == Rebase(s[k], startUs)
  {
    if s != [] {
      RebaseAllLength(s[1..], startUs);
    }
  }

  /** The emitted stream of the first `i` samples, when none of them ends the loop. */
  lemma EmittedPrefix(s: seq<Sample>, i: nat, startUs: int, endUs: int)
    requires i <= |s|
    requires forall j :: 0 <= j < i ==> Continues(s[j], startUs, endUs)
    ensures Emitted(s, startUs, endUs)
         == RebaseAll(FromStart(s[..i], startUs), startUs)
          + Emitted(s[i..], startUs, endUs)
  {
    TakeWhileSplit(s, i, startUs, endUs);
    FromStartAppend(s[..i], TakeWhileContinues(s[i..], startUs, endUs), startUs);
    RebaseAllAppend(FromStart(s[..i], startUs), FromStart(TakeWhileContinues(s[i..], startUs, endUs), startUs), startUs);
  }

  /** Every emitted sample comes from a source sample inside the window
      `[startUs, endUs]` (the end included), with its time rebased by `startUs`
      and its flags and bytes unchanged. */
  lemma {:induction false} EmittedFromWindow(s: seq<Sample>, startUs: int, endUs: int)
    ensures forall o :: o in Emitted(s, startUs, endUs) ==>
      exists x :: x in s && startUs <= x.timeUs <= endUs && x.data == Some(o.data)
        && x.flags == o.flags && o.presentationTimeUs == x.timeUs - startUs
  {
    if s != [] {
      EmittedFromWindow(s[1..], startUs, endUs);
      if Continues(s[0], startUs, endUs) {
        assert TakeWhileContinues(s, startUs, endUs) == [s[0]] + TakeWhileContinues(s[1..], startUs, endUs);
        FromStartAppend([s[0]], TakeWhileContinues(s[1..], startUs, endUs), startUs);
        var head := FromStart([s[0]], startUs);
        var rest := FromStart(TakeWhileContinues(s[1..], startUs, endUs), startUs);
        RebaseAllAppend(head, rest, startUs);
        assert Emitted(s, startUs, endUs) == RebaseAll(head, startUs) + Emitted(s[1..], startUs, endUs);
        forall o | o in Emitted(s, startUs, endUs)
          ensures exists x :: (x in s && startUs <= x.timeUs <= endUs && x.data == Some(o.data)
                               && x.flags == o.flags && o.presentationTimeUs == x.timeUs - startUs)
        {
          if o in RebaseAll(head, startUs) {
            assert s[0] in s;
          } else {
            var x :| x in s[1..] && startUs <= x.timeUs <= endUs && x.data == Some(o.data)
              && x.flags == o.flags && o.presentationTimeUs == x.timeUs - startUs;
            assert x in s;
          }
        }
      }
    }
  }

  /** Emitted presentation times lie in `[0, endUs - startUs]`. */
  lemma EmittedTimesRebased(s: seq<Sample>, startUs: int, endUs: int)
    ensures forall o :: o in Emitted(s, startUs, endUs) ==> 0 <= o.presentationTimeUs <= endUs - startUs
  {
    EmittedFromWindow(s, startUs, endUs);
  }

  /** The copy stops at the first sample that does not continue: nothing after it is emitted. */
  lemma {:induction false} EmittedStopsAtFirstBreak(s: seq<Sample>, i: nat, startUs: int, endUs: int)
    requires i < |s|
    requires forall j :: 0 <= j < i ==> Continues(s[j], startUs, endUs)
    requires !Continues(s[i], startUs, endUs)
    ensures Emitted(s, startUs, endUs) == Emitted(s[..i], startUs, endUs)
  {
    TakeWhileSplit(s, i, startUs, endUs);
    TakeWhileSplit(s[..i], i, startUs, endUs);
    assert s[..i][..i] == s[..i];
    assert s[..i][i..] == [];
    assert TakeWhileContinues(s[i..], startUs, endUs) == [];
  }

  /** The end bound is inclusive: a readable sample exactly at `endUs` is emitted. */
  lemma EndBoundInclusive(x: Sample, startUs: int, endUs: int)
    requires 0 <= startUs <= endUs && x.timeUs == endUs && x.data.Some?
    ensures Emitted([x], startUs, endUs) == [OutSample(endUs - startUs, x.flags, x.data.value)]
  {
    assert [x][1..] == [];
    assert TakeWhileContinues([x], startUs, endUs) == [x];
    assert FromStart([x], startUs) == [x];
    assert RebaseAll([x], startUs) == [Rebase(x, startUs)];
  }

  /** Trimming from 0 a stream whose samples all lie in `[0, endUs]` and are readable
      reproduces every sample: same time, same flags, same bytes. */
  lemma {:induction false} FullRangeReproduces(s: seq<Sample>, endUs: int)
    requires forall j :: 0 <= j < |s| ==> 0 <= s[j].timeUs <= endUs && s[j].data.Some?
    ensures |Emitted(s, 0, endUs)| == |s|
    ensures forall j :: 0 <= j < |s| ==>
      Emitted(s, 0, endUs)[j] == OutSample(s[j].timeUs, s[j].flags, s[j].data.value)
  {
    if s != [] {
      FullRangeReproduces(s[1..], endUs);
      assert TakeWhileContinues(s, 0, endUs) == [s[0]] + TakeWhileContinues(s[1..], 0, endUs);
      FromStartAppend([s[0]], TakeWhileContinues(s[1..], 0, endUs), 0);
      RebaseAllAppend([s[0]], FromStart(TakeWhileContinues(s[1..], 0, endUs), 0), 0);
      assert FromStart([s[0]], 0) == [s[0]];
      assert RebaseAll([s[0]], 0) == [Rebase(s[0], 0)];
    }
  }

  /** With timestamps starting at 0 and strictly increasing, the seek to 0 lands on the first sample. */
  lemma SeekToZeroIsFirst(s: seq<Sample>)
    requires forall j :: 0 <= j < |s| ==> s[j].timeUs >= 0
    requires forall j, k :: 0 <= j < k < |s| ==> s[j].timeUs < s[k].timeUs
    ensures SeekIndex(s, 0) == 0
  {
    var i := SeekIndex(s, 0);
    if |s| > 0 {
      var first := s[0];
      if i > 0 {
        assert false;
      }
    }
  }

  // ---------------------------------------------------------------------------
  // The per-track copy loop

  /** Reading one more sample extends what the loop has written by that
      sample, rebased, when it lies in the window. */
  lemma {:induction false} WrittenStep(prefix: seq<Sample>, x: Sample, startUs: int)
    ensures RebaseAll(FromStart(prefix + [x], startUs), startUs)
         == RebaseAll(FromStart(prefix, startUs), startUs) + (if x.timeUs >= startUs then [Rebase(x, startUs)] else [])
  {
    assert [x][1..] == [];
    FromStartAppend(prefix, [x], startUs);
    if x.timeUs >= startUs {
      assert FromStart([x], startUs) == [x];
      assert RebaseAll([x], startUs) == [Rebase(x, startUs)];
      RebaseAllAppend(FromStart(prefix, startUs), [x], startUs);
    } else {
      assert FromStart([x], startUs) == [];
      assert FromStart(prefix, startUs) + [] == FromStart(prefix, startUs);
    }
  }

  /** What is emitted from position `i` on: nothing once the loop stops, and
      first the sample at `i` when that one is in the window. */
  lemma {:induction false} EmittedFrom(s: seq<Sample>, i: nat, startUs: int, endUs: int)
    requires i <= |s|
    ensures (i == |s| || !Continues(s[i], startUs, endUs)) ==> Emitted(s[i..], startUs, endUs) == []
    ensures i < |s| && Continues(s[i], startUs, endUs) && s[i].timeUs >= startUs ==>
      |Emitted(s[i..], startUs, endUs)| > 0 && Emitted(s[i..], startUs, endUs)[0] == Rebase(s[i], startUs)
  {
    if i == |s| {
      assert s[i..] == [];
    } else {
      var x := s[i];
      assert s[i..] == [x] + s[i + 1..];
      if Continues(x, startUs, endUs) && x.timeUs >= startUs {
        var rest := TakeWhileContinues(s[i + 1..], startUs, endUs);
        assert TakeWhileContinues(s[i..], startUs, endUs) == [x] + rest;
        FromStartAppend([x], rest, startUs);
        assert FromStart([x], startUs) == [x];
        RebaseAllAppend([x], FromStart(rest, startUs), startUs);
      }
    }
  }

  /** One track's copy loop, from the seek point. `capacity` is the buffer
      size; `writeFailsAt == Some(n)` makes the `n`-th write throw. What it
      writes is always a prefix of `Emitted`, and all of it when nothing throws. */
  method CopySamples(s: seq<Sample>, startUs: int, endUs: int, capacity: int, writeFailsAt: Option<nat>)
    returns (written: seq<OutSample>, failed: Option<CopyFault>)
    ensures |written| <= |Emitted(s, startUs, endUs)|
    ensures written == Emitted(s, startUs, endUs)[..|written|]
    ensures failed.None? ==> written == Emitted(s, startUs, endUs)
    ensures failed.None? ==> writeFailsAt.None? || writeFailsAt.value >= |Emitted(s, startUs, endUs)|
    ensures failed.None? ==> forall o :: o in Emitted(s, startUs, endUs) ==> |o.data| <= capacity
    ensures failed == Some(WriteFailed) ==>
      writeFailsAt == Some(|written|) && |written| < |Emitted(s, startUs, endUs)|
    ensures failed == Some(BufferTooSmall) ==>
      |written| < |Emitted(s, startUs, endUs)| && |Emitted(s, startUs, endUs)[|written|].data| > capacity
  {
    var i := 0;
    written := [];
    failed := None;
    while i < |s|
      invariant 0 <= i <= |s|
      invariant forall j :: 0 <= j < i ==> Continues(s[j], startUs, endUs)
      invariant written == RebaseAll(FromStart(s[..i], startUs), startUs)
      invariant failed.None?
      invariant writeFailsAt.None? || writeFailsAt.value >= |written|
      invariant AllFit(written, capacity)
    {
      var x := s[i];
      assert s[..i + 1] == s[..i] + [x];
      WrittenStep(s[..i], x, startUs);
      if x.timeUs < 0 {
        break;
      }
      if x.timeUs < startUs {
        i := i + 1;
        continue;
      }
      if x.timeUs > endUs {
        break;
      }
      if x.data.None? {
        break;
      }
      var bytes := x.data.value;
      if |bytes| > capacity {
        failed := Some(BufferTooSmall);
        break;
      }
      if writeFailsAt == Some(|written|) {
        failed := Some(WriteFailed);
        break;
      }
      AllFitAppend(written, Rebase(x, startUs), capacity);
      written := written + [Rebase(x, startUs)];
      i := i + 1;
    }
    CopyOutcome(s, i, startUs, endUs, capacity, writeFailsAt, written, failed);
  }

  /** Every sample written so far fitted the buffer. */
  predicate AllFit(written: seq<OutSample>, capacity: int) {
    forall j :: 0 <= j < |written| ==> |written[j].data| <= capacity
  }

  lemma AllFitAppend(written: seq<OutSample>, o: OutSample, capacity: int)
    requires AllFit(written, capacity) && |o.data| <= capacity
    ensures AllFit(written + [o], capacity)
  {
  }

  /** What the copy loop has done when it leaves at sample `i`, by how it
      left: with no error sample `i` ends the stream, and with an error sample
      `i` was in the window and its write failed or did not fit. */
  lemma CopyOutcome(s: seq<Sample>, i: nat, startUs: int, endUs: int, capacity: int, writeFailsAt: Option<nat>,
                    written: seq<OutSample>, failed: Option<CopyFault>)
    requires i <= |s|
    requires forall j :: 0 <= j < i ==> Continues(s[j], startUs, endUs)
    requires written == RebaseAll(FromStart(s[..i], startUs), startUs)
    requires writeFailsAt.None? || writeFailsAt.value >= |written|
    requires AllFit(written, capacity)
    requires failed.None? ==> i == |s| || !Continues(s[i], startUs, endUs)
    requires failed.Some? ==> i < |s| && Continues(s[i], startUs, endUs) && s[i].timeUs >= startUs
    requires failed == Some(BufferTooSmall) ==> |s[i].data.value| > capacity
    requires failed == Some(WriteFailed) ==> writeFailsAt == Some(|written|)
    ensures |written| <= |Emitted(s, startUs, endUs)|
    ensures written == Emitted(s, startUs, endUs)[..|written|]
    ensures failed.None? ==> written == Emitted(s, startUs, endUs)
    ensures failed.None? ==> writeFailsAt.None? || writeFailsAt.value >= |Emitted(s, startUs, endUs)|
    ensures failed.None? ==> forall o :: o in Emitted(s, startUs, endUs) ==> |o.data| <= capacity
    ensures failed == Some(WriteFailed) ==>
      writeFailsAt == Some(|written|) && |written| < |Emitted(s, startUs, endUs)|
    ensures failed == Some(BufferTooSmall) ==>
      |written| < |Emitted(s, startUs, endUs)| && |Emitted(s, startUs, endUs)[|written|].data| > capacity
  {
    EmittedPrefix(s, i, startUs, endUs);
    EmittedFrom(s, i, startUs, endUs);
  }

  // ---------------------------------------------------------------------------
  // The whole operation

  function BufferCapacity(t: Track): int {
    t.maxInputSize.GetOr(DEFAULT_BUFFER_SIZE)
  }

  /** What the copy of `t` writes when nothing throws. */
  function TrackOutput(t: Track, startUs: int, endUs: int): seq<OutSample> {
    Emitted(SamplesFromSeek(t, startUs), startUs, endUs)
  }

  /** No sample the copy of `t` reads is larger than its buffer. */
  predicate FitsBuffer(t: Track, startUs: int, endUs: int) {
    forall o :: o in TrackOutput(t, startUs, endUs) ==> |o.data| <= BufferCapacity(t)
  }

  /** The copy of source track `src` throws: its reader fails to open, one
      of the writes it makes throws, or one of the samples it reads is larger
      than its buffer. */
  predicate TrackFails(input: seq<Track>, src: nat, startUs: int, endUs: int, faults: Faults)
    requires src < |input|
  {
    || faults.reader == Some(src)
    || (faults.write.Some? && faults.write.value.0 == src
        && faults.write.value.1 < |TrackOutput(input[src], startUs, endUs)|)
    || !FitsBuffer(input[src], startUs, endUs)
  }

  /** The copy of no copied track throws. */
  predicate CopiesClean(input: seq<Track>, startUs: int, endUs: int, faults: Faults) {
    var kept := MediaTracks(input, |input|);
    forall k :: 0 <= k < |kept| ==> !TrackFails(input, kept[k], startUs, endUs, faults)
  }

  /** No sample read from a copied track is larger than that track's buffer;
      tracks that are not copied are never read. */
  predicate CopiedTracksFit(input: seq<Track>, startUs: int, endUs: int) {
    var kept := MediaTracks(input, |input|);
    forall k :: 0 <= k < |kept| ==> FitsBuffer(input[kept[k]], startUs, endUs)
  }

  /** The output container a successful trim produces: one output track per
      copied source track, in source order. */
  function ExpectedOutput(input: seq<Track>, startUs: int, endUs: int): (r: seq<OutTrack>)
    ensures |r| == |MediaTracks(input, |input|)|
  {
    var kept := MediaTracks(input, |input|);
    seq(|kept|, k requires 0 <= k < |kept| =>
      OutTrack(input[kept[k]].format, TrackOutput(input[kept[k]], startUs, endUs)))
  }

  predicate RangeValid(startMs: int, endMs: int) {
    startMs >= 0 && endMs > startMs
  }

  /** `trim` reaches its `try` block: the range is valid, and opening the input,
      creating the muxer and adding every copied track all succeed. */
  predicate EntersTry(input: seq<Track>, startMs: int, endMs: int, faults: Faults) {
    && RangeValid(startMs, endMs)
    && !faults.openInput
    && !faults.createMuxer
    && (faults.addTrack.None? || faults.addTrack.value !in MediaTracks(input, |input|))
  }

  /** Every reader opened is released by the very next call. */
  predicate ReadersReleased(log: seq<Call>) {
    forall i :: 0 <= i < |log| && log[i].OpenReader? ==>
      i + 1 < |log| && log[i + 1] == ReleaseReader(log[i].track)
  }

  predicate IsPrefix<T(==)>(a: seq<T>, b: seq<T>) {
    |a| <= |b| && a == b[..|a|]
  }

  /** The muxer holds one empty output track per entry of `trackMap`, and
      `trackMap` pairs the first `|trackMap|` copied source tracks with the
      output tracks `0, 1, ...`. */
  ghost predicate Registered(input: seq<Track>, kept: seq<nat>, muxer: seq<OutTrack>, trackMap: seq<(nat, nat)>) {
    && |muxer| == |trackMap| <= |kept|
    && (forall k :: 0 <= k < |kept| ==> kept[k] < |input|)
    && forall k :: 0 <= k < |trackMap| ==>
         trackMap[k] == (kept[k], k) && muxer[k] == OutTrack(input[kept[k]].format, [])
  }

  lemma RegisteredExtends(input: seq<Track>, kept: seq<nat>, kept': seq<nat>, muxer: seq<OutTrack>, trackMap: seq<(nat, nat)>)
    requires Registered(input, kept, muxer, trackMap)
    requires |kept| <= |kept'| && kept'[..|kept|] == kept
    requires forall k :: 0 <= k < |kept'| ==> kept'[k] < |input|
    ensures Registered(input, kept', muxer, trackMap)
  {
    forall k | 0 <= k < |trackMap|
      ensures trackMap[k] == (kept'[k], k) && muxer[k] == OutTrack(input[kept'[k]].format, [])
    {
      assert kept'[k] == kept'[..|kept|][k];
    }
  }

  /** Register every copied track with the muxer, in source order. */
  lemma {:induction false} RegisteredAppend(input: seq<Track>, kept: seq<nat>, muxer: seq<OutTrack>, trackMap: seq<(nat, nat)>, n: nat)
    requires Registered(input, kept, muxer, trackMap) && |muxer| == |kept| && n < |input|
    ensures Registered(input, kept + [n], muxer + [OutTrack(input[n].format, [])], trackMap + [(n, |trackMap|)])
  {
  }

  /** Registration stops at copied source track `n`: what is registered so
      far is a prefix of all of them, and `n` is one of them. */
  lemma {:induction false} RegisteredBeforeFailure(input: seq<Track>, n: nat, muxer: seq<OutTrack>, trackMap: seq<(nat, nat)>)
    requires n < |input| && IsMediaTrack(input[n].mime)
    requires Registered(input, MediaTracks(input, n), muxer, trackMap)
    ensures Registered(input, MediaTracks(input, |input|), muxer, trackMap)
    ensures n in MediaTracks(input, |input|)
  {
    MediaTracksPrefix(input, n, |input|);
    RegisteredExtends(input, MediaTracks(input, n), MediaTracks(input, |input|), muxer, trackMap);
  }

  method AddTracks(input: seq<Track>, failAt: Option<nat>)
    returns (muxer: seq<OutTrack>, trackMap: seq<(nat, nat)>, log: seq<Call>, failed: bool)
    ensures failed <==> failAt.Some? && failAt.value in MediaTracks(input, |input|)
    ensures Registered(input, MediaTracks(input, |input|), muxer, trackMap)
    ensures !failed ==> |muxer| == |MediaTracks(input, |input|)|
    ensures forall i :: 0 <= i < |log| ==> log[i].AddTrack?
  {
    muxer, trackMap, log, failed := [], [], [], false;
    var n := 0;
    ghost var kept: seq<nat> := [];
    while n < |input|
      invariant 0 <= n <= |input|
      invariant kept == MediaTracks(input, n)
      invariant Registered(input, kept, muxer, trackMap) && |muxer| == |kept|
      invariant failAt.Some? && failAt.value < n ==> failAt.value !in kept
      invariant forall i :: 0 <= i < |log| ==> log[i].AddTrack?
    {
      if IsMediaTrack(input[n].mime) {
        log := log + [AddTrack(n)];
        if failAt == Some(n) {
          failed := true;
          RegisteredBeforeFailure(input, n, muxer, trackMap);
          return;
        }
        RegisteredAppend(input, kept, muxer, trackMap, n);
        muxer := muxer + [OutTrack(input[n].format, [])];
        trackMap := trackMap + [(n, |trackMap|)];
        kept := kept + [n];
      }
      n := n + 1;
    }
  }

  /** Opening a reader and releasing it right away keeps every reader released. */
  lemma ReaderSessionReleased(log: seq<Call>, src: nat)
    requires ReadersReleased(log)
    ensures ReadersReleased(log + [OpenReader(src), ReleaseReader(src)])
  {
    var log' := log + [OpenReader(src), ReleaseReader(src)];
    forall i | 0 <= i < |log'| && log'[i].OpenReader?
      ensures i + 1 < |log'| && log'[i + 1] == ReleaseReader(log'[i].track)
    {
      if i < |log| {
        assert log'[i] == log[i];
      }
    }
  }

  /** `MediaTracks(input, n)` is a prefix of `MediaTracks(input, m)` for `n <= m`;
      the new entries are all at least `n`, and the entry `n` itself if copied. */
  lemma {:induction false} MediaTracksPrefix(input: seq<Track>, n: nat, m: nat)
    requires n < m <= |input|
    requires IsMediaTrack(input[n].mime)
    ensures |MediaTracks(input, n)| < |MediaTracks(input, m)|
    ensures MediaTracks(input, m)[..|MediaTracks(input, n)|] == MediaTracks(input, n)
    ensures MediaTracks(input, m)[|MediaTracks(input, n)|] == n
  {
    var a := MediaTracks(input, n);
    var c := MediaTracks(input, m);
    if m == n + 1 {
      assert c == a + [n];
    } else {
      var b := MediaTracks(input, m - 1);
      MediaTracksPrefix(input, n, m - 1);
      MediaTracksStep(input, m);
      assert c[..|a|] == b[..|a|];
      assert c[|a|] == b[|a|];
    }
  }

  /** One more track visited only appends to the kept indices. */
  lemma MediaTracksStep(input: seq<Track>, m: nat)
    requires 0 < m <= |input|
    ensures var b := MediaTracks(input, m - 1);
      |b| <= |MediaTracks(input, m)| && MediaTracks(input, m)[..|b|] == b
  {
  }

  /** What the muxer holds is, track by track, a prefix of what a successful
      trim writes: every write went to the right output track, in order. */
  ghost predicate WrittenSoFar(input: seq<Track>, muxer: seq<OutTrack>, startUs: int, endUs: int) {
    var kept := MediaTracks(input, |input|);
    && |muxer| <= |kept|
    && forall k :: 0 <= k < |muxer| ==>
         muxer[k].format == input[kept[k]].format
         && IsPrefix(muxer[k].samples, TrackOutput(input[kept[k]], startUs, endUs))
  }

  /** The first `k` output tracks are complete, and the rest still empty. */
  ghost predicate CopiedUpTo(input: seq<Track>, muxer: seq<OutTrack>, k: nat, startUs: int, endUs: int) {
    var kept := MediaTracks(input, |input|);
    && |muxer| == |kept|
    && k <= |kept|
    && (forall j :: 0 <= j < |muxer| ==> muxer[j].format == input[kept[j]].format)
    && (forall j :: 0 <= j < k ==> muxer[j].samples == TrackOutput(input[kept[j]], startUs, endUs))
    && (forall j :: k <= j < |muxer| ==> muxer[j].samples == [])
  }

  lemma {:induction false} CopiedAllIsExpected(input: seq<Track>, muxer: seq<OutTrack>, startUs: int, endUs: int)
    requires CopiedUpTo(input, muxer, |muxer|, startUs, endUs)
    ensures muxer == ExpectedOutput(input, startUs, endUs)
  {
    var e := ExpectedOutput(input, startUs, endUs);
    forall j | 0 <= j < |muxer| ensures muxer[j] == e[j] {
    }
  }

  /** Output track `k` holds a prefix of its samples, those before it all of theirs, those after none. */
  lemma {:induction false} PartialCopyIsPrefix(input: seq<Track>, muxer: seq<OutTrack>, k: nat, written: seq<OutSample>, startUs: int, endUs: int)
    requires CopiedUpTo(input, muxer, k, startUs, endUs) && k < |muxer|
    requires IsPrefix(written, TrackOutput(input[MediaTracks(input, |input|)[k]], startUs, endUs))
    ensures WrittenSoFar(input, muxer[k := OutTrack(muxer[k].format, muxer[k].samples + written)], startUs, endUs)
  {
    var kept := MediaTracks(input, |input|);
    var m := muxer[k := OutTrack(muxer[k].format, muxer[k].samples + written)];
    forall j | 0 <= j < |m|
      ensures IsPrefix(m[j].samples, TrackOutput(input[kept[j]], startUs, endUs))
    {
      var full := TrackOutput(input[kept[j]], startUs, endUs);
      if j < k {
        assert full[..|full|] == full;
      } else if j == k {
        assert [] + written == written;
      } else {
        assert full[..0] == [];
      }
    }
  }

  lemma {:induction false} CopiedIsWritten(input: seq<Track>, muxer: seq<OutTrack>, k: nat, startUs: int, endUs: int)
    requires CopiedUpTo(input, muxer, k, startUs, endUs)
    ensures WrittenSoFar(input, muxer, startUs, endUs)
  {
    var kept := MediaTracks(input, |input|);
    forall j | 0 <= j < |muxer|
      ensures IsPrefix(muxer[j].samples, TrackOutput(input[kept[j]], startUs, endUs))
    {
      var full := TrackOutput(input[kept[j]], startUs, endUs);
      if j < k {
        assert full[..|full|] == full;
      } else {
        assert full[..0] == [];
      }
    }
  }

  lemma {:induction false} EmptyWrittenSoFar(input: seq<Track>, muxer: seq<OutTrack>, trackMap: seq<(nat, nat)>, startUs: int, endUs: int)
    requires Registered(input, MediaTracks(input, |input|), muxer, trackMap)
    ensures WrittenSoFar(input, muxer, startUs, endUs)
  {
    var kept := MediaTracks(input, |input|);
    forall k | 0 <= k < |muxer|
      ensures IsPrefix(muxer[k].samples, TrackOutput(input[kept[k]], startUs, endUs))
    {
      assert muxer[k].samples == [];
    }
  }

  lemma {:induction false} ReadersReleasedConcat(a: seq<Call>, b: seq<Call>)
    requires ReadersReleased(a) && ReadersReleased(b)
    requires a == [] || !a[|a| - 1].OpenReader?
    ensures ReadersReleased(a + b)
  {
    forall i | 0 <= i < |a + b| && (a + b)[i].OpenReader?
      ensures i + 1 < |a + b| && (a + b)[i + 1] == ReleaseReader((a + b)[i].track)
    {
      if i < |a| {
        assert a[i].OpenReader?;
      } else {
        assert b[i - |a|].OpenReader?;
      }
    }
  }

  /** One pass of the `for` loop over the registered tracks: a fresh reader
      for the `k`-th copied source track, seeked to `startUs`, copied into
      output track `k`. */
  method CopyTrack(input: seq<Track>, muxer: seq<OutTrack>, k: nat, startUs: int, endUs: int, faults: Faults)
    returns (muxer': seq<OutTrack>, error: Option<TrimError>)
    requires CopiedUpTo(input, muxer, k, startUs, endUs) && k < |muxer|
    ensures error.None? ==> CopiedUpTo(input, muxer', k + 1, startUs, endUs)
    ensures WrittenSoFar(input, muxer', startUs, endUs)
    ensures error.Some? <==> TrackFails(input, MediaTracks(input, |input|)[k], startUs, endUs, faults)
  {
    var src := MediaTracks(input, |input|)[k];
    var track := input[src];
    if faults.reader == Some(src) {
      PartialCopyIsPrefix(input, muxer, k, [], startUs, endUs);
      assert muxer[k := OutTrack(muxer[k].format, muxer[k].samples + [])] == muxer;
      return muxer, Some(ReaderFault(src));
    }
    var failAt := if faults.write.Some? && faults.write.value.0 == src then Some(faults.write.value.1) else None;
    var written, failed := CopySamples(SamplesFromSeek(track, startUs), startUs, endUs, BufferCapacity(track), failAt);
    PartialCopyIsPrefix(input, muxer, k, written, startUs, endUs);
    muxer' := muxer[k := OutTrack(muxer[k].format, muxer[k].samples + written)];
    match failed {
      case None =>
        assert [] + written == written;
        error := None;
      case Some(WriteFailed) =>
        error := Some(WriteFault(src));
      case Some(BufferTooSmall) =>
        error := Some(SampleTooLarge(src));
        var tooBig := TrackOutput(track, startUs, endUs)[|written|];
        assert tooBig in TrackOutput(track, startUs, endUs);
    }
  }

  /** The `try` block: start the muxer, then copy each registered track with its own reader. */
  method CopyTracks(input: seq<Track>, trackMap: seq<(nat, nat)>, muxer0: seq<OutTrack>,
                    startUs: int, endUs: int, faults: Faults)
    returns (muxer: seq<OutTrack>, log: seq<Call>, error: Option<TrimError>, started: bool)
    requires Registered(input, MediaTracks(input, |input|), muxer0, trackMap)
    requires |muxer0| == |MediaTracks(input, |input|)|
    ensures started <==> !faults.startMuxer
    ensures !started ==> muxer == muxer0
    ensures |log| > 0 && log[0] == StartMuxer
    ensures WrittenSoFar(input, muxer, startUs, endUs)
    ensures error.None? ==> started && muxer == ExpectedOutput(input, startUs, endUs)
    ensures (!faults.startMuxer && faults.reader.None? && faults.write.None?
             && CopiedTracksFit(input, startUs, endUs)) ==> error.None?
    ensures error.None? <==> !faults.startMuxer && CopiesClean(input, startUs, endUs, faults)
    ensures ReadersReleased(log) && InTry(log)
  {
    muxer := muxer0;
    log := [StartMuxer];
    error := None;
    started := false;
    if faults.startMuxer {
      error := Some(MuxerStartFault);
      EmptyWrittenSoFar(input, muxer, trackMap, startUs, endUs);
      return;
    }
    started := true;
    ghost var kept := MediaTracks(input, |input|);
    var k := 0;
    while k < |trackMap|
      invariant 0 <= k <= |trackMap| == |kept|
      invariant CopiedUpTo(input, muxer, k, startUs, endUs) && error.None?
      invariant forall j :: 0 <= j < k ==> !TrackFails(input, kept[j], startUs, endUs, faults)
      invariant |log| > 0 && log[0] == StartMuxer && ReadersReleased(log) && InTry(log)
    {
      var (src, dst) := trackMap[k];
      assert src == kept[k] && dst == k;
      ReaderSessionReleased(log, src);
      log := log + [OpenReader(src), ReleaseReader(src)];
      muxer, error := CopyTrack(input, muxer, k, startUs, endUs, faults);
      if error.Some? {
        return;
      }
      k := k + 1;
    }
    CopiedAllIsExpected(input, muxer, startUs, endUs);
    CopiedIsWritten(input, muxer, k, startUs, endUs);
  }

  /** None of the calls whose failure aborts the trim throws (stopping the muxer may). */
  predicate NothingThrows(faults: Faults) {
    && !faults.openInput
    && !faults.createMuxer
    && faults.addTrack.None?
    && !faults.startMuxer
    && faults.reader.None?
    && faults.write.None?
  }

  /** The `finally` block ran: the input is released, then the muxer is stopped
      (if `stopped`) and released, last. */
  predicate EndsWithRelease(log: seq<Call>, stopped: bool) {
    if stopped then |log| >= 3 && log[|log| - 3..] == [ReleaseInput, StopMuxer, ReleaseMuxer]
    else |log| >= 2 && log[|log| - 2..] == [ReleaseInput, ReleaseMuxer]
  }

  /** No entry of `log` is a reader, the input's release or the muxer's stop:
      what `trim` calls before its `try` block. */
  predicate BeforeTry(log: seq<Call>) {
    forall i :: 0 <= i < |log| ==> log[i].MakeOutputDirs? || log[i].OpenInput? || log[i].CreateMuxer? || log[i].AddTrack?
  }

  /** What the copy calls: the muxer's start and reader sessions. */
  predicate InTry(log: seq<Call>) {
    forall i :: 0 <= i < |log| ==> log[i].StartMuxer? || log[i].OpenReader? || log[i].ReleaseReader?
  }

  function FinallyCalls(started: bool): seq<Call> {
    [ReleaseInput] + (if started then [StopMuxer] else []) + [ReleaseMuxer]
  }

  lemma {:induction false} TrimLogReaders(head: seq<Call>, tryLog: seq<Call>, started: bool)
    requires BeforeTry(head) && InTry(tryLog) && ReadersReleased(tryLog)
    ensures ReadersReleased(head + tryLog + FinallyCalls(started))
  {
    BeforeTryLog(head);
    ReadersReleasedConcat(head, tryLog);
    var both := head + tryLog;
    ReadersReleasedConcat(both, FinallyCalls(started));
  }

  lemma {:induction false} NoReleaseBeforeFinally(head: seq<Call>, tryLog: seq<Call>)
    requires BeforeTry(head) && InTry(tryLog)
    ensures ReleaseInput !in head + tryLog && StopMuxer !in head + tryLog
  {
    var both := head + tryLog;
    forall i | 0 <= i < |both| ensures both[i] != ReleaseInput && both[i] != StopMuxer {
      if i < |head| {
        assert both[i] == head[i];
      } else {
        assert both[i] == tryLog[i - |head|];
      }
    }
  }

  lemma {:induction false} FinallyEnds(before: seq<Call>, started: bool)
    ensures ReleaseInput in before + FinallyCalls(started)
    ensures StopMuxer in FinallyCalls(started) <==> started
    ensures EndsWithRelease(before + FinallyCalls(started), started)
  {
    var log := before + FinallyCalls(started);
    assert log[|before|] == ReleaseInput;
    if started {
      assert log[|log| - 3..] == FinallyCalls(started);
    } else {
      assert log[|log| - 2..] == FinallyCalls(started);
    }
  }

  lemma {:induction false} TrimLogReleases(head: seq<Call>, tryLog: seq<Call>, started: bool)
    requires BeforeTry(head) && InTry(tryLog)
    ensures var log := head + tryLog + FinallyCalls(started);
      && ReleaseInput in log
      && (StopMuxer in log <==> started)
      && EndsWithRelease(log, started)
  {
    NoReleaseBeforeFinally(head, tryLog);
    FinallyEnds(head + tryLog, started);
  }

  lemma {:induction false} BeforeTryLog(log: seq<Call>)
    requires BeforeTry(log)
    ensures ReadersReleased(log) && ReleaseInput !in log && StopMuxer !in log
  {
    forall i | 0 <= i < |log| ensures !log[i].OpenReader? {
    }
  }

  /** The calls `trim` makes before its `try` block: open the input, create
      the muxer, register every copied track. */
  method Prepare(input: seq<Track>, faults: Faults)
    returns (muxer: seq<OutTrack>, trackMap: seq<(nat, nat)>, log: seq<Call>, error: Option<TrimError>)
    ensures error.None? <==>
      && !faults.openInput
      && !faults.createMuxer
      && (faults.addTrack.None? || faults.addTrack.value !in MediaTracks(input, |input|))
    ensures Registered(input, MediaTracks(input, |input|), muxer, trackMap)
    ensures error.None? ==> |muxer| == |MediaTracks(input, |input|)|
    ensures BeforeTry(log)
  {
    muxer, trackMap := [], [];
    log := [OpenInput];
    if faults.openInput {
      return muxer, trackMap, log, Some(InputFault);
    }
    log := log + [CreateMuxer];
    if faults.createMuxer {
      return muxer, trackMap, log, Some(MuxerFault);
    }
    var addLog, addFailed;
    muxer, trackMap, addLog, addFailed := AddTracks(input, faults.addTrack);
    log := log + addLog;
    error := if addFailed then Some(AddTrackFault(faults.addTrack.value)) else None;
  }

  /** `VideoTrimmer.trim(input, output, startMs, endMs)`. Returns how it ended,
      the output tracks as written, and the platform calls made. */
  method Trim(input: seq<Track>, startMs: int, endMs: int, faults: Faults)
    returns (result: TrimResult, muxer: seq<OutTrack>, log: seq<Call>)
    ensures !RangeValid(startMs, endMs) ==> result.Failed? && result.error.InvalidRange? && muxer == [] && log == []
    ensures RangeValid(startMs, endMs) ==> |log| > 0 && log[0] == MakeOutputDirs
    ensures result == Trimmed ==> muxer == ExpectedOutput(input, startMs * 1000, endMs * 1000)
    ensures (RangeValid(startMs, endMs) && NothingThrows(faults)
             && CopiedTracksFit(input, startMs * 1000, endMs * 1000)) ==> result == Trimmed
    ensures RangeValid(startMs, endMs) ==>
      (result == Trimmed <==>
        EntersTry(input, startMs, endMs, faults) && !faults.startMuxer
        && CopiesClean(input, startMs * 1000, endMs * 1000, faults))
    ensures WrittenSoFar(input, muxer, startMs * 1000, endMs * 1000)
    ensures faults.startMuxer ==> forall k :: 0 <= k < |muxer| ==> muxer[k].samples == []
    ensures ReadersReleased(log)
    ensures ReleaseInput in log <==> EntersTry(input, startMs, endMs, faults)
    ensures StopMuxer in log <==> EntersTry(input, startMs, endMs, faults) && !faults.startMuxer
    ensures EntersTry(input, startMs, endMs, faults) ==> EndsWithRelease(log, !faults.startMuxer)
  {
    muxer := [];
    log := [];
    if startMs < 0 {
      return Failed(InvalidRange("startMs must be >= 0")), muxer, log;
    }
    if endMs <= startMs {
      return Failed(InvalidRange("endMs must be > startMs")), muxer, log;
    }
    var startUs := startMs * 1000;
    var endUs := endMs * 1000;
    var trackMap, prepLog, error;
    muxer, trackMap, prepLog, error := Prepare(input, faults);
    EmptyWrittenSoFar(input, muxer, trackMap, startUs, endUs);
    log := [MakeOutputDirs] + prepLog;
    if error.Some? {
      BeforeTryLog(log);
      return Failed(error.value), muxer, log;
    }
    var tryLog, started;
    muxer, tryLog, error, started := CopyTracks(input, trackMap, muxer, startUs, endUs, faults);
    // finally: the input extractor, then the muxer (stopped only if started, its errors swallowed)
    TrimLogReaders(log, tryLog, started);
    TrimLogReleases(log, tryLog, started);
    log := log + tryLog + FinallyCalls(started);
    result := if error.Some? then Failed(error.value) else Trimmed;
  }

  /** A trim whose input cannot be opened fails, and so does one in which
      the reader of a copied track fails to open. */
  method FaultsFailTrim(input: seq<Track>, k: nat) returns (openFailed: TrimResult, readerFailed: TrimResult)
    requires k < |MediaTracks(input, |input|)|
    ensures openFailed.Failed?
    ensures readerFailed.Failed?
  {
    var muxer, log;
    openFailed, muxer, log := Trim(input, 0, 10, Faults(true, false, None, false, None, None, false));
    readerFailed, muxer, log :=
      Trim(input, 0, 10, Faults(false, false, None, false, Some(MediaTracks(input, |input|)[k]), None, false));
  }
}
