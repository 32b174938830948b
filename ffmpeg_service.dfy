/**
 * The FFmpeg command layer (src/main/services/ffmpegService.ts): the checks
 * made before a process is spawned, the exact argument vectors, the progress
 * figure parsed from ffmpeg's diagnostic stream, and the mapping of exit codes
 * to results and errors. A spawned process is an oracle: the chunks it writes
 * and the way it ends are parameters.
 */
module FFmpeg {
  import opened Shared
  import opened Strings
  import opened FileSystem

  /** A plain `Error`, or an `FFmpegError` with its exit code and captured stderr. */
  datatype MediaError =
    | PlainError(message: string)
    | FFmpegError(message: string, exitCode: Option<int>, stderr: Option<string>)

  /** The bundled binaries (`ffmpeg-static`, `ffprobe-static`); either may be missing. */
  datatype ToolPaths = ToolPaths(ffmpeg: Option<string>, ffprobe: Option<string>)

  /** A process the service spawns: its program and argument vector. */
  datatype Invocation = Invocation(program: string, args: seq<string>)

  /** How a spawned process ends: its `close` event with the exit code (null for a signal), or an `error` event. */
  datatype ExitEvent = Closed(code: Option<int>) | StartFailed(message: string)

  // ---------------------------------------------------------------------------
  // Binary paths
  // ---------------------------------------------------------------------------

  /** `validatePaths`: the ffmpeg path is checked before the ffprobe path. */
  function ValidatePaths(tools: ToolPaths): (err: Option<MediaError>)
    ensures err.None? <==> Truthy(tools.ffmpeg) && Truthy(tools.ffprobe)
    ensures !Truthy(tools.ffmpeg) ==> err == Some(PlainError("ffmpeg binary path not found"))
    ensures Truthy(tools.ffmpeg) && !Truthy(tools.ffprobe) ==> err == Some(PlainError("ffprobe binary path not found"))
  {
    if !Truthy(tools.ffmpeg) then Some(PlainError("ffmpeg binary path not found"))
    else if !Truthy(tools.ffprobe) then Some(PlainError("ffprobe binary path not found"))
    else None
  }

  // ---------------------------------------------------------------------------
  // Argument vectors and how ffmpeg reads them
  // ---------------------------------------------------------------------------

  function ExtractAudioArgs(videoPath: string, outputPath: string): seq<string>
  {
    ["-i", videoPath, "-vn", "-acodec", "libmp3lame", "-q:a", "2", "-y", outputPath]
  }

  function MergeArgs(videoPath: string, audioPath: string, outputPath: string): seq<string>
  {
    ["-i", videoPath, "-i", audioPath, "-c:v", "copy", "-c:a", "aac",
     "-map", "0:v:0", "-map", "1:a:0", "-shortest", "-y", outputPath]
  }

  function ProbeDurationArgs(filePath: string): seq<string>
  {
    ["-v", "error", "-show_entries", "format=duration", "-of", "default=noprint_wrappers=1:nokey=1", filePath]
  }

  /** One element of a command line as ffmpeg reads it. */
  datatype CliArg = Opt(flag: string, value: string) | Switch(flag: string) | Positional(value: string)

  /** The options used here that take a value. */
  predicate TakesValue(a: string)
  {
    a in {"-i", "-acodec", "-q:a", "-c:v", "-c:a", "-map", "-v", "-show_entries", "-of"}
  }

  /** The options used here that stand alone. */
  predicate IsSwitch(a: string)
  {
    a in {"-vn", "-y", "-shortest"}
  }

  /** Reads an argument vector left to right: an option consumes its value, anything else is positional. */
  function ReadArgs(args: seq<string>): seq<CliArg>
    decreases |args|
  {
    if args == [] then []
    else if TakesValue(args[0]) && |args| >= 2 then [Opt(args[0], args[1])] + ReadArgs(args[2..])
    else if IsSwitch(args[0]) then [Switch(args[0])] + ReadArgs(args[1..])
    else [Positional(args[0])] + ReadArgs(args[1..])
  }

  /** Reading an option that takes a value consumes the option and its value. */
  lemma ReadOptStep(args: seq<string>)
    requires |args| >= 2 && TakesValue(args[0])
    ensures ReadArgs(args) == [Opt(args[0], args[1])] + ReadArgs(args[2..])
  {
  }

  /** Reading a stand-alone option consumes it alone. */
  lemma ReadSwitchStep(args: seq<string>)
    requires |args| >= 1 && IsSwitch(args[0]) && !TakesValue(args[0])
    ensures ReadArgs(args) == [Switch(args[0])] + ReadArgs(args[1..])
  {
  }

  /**
   * The extraction command reads as: input the video, drop the video stream,
   * encode the audio with libmp3lame at quality 2, overwrite, and write to the
   * output path, which is the one positional argument. The input path is read
   * as the input whatever it is; the output path only when it is not itself an
   * option name.
   */
  lemma ExtractAudioArgsMeaning(videoPath: string, outputPath: string)
    requires !TakesValue(outputPath) && !IsSwitch(outputPath)
    ensures ReadArgs(ExtractAudioArgs(videoPath, outputPath)) ==
      [Opt("-i", videoPath), Switch("-vn"), Opt("-acodec", "libmp3lame"), Opt("-q:a", "2"),
       Switch("-y"), Positional(outputPath)]
  {
    var a := ExtractAudioArgs(videoPath, outputPath);
    assert ReadArgs(a[8..]) == [Positional(outputPath)];
    ReadSwitchStep(a[7..]);
    assert a[7..][1..] == a[8..];
    ReadOptStep(a[5..]);
    assert a[5..][2..] == a[7..];
    ReadOptStep(a[3..]);
    assert a[3..][2..] == a[5..];
    ReadSwitchStep(a[2..]);
    assert a[2..][1..] == a[3..];
    ReadOptStep(a);
  }

  /**
   * The merge command reads as: the video is input 0 and the audio input 1;
   * the video stream is copied, the audio encoded as AAC; the first video
   * stream of input 0 and the first audio stream of input 1 are mapped; the
   * output stops with the shorter stream, overwrites, and goes to the output
   * path, the one positional argument.
   */
  lemma MergeArgsMeaning(videoPath: string, audioPath: string, outputPath: string)
    requires !TakesValue(outputPath) && !IsSwitch(outputPath)
    ensures ReadArgs(MergeArgs(videoPath, audioPath, outputPath)) ==
      [Opt("-i", videoPath), Opt("-i", audioPath), Opt("-c:v", "copy"), Opt("-c:a", "aac"),
       Opt("-map", "0:v:0"), Opt("-map", "1:a:0"), Switch("-shortest"), Switch("-y"),
       Positional(outputPath)]
  {
    var a := MergeArgs(videoPath, audioPath, outputPath);
    assert ReadArgs(a[14..]) == [Positional(outputPath)];
    ReadSwitchStep(a[13..]);
    assert a[13..][1..] == a[14..];
    ReadSwitchStep(a[12..]);
    assert a[12..][1..] == a[13..];
    ReadOptStep(a[10..]);
    assert a[10..][2..] == a[12..];
    ReadOptStep(a[8..]);
    assert a[8..][2..] == a[10..];
    ReadOptStep(a[6..]);
    assert a[6..][2..] == a[8..];
    ReadOptStep(a[4..]);
    assert a[4..][2..] == a[6..];
    ReadOptStep(a[2..]);
    assert a[2..][2..] == a[4..];
    ReadOptStep(a);
  }

  // ---------------------------------------------------------------------------
  // Progress: `time=HH:MM:SS.ss` against `Duration: HH:MM:SS.ss`
  // ---------------------------------------------------------------------------

  /** A clock reading `hours:minutes:seconds` as ffmpeg prints it. */
  datatype Clock = Clock(hours: nat, minutes: nat, seconds: real)

  function Seconds(c: Clock): real
  {
    c.hours as real * 3600.0 + c.minutes as real * 60.0 + c.seconds
  }

  /** The value of the digits after a decimal point. */
  function FractionValue(ds: string): (v: real)
    requires AllDigits(ds)
    ensures 0.0 <= v
  {
    DigitsValue(ds) as real / Pow10(|ds|) as real
  }

  /** The match of `(\d+)` followed by `sep` at the start of `s`: the digits and what follows the separator. */
  function DigitGroup(s: string, sep: char): (r: Option<(string, string)>)
    ensures r.Some? ==> AllDigits(r.value.0) && r.value.0 != []
  {
    var n := DigitRun(s);
    if n == 0 || n == |s| || s[n] != sep then None else Some((s[..n], s[n + 1..]))
  }

  lemma DigitGroupOf(ds: string, sep: char, rest: string)
    requires AllDigits(ds) && ds != [] && !IsDigit(sep)
    ensures DigitGroup(ds + [sep] + rest, sep) == Some((ds, rest))
  {
    var s := ds + [sep] + rest;
    assert s == ds + ([sep] + rest);
    DigitRunOfDigits(ds, [sep] + rest);
    assert s[..|ds|] == ds;
    assert s[|ds| + 1..] == rest;
  }

  /** The match of `(\d+):(\d+):(\d+\.\d+)` at the start of `s`, if there is one. */
  function ClockAt(s: string): (c: Option<Clock>)
    ensures c.Some? ==> c.value.seconds >= 0.0
  {
    match DigitGroup(s, ':')
    case None => None
    case Some((hs, r1)) =>
      match DigitGroup(r1, ':')
      case None => None
      case Some((ms, r2)) =>
        match DigitGroup(r2, '.')
        case None => None
        case Some((ss, r3)) =>
          var d := DigitRun(r3);
          if d == 0 then None
          else Some(ClockOf(hs, ms, ss, r3[..d]))
  }

  /** The clock that the digit groups `hours:minutes:seconds.fraction` denote. */
  function ClockOf(hs: string, ms: string, ss: string, fs: string): (c: Clock)
    requires AllDigits(hs) && AllDigits(ms) && AllDigits(ss) && AllDigits(fs)
    ensures c.seconds >= 0.0
  {
    Clock(DigitsValue(hs), DigitsValue(ms), DigitsValue(ss) as real + FractionValue(fs))
  }

  /** The leftmost match of `tag(\d+):(\d+):(\d+\.\d+)` in `s`, if there is one. */
  function FindClock(s: string, tag: string): (c: Option<Clock>)
    ensures c.Some? ==> Contains(s, tag) && c.value.seconds >= 0.0
    decreases |s|
  {
    if |s| < |tag| then None
    else if s[..|tag|] == tag && ClockAt(s[|tag|..]).Some? then ClockAt(s[|tag|..])
    else if s == [] then None
    else FindClock(s[1..], tag)
  }

  /** Digit groups printed as `hours:minutes:seconds.fraction`. */
  function PrintedClock(hs: string, ms: string, ss: string, fs: string): string
  {
    hs + ":" + ms + ":" + ss + "." + fs
  }

  /** A clock printed as digit groups and followed by a non-digit is read back exactly. */
  lemma ClockAtDigits(hs: string, ms: string, ss: string, fs: string, rest: string)
    requires AllDigits(hs) && AllDigits(ms) && AllDigits(ss) && AllDigits(fs)
    requires hs != [] && ms != [] && ss != [] && fs != []
    requires rest == [] || !IsDigit(rest[0])
    ensures ClockAt(PrintedClock(hs, ms, ss, fs) + rest) == Some(ClockOf(hs, ms, ss, fs))
  {
    var r3 := fs + rest;
    var r2 := ss + "." + r3;
    var r1 := ms + ":" + r2;
    var s := hs + ":" + r1;
    assert s == PrintedClock(hs, ms, ss, fs) + rest;
    DigitGroupOf(hs, ':', r1);
    DigitGroupOf(ms, ':', r2);
    DigitGroupOf(ss, '.', r3);
    DigitRunOfDigits(fs, rest);
    assert r3[..|fs|] == fs;
  }

  /** When the text begins with the tag and a clock, that clock is the match. */
  lemma FindClockAtStart(tag: string, body: string)
    requires ClockAt(body).Some?
    ensures FindClock(tag + body, tag) == ClockAt(body)
  {
    var s := tag + body;
    assert s[..|tag|] == tag && s[|tag|..] == body;
  }

  /** Two printed digits `d1 d2` after the decimal point stand for `(10 * d1 + d2) / 100`. */
  lemma TwoDigitFraction(cs: nat)
    requires cs < 100
    ensures FractionValue([DigitChar(cs / 10), DigitChar(cs % 10)]) == cs as real / 100.0
  {
    var fs := [DigitChar(cs / 10), DigitChar(cs % 10)];
    assert fs[..1] == [DigitChar(cs / 10)];
    assert [DigitChar(cs / 10)][..0] == [];
    assert DigitsValue(fs[..1]) == cs / 10;
    assert DigitsValue(fs) == cs;
    assert Pow10(2) == 100;
  }

  /** The clock printed with whole hours, minutes and seconds and two digits of hundredths. */
  lemma PrintedClockSeconds(h: nat, m: nat, s: nat, cs: nat)
    requires cs < 100
    ensures Seconds(ClockOf(NatToString(h), NatToString(m), NatToString(s), [DigitChar(cs / 10), DigitChar(cs % 10)]))
            == (h * 3600 + m * 60 + s) as real + cs as real / 100.0
  {
    NatToStringValue(h);
    NatToStringValue(m);
    NatToStringValue(s);
    TwoDigitFraction(cs);
  }

  /** A tag followed by a printed clock and a non-digit is matched right there, with that clock. */
  lemma ReadTaggedClock(tag: string, hs: string, ms: string, ss: string, fs: string, rest: string)
    requires AllDigits(hs) && AllDigits(ms) && AllDigits(ss) && AllDigits(fs)
    requires hs != [] && ms != [] && ss != [] && fs != []
    requires rest == [] || !IsDigit(rest[0])
    ensures FindClock(tag + PrintedClock(hs, ms, ss, fs) + rest, tag) == Some(ClockOf(hs, ms, ss, fs))
  {
    var body := PrintedClock(hs, ms, ss, fs) + rest;
    ClockAtDigits(hs, ms, ss, fs, rest);
    FindClockAtStart(tag, body);
    assert tag + PrintedClock(hs, ms, ss, fs) + rest == tag + body;
  }

  /**
   * A line `<tag>H:M:S.cc...` (whole hours, minutes and seconds, two digits
   * of hundredths, then anything that is not a digit) is read back as exactly
   * that many seconds; `time=` and `Duration: ` are the two tags ffmpeg prints.
   */
  lemma ReadPrintedTime(tag: string, h: nat, m: nat, s: nat, cs: nat, rest: string)
    requires cs < 100
    requires rest == [] || !IsDigit(rest[0])
    ensures var c := FindClock(tag + PrintedClock(NatToString(h), NatToString(m), NatToString(s),
                                                  [DigitChar(cs / 10), DigitChar(cs % 10)]) + rest, tag);
      c.Some? && Seconds(c.value) == (h * 3600 + m * 60 + s) as real + cs as real / 100.0
  {
    ReadTaggedClock(tag, NatToString(h), NatToString(m), NatToString(s), [DigitChar(cs / 10), DigitChar(cs % 10)], rest);
    PrintedClockSeconds(h, m, s, cs);
  }

  /**
   * The progress one stderr chunk reports, given everything received so far
   * (the chunk included): present only when the chunk holds a `time=` clock,
   * the stream so far holds a `Duration:` clock, and the duration is positive;
   * then the elapsed share of the duration, capped at 1.
   */
  function ChunkProgress(chunk: string, received: string): (p: Option<real>)
    ensures p.Some? ==> 0.0 <= p.value <= 1.0
    ensures p.Some? ==> Contains(chunk, "time=") && Contains(received, "Duration: ")
    ensures p.Some? <==> FindClock(chunk, "time=").Some? && FindClock(received, "Duration: ").Some?
                         && Seconds(FindClock(received, "Duration: ").value) > 0.0
    ensures p.Some? ==>
      var r := Seconds(FindClock(chunk, "time=").value) / Seconds(FindClock(received, "Duration: ").value);
      p.value == if r < 1.0 then r else 1.0
  {
    var t := FindClock(chunk, "time=");
    var d := FindClock(received, "Duration: ");
    if t.Some? && d.Some? && Seconds(d.value) > 0.0 then
      var ratio := Seconds(t.value) / Seconds(d.value);
      Some(if ratio < 1.0 then ratio else 1.0)
    else None
  }

  /**
   * The value reported is the elapsed time as a share of the duration while
   * the elapsed time is below it, and exactly 1 from then on.
   */
  lemma ChunkProgressValue(chunk: string, received: string)
    requires ChunkProgress(chunk, received).Some?
    ensures var p := ChunkProgress(chunk, received).value;
      var elapsed := Seconds(FindClock(chunk, "time=").value);
      var total := Seconds(FindClock(received, "Duration: ").value);
      && (elapsed < total ==> p == elapsed / total)
      && (elapsed >= total ==> p == 1.0)
  {
    var p := ChunkProgress(chunk, received).value;
    CappedShare(Seconds(FindClock(chunk, "time=").value), Seconds(FindClock(received, "Duration: ").value), p);
  }

  /** `Math.min(elapsed / total, 1)` for a positive total: below 1 exactly while elapsed is below total. */
  lemma CappedShare(elapsed: real, total: real, p: real)
    requires total > 0.0 && p == if elapsed / total < 1.0 then elapsed / total else 1.0
    ensures elapsed < total ==> p == elapsed / total
    ensures elapsed >= total ==> p == 1.0
  {
  }

  /** The concatenation of the chunks of a stream. */
  function Concat(chunks: seq<string>): string
    decreases |chunks|
  {
    if chunks == [] then "" else Concat(chunks[..|chunks| - 1]) + chunks[|chunks| - 1]
  }

  /** Each chunk paired with the stream received up to and including it. */
  function Steps(chunks: seq<string>): (steps: seq<(string, string)>)
    ensures |steps| == |chunks|
    ensures forall i :: 0 <= i < |chunks| ==> steps[i] == (chunks[i], Concat(chunks[..i + 1]))
  {
    seq(|chunks|, i requires 0 <= i < |chunks| => (chunks[i], Concat(chunks[..i + 1])))
  }

  /** Whether a chunk, with the stream so far, reports a progress value. */
  predicate Reports(step: (string, string))
  {
    ChunkProgress(step.0, step.1).Some?
  }

  /** The progress values reported while the chunks arrive, in order. */
  function ProgressTrace(chunks: seq<string>): (t: seq<real>)
    ensures |t| <= |chunks|
    ensures forall i :: 0 <= i < |t| ==> 0.0 <= t[i] <= 1.0
    decreases |chunks|
  {
    if chunks == [] then []
    else
      var p := ChunkProgress(chunks[|chunks| - 1], Concat(chunks));
      ProgressTrace(chunks[..|chunks| - 1]) + (if p.Some? then [p.value] else [])
  }

  /**
   * The trace holds one value per reporting chunk, in arrival order, each the
   * progress of that chunk against the stream received up to it.
   */
  lemma ProgressTraceReports(chunks: seq<string>)
    ensures var t := ProgressTrace(chunks);
      var ps := Positions(Steps(chunks), Reports);
      && |t| == |ps|
      && forall k :: 0 <= k < |t| ==>
           ps[k] < |chunks| && Some(t[k]) == ChunkProgress(chunks[ps[k]], Concat(chunks[..ps[k] + 1]))
  {
    TraceLength(chunks);
    forall k | 0 <= k < |ProgressTrace(chunks)|
      ensures var ps := Positions(Steps(chunks), Reports);
        ps[k] < |chunks| && Some(ProgressTrace(chunks)[k]) == ChunkProgress(chunks[ps[k]], Concat(chunks[..ps[k] + 1]))
    {
      ProgressTraceAt(chunks, k);
    }
  }

  /** The trace has as many values as there are reporting chunks. */
  lemma {:induction false} TraceLength(chunks: seq<string>)
    ensures |ProgressTrace(chunks)| == |Positions(Steps(chunks), Reports)|
    decreases |chunks|
  {
    if chunks != [] {
      TraceLength(chunks[..|chunks| - 1]);
      TraceExtends(chunks);
    }
  }

  /** The `k`-th value of the trace is the progress of the `k`-th reporting chunk. */
  lemma {:induction false} ProgressTraceAt(chunks: seq<string>, k: nat)
    requires k < |ProgressTrace(chunks)|
    ensures var ps := Positions(Steps(chunks), Reports);
      k < |ps| && ps[k] < |chunks|
      && Some(ProgressTrace(chunks)[k]) == ChunkProgress(chunks[ps[k]], Concat(chunks[..ps[k] + 1]))
    decreases |chunks|
  {
    var n := |chunks| - 1;
    var init := chunks[..n];
    TraceLength(chunks);
    TraceLength(init);
    TraceExtends(chunks);
    var ps := Positions(Steps(chunks), Reports);
    var ps0 := Positions(Steps(init), Reports);
    if k < |ProgressTrace(init)| {
      ProgressTraceAt(init, k);
      assert ps[k] == ps0[k] && ProgressTrace(chunks)[k] == ProgressTrace(init)[k];
      PrefixOfPrefix(chunks, n, ps0[k]);
    } else {
      assert ps[k] == n && Some(ProgressTrace(chunks)[k]) == ChunkProgress(chunks[n], Concat(chunks));
      assert chunks[..n + 1] == chunks;
    }
  }

  /** One more chunk appends its progress, if it reports one, to the trace, and its index to the positions. */
  lemma TraceExtends(chunks: seq<string>)
    requires chunks != []
    ensures var n := |chunks| - 1;
      var p := ChunkProgress(chunks[n], Concat(chunks));
      && ProgressTrace(chunks) == ProgressTrace(chunks[..n]) + (if p.Some? then [p.value] else [])
      && Positions(Steps(chunks), Reports) == Positions(Steps(chunks[..n]), Reports) + (if p.Some? then [n] else [])
  {
    StepsOfPrefix(chunks);
  }

  /** The steps of all but the last chunk are the first steps of all of them. */
  lemma StepsOfPrefix(chunks: seq<string>)
    requires chunks != []
    ensures Steps(chunks)[..|chunks| - 1] == Steps(chunks[..|chunks| - 1])
    ensures Steps(chunks)[|chunks| - 1] == (chunks[|chunks| - 1], Concat(chunks))
  {
    var n := |chunks| - 1;
    forall i | 0 <= i < n ensures Steps(chunks)[i] == Steps(chunks[..n])[i] {
      PrefixOfPrefix(chunks, n, i);
    }
    assert chunks[..n + 1] == chunks;
  }

  lemma PrefixOfPrefix(chunks: seq<string>, n: nat, i: nat)
    requires i < n <= |chunks|
    ensures chunks[..n][i] == chunks[i] && chunks[..n][..i + 1] == chunks[..i + 1]
  {
  }

  /** The message of an `FFmpegError` for a non-zero or missing exit code. */
  function ExitCodeText(code: Option<int>): string
  {
    match code
    case None => "null"
    case Some(n) => IntToString(n)
  }

  // ---------------------------------------------------------------------------
  // Running ffmpeg
  // ---------------------------------------------------------------------------

  /**
   * `executeFFmpeg`: checks the binary paths, spawns ffmpeg, accumulates its
   * stderr chunk by chunk (reporting progress when asked to) and settles on
   * the exit: the whole stderr on exit code 0, an `FFmpegError` otherwise.
   */
  method ExecuteFFmpeg(tools: ToolPaths, args: seq<string>, chunks: seq<string>, exit: ExitEvent,
                       reportProgress: bool)
    returns (spawned: Option<Invocation>, r: Result<string, MediaError>, progress: seq<real>)
    ensures ValidatePaths(tools).Some? ==>
      spawned.None? && r == Failure(ValidatePaths(tools).value) && progress == []
    ensures ValidatePaths(tools).None? ==> spawned == Some(Invocation(tools.ffmpeg.value, args))
    ensures ValidatePaths(tools).None? ==>
      (r.Success? <==> exit == Closed(Some(0)))
      && (r.Success? ==> r.value == Concat(chunks))
      && (exit.Closed? && exit.code != Some(0) ==>
            r == Failure(FFmpegError("FFmpeg process exited with code " + ExitCodeText(exit.code),
                                     exit.code, Some(Concat(chunks)))))
      && (exit.StartFailed? ==>
            r == Failure(FFmpegError("Failed to start FFmpeg process: " + exit.message, None, None)))
      && progress == (if reportProgress then ProgressTrace(chunks) else [])
    ensures forall i :: 0 <= i < |progress| ==> 0.0 <= progress[i] <= 1.0
  {
    var invalid := ValidatePaths(tools);
    if invalid.Some? {
      return None, Failure(invalid.value), [];
    }
    spawned := Some(Invocation(tools.ffmpeg.value, args));
    var stderr := "";
    progress := [];
    var i := 0;
    while i < |chunks|
      invariant 0 <= i <= |chunks|
      invariant stderr == Concat(chunks[..i])
      invariant progress == (if reportProgress then ProgressTrace(chunks[..i]) else [])
    {
      stderr := stderr + chunks[i];
      assert chunks[..i + 1][..i] == chunks[..i];
      if reportProgress {
        var p := ChunkProgress(chunks[i], stderr);
        if p.Some? {
          progress := progress + [p.value];
        }
      }
      i := i + 1;
    }
    assert chunks[..i] == chunks;
    match exit {
      case Closed(code) =>
        if code == Some(0) {
          r := Success(stderr);
        } else {
          r := Failure(FFmpegError("FFmpeg process exited with code " + ExitCodeText(code), code, Some(stderr)));
        }
      case StartFailed(message) =>
        r := Failure(FFmpegError("Failed to start FFmpeg process: " + message, None, None));
    }
  }

  /**
   * `extractAudio`: rejects a missing video before anything is spawned,
   * creates the output directory when it is absent, then runs
   * `ffmpeg -i video -vn -acodec libmp3lame -q:a 2 -y output` and resolves
   * to the output path when ffmpeg exits with 0.
   */
  method ExtractAudio(tools: ToolPaths, disk: Disk, videoPath: string, outputPath: string,
                      chunks: seq<string>, exit: ExitEvent, reportProgress: bool)
    returns (spawned: Option<Invocation>, r: Result<string, MediaError>, progress: seq<real>)
    modifies disk
    ensures disk.unwritable == old(disk.unwritable)
    ensures videoPath !in old(disk.paths) ==>
      spawned.None? && r == Failure(PlainError("Video file not found: " + videoPath))
      && disk.paths == old(disk.paths) && progress == []
    ensures videoPath in old(disk.paths) && Dirname(outputPath) !in old(disk.paths)
            && Dirname(outputPath) in disk.unwritable ==>
      spawned.None? && r == Failure(PlainError(MkdirErrorMessage(Dirname(outputPath))))
      && disk.paths == old(disk.paths) && progress == []
    ensures spawned.Some? ==>
      spawned.value.args == ExtractAudioArgs(videoPath, outputPath)
      && videoPath in disk.paths && Dirname(outputPath) in disk.paths
    ensures videoPath in old(disk.paths) && Dirname(outputPath) in disk.paths && ValidatePaths(tools).None? ==>
      spawned.Some? && (r.Success? <==> exit == Closed(Some(0)))
    ensures r.Success? ==> r.value == outputPath && spawned.Some?
    ensures disk.paths == old(disk.paths) || disk.paths == WithParent(old(disk.paths), outputPath)
    ensures videoPath in old(disk.paths) && !Refuses(old(disk.paths), disk.unwritable, Dirname(outputPath)) ==>
      disk.paths == WithParent(old(disk.paths), outputPath)
      && (ValidatePaths(tools).Some? ==>
            spawned.None? && r == Failure(ValidatePaths(tools).value) && progress == [])
      && (ValidatePaths(tools).None? ==>
            && spawned == Some(Invocation(tools.ffmpeg.value, ExtractAudioArgs(videoPath, outputPath)))
            && progress == (if reportProgress then ProgressTrace(chunks) else [])
            && (exit.Closed? && exit.code != Some(0) ==>
                  r == Failure(FFmpegError("FFmpeg process exited with code " + ExitCodeText(exit.code),
                                           exit.code, Some(Concat(chunks)))))
            && (exit.StartFailed? ==>
                  r == Failure(FFmpegError("Failed to start FFmpeg process: " + exit.message, None, None))))
    ensures forall i :: 0 <= i < |progress| ==> 0.0 <= progress[i] <= 1.0
  {
    if !disk.Exists(videoPath) {
      return None, Failure(PlainError("Video file not found: " + videoPath)), [];
    }
    var mkdirError := EnsureParent(disk, outputPath);
    if mkdirError.Some? {
      return None, Failure(PlainError(mkdirError.value)), [];
    }
    var output;
    spawned, output, progress := ExecuteFFmpeg(tools, ExtractAudioArgs(videoPath, outputPath), chunks, exit, reportProgress);
    r := if output.Success? then Success(outputPath) else Failure(output.error);
  }

  /**
   * `mergeAudioVideo`: the video is checked before the audio, so when both
   * are missing the video is reported; then the output directory is created
   * when absent, the merge command runs, and the call resolves to the output
   * path when ffmpeg exits with 0.
   */
  method MergeAudioVideo(tools: ToolPaths, disk: Disk, videoPath: string, audioPath: string, outputPath: string,
                         chunks: seq<string>, exit: ExitEvent, reportProgress: bool)
    returns (spawned: Option<Invocation>, r: Result<string, MediaError>, progress: seq<real>)
    modifies disk
    ensures disk.unwritable == old(disk.unwritable)
    ensures videoPath !in old(disk.paths) ==>
      spawned.None? && r == Failure(PlainError("Video file not found: " + videoPath))
      && disk.paths == old(disk.paths) && progress == []
    ensures videoPath in old(disk.paths) && audioPath !in old(disk.paths) ==>
      spawned.None? && r == Failure(PlainError("Audio file not found: " + audioPath))
      && disk.paths == old(disk.paths) && progress == []
    ensures videoPath in old(disk.paths) && audioPath in old(disk.paths) && Dirname(outputPath) !in old(disk.paths)
            && Dirname(outputPath) in disk.unwritable ==>
      spawned.None? && r == Failure(PlainError(MkdirErrorMessage(Dirname(outputPath))))
      && disk.paths == old(disk.paths) && progress == []
    ensures spawned.Some? ==>
      spawned.value.args == MergeArgs(videoPath, audioPath, outputPath)
      && videoPath in disk.paths && audioPath in disk.paths && Dirname(outputPath) in disk.paths
    ensures videoPath in old(disk.paths) && audioPath in old(disk.paths) && Dirname(outputPath) in disk.paths
            && ValidatePaths(tools).None? ==>
      spawned.Some? && (r.Success? <==> exit == Closed(Some(0)))
    ensures r.Success? ==> r.value == outputPath && spawned.Some?
    ensures disk.paths == old(disk.paths) || disk.paths == WithParent(old(disk.paths), outputPath)
    ensures videoPath in old(disk.paths) && audioPath in old(disk.paths) && !Refuses(old(disk.paths), disk.unwritable, Dirname(outputPath)) ==>
      disk.paths == WithParent(old(disk.paths), outputPath)
      && (ValidatePaths(tools).Some? ==>
            spawned.None? && r == Failure(ValidatePaths(tools).value) && progress == [])
      && (ValidatePaths(tools).None? ==>
            && spawned == Some(Invocation(tools.ffmpeg.value, MergeArgs(videoPath, audioPath, outputPath)))
            && progress == (if reportProgress then ProgressTrace(chunks) else [])
            && (exit.Closed? && exit.code != Some(0) ==>
                  r == Failure(FFmpegError("FFmpeg process exited with code " + ExitCodeText(exit.code),
                                           exit.code, Some(Concat(chunks)))))
            && (exit.StartFailed? ==>
                  r == Failure(FFmpegError("Failed to start FFmpeg process: " + exit.message, None, None))))
    ensures forall i :: 0 <= i < |progress| ==> 0.0 <= progress[i] <= 1.0
  {
    if !disk.Exists(videoPath) {
      return None, Failure(PlainError("Video file not found: " + videoPath)), [];
    }
    if !disk.Exists(audioPath) {
      return None, Failure(PlainError("Audio file not found: " + audioPath)), [];
    }
    var mkdirError := EnsureParent(disk, outputPath);
    if mkdirError.Some? {
      return None, Failure(PlainError(mkdirError.value)), [];
    }
    var output;
    spawned, output, progress := ExecuteFFmpeg(tools, MergeArgs(videoPath, audioPath, outputPath), chunks, exit, reportProgress);
    r := if output.Success? then Success(outputPath) else Failure(output.error);
  }

  // ---------------------------------------------------------------------------
  // Duration probe
  // ---------------------------------------------------------------------------

  /**
   * `parseFloat` on a string with no leading whitespace: the longest prefix
   * of the form `[+-]digits[.digits]` or `[+-].digits`, or none (NaN).
   */
  function ParseDecimal(s: string): (v: Option<real>)
  {
    if s != [] && s[0] == '-' then
      match ParseUnsigned(s[1..])
      case None => None
      case Some(x) => Some(-x)
    else if s != [] && s[0] == '+' then ParseUnsigned(s[1..])
    else ParseUnsigned(s)
  }

  /** The digits after a leading decimal point, or none. */
  function FractionDigits(s: string): (ds: string)
    ensures AllDigits(ds)
  {
    if s != [] && s[0] == '.' then s[1..][..DigitRun(s[1..])] else ""
  }

  /** The longest prefix `digits[.digits]` or `.digits` of `s`, or none. */
  function ParseUnsigned(s: string): (v: Option<real>)
    ensures v.Some? ==> v.value >= 0.0
  {
    var a := DigitRun(s);
    var fraction := FractionDigits(s[a..]);
    if a == 0 && fraction == [] then None
    else Some(DecimalOf(s[..a], fraction))
  }

  /** The number that `whole.fraction` denotes. */
  function DecimalOf(whole: string, fraction: string): (v: real)
    requires AllDigits(whole) && AllDigits(fraction)
    ensures v >= 0.0
  {
    DigitsValue(whole) as real + FractionValue(fraction)
  }

  /** A printed decimal `digits.digits` followed by a non-digit is read back exactly. */
  lemma ParseDecimalOfDigits(whole: string, fraction: string, rest: string)
    requires AllDigits(whole) && AllDigits(fraction) && whole != []
    requires rest == [] || !IsDigit(rest[0])
    ensures ParseDecimal(whole + "." + fraction + rest) == Some(DecimalOf(whole, fraction))
  {
    var tail := "." + fraction + rest;
    var s := whole + tail;
    assert s == whole + "." + fraction + rest;
    assert s[0] == whole[0];
    DigitRunOfDigits(whole, tail);
    assert s[..|whole|] == whole && s[|whole|..] == tail;
    assert tail[1..] == fraction + rest;
    DigitRunOfDigits(fraction, rest);
    assert tail[1..][..|fraction|] == fraction;
  }

  /**
   * `getVideoDuration`: the binary paths are checked first, then the file;
   * ffprobe runs with `-show_entries format=duration`; on exit code 0 its
   * trimmed stdout is read as a number and a non-number is an error; any
   * other exit is an `FFmpegError` with the captured stderr.
   */
  method GetVideoDuration(tools: ToolPaths, disk: Disk, filePath: string,
                          stdoutChunks: seq<string>, stderrChunks: seq<string>, exit: ExitEvent)
    returns (spawned: Option<Invocation>, r: Result<real, MediaError>)
    ensures ValidatePaths(tools).Some? ==> spawned.None? && r == Failure(ValidatePaths(tools).value)
    ensures ValidatePaths(tools).None? && filePath !in disk.paths ==>
      spawned.None? && r == Failure(PlainError("File not found: " + filePath))
    ensures ValidatePaths(tools).None? && filePath in disk.paths ==>
      spawned == Some(Invocation(tools.ffprobe.value, ProbeDurationArgs(filePath)))
    ensures r.Success? <==>
      ValidatePaths(tools).None? && filePath in disk.paths && exit == Closed(Some(0))
      && ParseDecimal(Trim(Concat(stdoutChunks))).Some?
    ensures r.Success? ==> r.value == ParseDecimal(Trim(Concat(stdoutChunks))).value
    ensures spawned.Some? && exit.Closed? && exit.code != Some(0) ==>
      r == Failure(FFmpegError("ffprobe process exited with code " + ExitCodeText(exit.code),
                               exit.code, Some(Concat(stderrChunks))))
    ensures spawned.Some? && exit == Closed(Some(0)) && ParseDecimal(Trim(Concat(stdoutChunks))).None? ==>
      r == Failure(PlainError("Could not parse duration from ffprobe output"))
    ensures spawned.Some? && exit.StartFailed? ==>
      r == Failure(FFmpegError("Failed to start ffprobe process: " + exit.message, None, None))
  {
    var invalid := ValidatePaths(tools);
    if invalid.Some? {
      return None, Failure(invalid.value);
    }
    if !disk.Exists(filePath) {
      return None, Failure(PlainError("File not found: " + filePath));
    }
    spawned := Some(Invocation(tools.ffprobe.value, ProbeDurationArgs(filePath)));
    var stdout := Drain(stdoutChunks);
    var stderr := Drain(stderrChunks);
    match exit {
      case Closed(code) =>
        if code == Some(0) {
          var duration := ParseDecimal(Trim(stdout));
          if duration.Some? {
            r := Success(duration.value);
          } else {
            r := Failure(PlainError("Could not parse duration from ffprobe output"));
          }
        } else {
          r := Failure(FFmpegError("ffprobe process exited with code " + ExitCodeText(code), code, Some(stderr)));
        }
      case StartFailed(message) =>
        r := Failure(FFmpegError("Failed to start ffprobe process: " + message, None, None));
    }
  }

  /** Accumulates the chunks of an output stream as its `data` events arrive. */
  method Drain(chunks: seq<string>) returns (text: string)
    ensures text == Concat(chunks)
  {
    text := "";
    var i := 0;
    while i < |chunks|
      invariant 0 <= i <= |chunks|
      invariant text == Concat(chunks[..i])
    {
      text := text + chunks[i];
      assert chunks[..i + 1][..i] == chunks[..i];
      i := i + 1;
    }
    assert chunks[..i] == chunks;
  }
}
