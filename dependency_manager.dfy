/**
 * The dependency manager: where ffmpeg, yt-dlp, Python and SoundTouch live,
 * whether they can be run, which Python packages are installed, and the two
 * settings that remember the optional tools' paths.
 */
module Dependencies {
  import opened Shared
  import opened Strings

  const PythonPathKey := "dependencies.pythonPath"
  const SoundtouchPathKey := "dependencies.soundtouchPath"

  /** The persistent settings store, as a map from keys to values. */
  class Settings {
    var values: map<string, string>

    constructor (values: map<string, string>)
      ensures this.values == values
    {
      this.values := values;
    }

    /** `getSetting(key)`: the stored value, or none. */
    function Get(key: string): Option<string>
      reads this
    {
      if key in values then Some(values[key]) else None
    }

    /** `setSetting(key, value)`. */
    method Set(key: string, value: string)
      modifies this
      ensures values == old(values)[key := value]
    {
      values := values[key := value];
    }
  }

  /**
   * What the machine offers: the bundled ffmpeg binary's path (the package
   * gives none on an unsupported platform), the yt-dlp wrapper's binary
   * path, the paths that are executable and the paths that exist.
   */
  datatype Host = Host(ffmpegStatic: Option<string>, ytDlpBinary: string,
                       executable: set<string>, existing: set<string>)

  datatype DependencyPaths = DependencyPaths(ffmpeg: Option<string>, ytDlp: string,
                                             python: Option<string>, soundtouch: Option<string>)

  /** `getDependencyPaths`: the two bundled binaries and the two paths from the settings. */
  function GetDependencyPaths(host: Host, settings: Settings): (p: DependencyPaths)
    reads settings
    ensures p.ffmpeg == host.ffmpegStatic && p.ytDlp == host.ytDlpBinary
    ensures p.python.Some? <==> PythonPathKey in settings.values
    ensures p.python.Some? ==> p.python.value == settings.values[PythonPathKey]
    ensures p.soundtouch.Some? <==> SoundtouchPathKey in settings.values
    ensures p.soundtouch.Some? ==> p.soundtouch.value == settings.values[SoundtouchPathKey]
  {
    DependencyPaths(host.ffmpegStatic, host.ytDlpBinary, settings.Get(PythonPathKey), settings.Get(SoundtouchPathKey))
  }

  /** `isExecutable`: an unset or empty path never is; any other path is when the system says so. */
  function IsExecutable(path: Option<string>, executable: set<string>): (b: bool)
    ensures !Truthy(path) ==> !b
    ensures Truthy(path) ==> (b <==> path.value in executable)
  {
    Truthy(path) && path.value in executable
  }

  // ---------------------------------------------------------------------------
  // Validation
  // ---------------------------------------------------------------------------

  /** The position of a tool's name in the order the checks run. */
  function ToolRank(name: string): nat
  {
    if name == "FFmpeg" then 0
    else if name == "yt-dlp" then 1
    else if name == "Python" then 2
    else if name == "Soundtouch" then 3
    else 4
  }

  /** Known tool names only, ranked below `bound`, each after the ones that come before it. */
  predicate InToolOrder(names: seq<string>, bound: nat)
  {
    (forall i :: 0 <= i < |names| ==> ToolRank(names[i]) < bound)
    && forall i, j :: 0 <= i < j < |names| ==> ToolRank(names[i]) < ToolRank(names[j])
  }

  function Flag(isMissing: bool, name: string): seq<string>
  {
    if isMissing then [name] else []
  }

  /** The names reported, given which of FFmpeg, yt-dlp, Python and SoundTouch are missing. */
  function MissingNames(ffmpeg: bool, ytDlp: bool, python: bool, soundtouch: bool): seq<string>
  {
    Flag(ffmpeg, "FFmpeg") + Flag(ytDlp, "yt-dlp") + Flag(python, "Python") + Flag(soundtouch, "Soundtouch")
  }

  lemma ToolRanks()
    ensures ToolRank("FFmpeg") == 0 && ToolRank("yt-dlp") == 1
    ensures ToolRank("Python") == 2 && ToolRank("Soundtouch") == 3
  {
  }

  /** Reporting one more tool, ranked after all reported so far, keeps the order. */
  lemma AppendFlag(names: seq<string>, bound: nat, isMissing: bool, name: string)
    requires InToolOrder(names, bound) && ToolRank(name) == bound < 4
    ensures InToolOrder(names + Flag(isMissing, name), bound + 1)
  {
  }

  /**
   * Exactly the missing tools are named, once each, in the order FFmpeg,
   * yt-dlp, Python, Soundtouch; the list is empty exactly when none is missing.
   */
  lemma MissingNamesMeaning(ffmpeg: bool, ytDlp: bool, python: bool, soundtouch: bool)
    ensures var names := MissingNames(ffmpeg, ytDlp, python, soundtouch);
      && ("FFmpeg" in names <==> ffmpeg)
      && ("yt-dlp" in names <==> ytDlp)
      && ("Python" in names <==> python)
      && ("Soundtouch" in names <==> soundtouch)
      && InToolOrder(names, 4)
      && (names == [] <==> !ffmpeg && !ytDlp && !python && !soundtouch)
  {
    MissingNamesMembers(ffmpeg, ytDlp, python, soundtouch);
    MissingNamesOrder(ffmpeg, ytDlp, python, soundtouch);
  }

  lemma MissingNamesMembers(ffmpeg: bool, ytDlp: bool, python: bool, soundtouch: bool)
    ensures var names := MissingNames(ffmpeg, ytDlp, python, soundtouch);
      && ("FFmpeg" in names <==> ffmpeg)
      && ("yt-dlp" in names <==> ytDlp)
      && ("Python" in names <==> python)
      && ("Soundtouch" in names <==> soundtouch)
  {
    ToolRanks();
  }

  lemma MissingNamesOrder(ffmpeg: bool, ytDlp: bool, python: bool, soundtouch: bool)
    ensures InToolOrder(MissingNames(ffmpeg, ytDlp, python, soundtouch), 4)
  {
    ToolRanks();
    var a := Flag(ffmpeg, "FFmpeg");
    var b := a + Flag(ytDlp, "yt-dlp");
    var c := b + Flag(python, "Python");
    assert InToolOrder(a, 1);
    AppendFlag(a, 1, ytDlp, "yt-dlp");
    AppendFlag(b, 2, python, "Python");
    AppendFlag(c, 3, soundtouch, "Soundtouch");
  }

  /**
   * `validateDependencies`: ffmpeg and yt-dlp are required; Python and
   * SoundTouch are reported only when a path is set for them and it cannot
   * be run. Each name appears at most once, in the order FFmpeg, yt-dlp,
   * Python, Soundtouch, and the tools are valid exactly when none is missing.
   */
  method ValidateDependencies(paths: DependencyPaths, executable: set<string>)
    returns (valid: bool, missing: seq<string>)
    ensures "FFmpeg" in missing <==> !IsExecutable(paths.ffmpeg, executable)
    ensures "yt-dlp" in missing <==> !IsExecutable(Some(paths.ytDlp), executable)
    ensures "Python" in missing <==> Truthy(paths.python) && !IsExecutable(paths.python, executable)
    ensures "Soundtouch" in missing <==> Truthy(paths.soundtouch) && !IsExecutable(paths.soundtouch, executable)
    ensures InToolOrder(missing, 4)
    ensures valid <==> missing == []
    ensures !Truthy(paths.python) && !Truthy(paths.soundtouch) ==>
      (valid <==> IsExecutable(paths.ffmpeg, executable) && IsExecutable(Some(paths.ytDlp), executable))
  {
    missing := [];
    if !IsExecutable(paths.ffmpeg, executable) {
      missing := missing + ["FFmpeg"];
    }
    if !IsExecutable(Some(paths.ytDlp), executable) {
      missing := missing + ["yt-dlp"];
    }
    if Truthy(paths.python) && !IsExecutable(paths.python, executable) {
      missing := missing + ["Python"];
    }
    if Truthy(paths.soundtouch) && !IsExecutable(paths.soundtouch, executable) {
      missing := missing + ["Soundtouch"];
    }
    assert missing == MissingNames(!IsExecutable(paths.ffmpeg, executable), !IsExecutable(Some(paths.ytDlp), executable),
      Truthy(paths.python) && !IsExecutable(paths.python, executable),
      Truthy(paths.soundtouch) && !IsExecutable(paths.soundtouch, executable));
    MissingNamesMeaning(!IsExecutable(paths.ffmpeg, executable), !IsExecutable(Some(paths.ytDlp), executable),
      Truthy(paths.python) && !IsExecutable(paths.python, executable),
      Truthy(paths.soundtouch) && !IsExecutable(paths.soundtouch, executable));
    valid := |missing| == 0;
  }

  // ---------------------------------------------------------------------------
  // Finding Python
  // ---------------------------------------------------------------------------

  /** The command that lists the Python interpreters on the path. */
  function WhichPythonCommand(isWindows: bool): string
  {
    if isWindows then "where python" else "which python3 || which python"
  }

  /** `s.split('\n')[0]`: everything before the first line feed. */
  function FirstLine(s: string): (r: string)
    ensures StartsWith(s, r) && '\n' !in r
    ensures |r| == |s| || s[|r|] == '\n'
  {
    SplitFirst(s, '\n');
    SplitOn(s, '\n')[0]
  }

  lemma {:induction false} SplitFirst(s: string, sep: char)
    ensures var f := SplitOn(s, sep)[0];
      StartsWith(s, f) && (|f| == |s| || s[|f|] == sep)
    decreases |s|
  {
    if s != [] && s[0] != sep {
      SplitFirst(s[1..], sep);
      var rest := SplitOn(s[1..], sep);
      assert SplitOn(s, sep)[0] == [s[0]] + rest[0];
      assert s == [s[0]] + s[1..];
    }
  }

  /**
   * The interpreter `findPythonPath` picks from the listing, as the code does
   * it: the trimmed listing up to its first line feed, whatever else the
   * line holds.
   */
  function PickedPythonAsWritten(output: string): (r: string)
    ensures '\n' !in r && StartsWith(Trim(output), r)
    ensures |r| == |Trim(output)| || Trim(output)[|r|] == '\n'
  {
    FirstLine(Trim(output))
  }

  /** The interpreter it evidently means to pick: the first listed path, without its line ending. */
  function PickedPython(output: string): (r: string)
    ensures r == [] || (!IsWhitespace(r[0]) && !IsWhitespace(r[|r| - 1]))
    ensures '\n' !in r
  {
    var line := FirstLine(Trim(output));
    var r := Trim(line);
    TrimmedHasNo(line, r, '\n');
    r
  }

  lemma TrimmedHasNo(s: string, r: string, c: char)
    requires c !in s
    requires exists a :: IsTrimmedSlice(s, r, a)
    ensures c !in r
  {
    var a: nat :| IsTrimmedSlice(s, r, a);
    forall k | 0 <= k < |r|
      ensures r[k] != c
    {
      assert r[k] == s[a + k];
    }
  }

  /**
   * `where python` ends its lines with carriage return and line feed. When
   * it lists two interpreters, the code keeps the carriage return on the
   * first path, so the existence check that follows looks for a name that
   * is not there.
   */
  lemma PickedPythonKeepsCarriageReturn(p: string, rest: string)
    requires p != [] && HasNoWhitespace(p) && '\n' !in p
    requires rest != [] && !IsWhitespace(rest[|rest| - 1])
    ensures PickedPythonAsWritten(p + "\r\n" + rest) == p + "\r"
    ensures PickedPythonAsWritten(p + "\r\n" + rest) != p
  {
    var out := p + "\r\n" + rest;
    assert out[0] == p[0] && out[|out| - 1] == rest[|rest| - 1];
    TrimOfTrimmed(out);
    var head := p + "\r";
    assert out == head + ['\n'] + rest;
    assert '\n' !in head;
    SplitBefore(head, rest, '\n');
    assert |head| != |p|;
  }

  /**
   * The evident intent on any listing: a first path with no whitespace in
   * it, ended by a line feed or by a carriage return and line feed, followed
   * by more of the listing, is picked exactly.
   */
  lemma PickedPythonFirstPath(p: string, eol: string, rest: string)
    requires p != [] && HasNoWhitespace(p) && '\n' !in p
    requires eol == "\n" || eol == "\r\n"
    requires rest != [] && !IsWhitespace(rest[|rest| - 1])
    ensures PickedPython(p + eol + rest) == p
  {
    var out := p + eol + rest;
    assert out[0] == p[0] && out[|out| - 1] == rest[|rest| - 1];
    TrimOfTrimmed(out);
    var head := p + eol[..|eol| - 1];
    assert out == head + ['\n'] + rest;
    assert '\n' !in head;
    SplitBefore(head, rest, '\n');
    if eol == "\n" {
      assert head == p;
      TrimOfTrimmed(p);
    } else {
      assert head == p + ['\r'];
      TrimOfTrimmed(p);
      TrimEndDrops(p, '\r');
    }
  }

  lemma TrimOfTrimmed(s: string)
    requires s != [] && !IsWhitespace(s[0]) && !IsWhitespace(s[|s| - 1])
    ensures Trim(s) == s
  {
    assert TrimStart(s) == s;
    assert TrimEnd(s) == s;
  }

  lemma TrimEndDrops(p: string, c: char)
    requires p != [] && !IsWhitespace(p[0]) && !IsWhitespace(p[|p| - 1]) && IsWhitespace(c)
    ensures Trim(p + [c]) == p
  {
    var s := p + [c];
    assert s[0] == p[0];
    assert TrimStart(s) == s;
    assert s[..|s| - 1] == p;
    assert TrimEnd(p) == p;
  }

  lemma {:induction false} SplitBefore(a: string, b: string, sep: char)
    requires sep !in a
    ensures SplitOn(a + [sep] + b, sep)[0] == a
    decreases |a|
  {
    var s := a + [sep] + b;
    if a != [] {
      assert s[1..] == a[1..] + [sep] + b;
      SplitBefore(a[1..], b, sep);
      assert [a[0]] + a[1..] == a;
    }
  }

  /**
   * `findPythonPath`: runs the platform's lookup command; when it succeeds
   * and the picked path exists, the path is stored under the Python key and
   * returned; otherwise nothing is stored and the result is none.
   */
  method FindPythonPath(host: Host, settings: Settings, isWindows: bool, lookup: Result<string, string>)
    returns (command: string, found: Option<string>)
    modifies settings
    ensures command == WhichPythonCommand(isWindows)
    ensures found.Some? <==> lookup.Success? && PickedPythonAsWritten(lookup.value) in host.existing
    ensures found.Some? ==>
      found.value == PickedPythonAsWritten(lookup.value)
      && settings.values == old(settings.values)[PythonPathKey := found.value]
    ensures found.None? ==> settings.values == old(settings.values)
  {
    command := WhichPythonCommand(isWindows);
    found := None;
    if lookup.Success? {
      var pythonPath := PickedPythonAsWritten(lookup.value);
      if pythonPath in host.existing {
        settings.Set(PythonPathKey, pythonPath);
        found := Some(pythonPath);
      }
    }
  }

  // ---------------------------------------------------------------------------
  // Python packages
  // ---------------------------------------------------------------------------

  /** The package name on one line of `pip list`: its first word, lower-cased. */
  function PipRowName(line: string): (name: string)
    ensures HasNoWhitespace(name) && IsLowerCase(name)
  {
    var token := FirstToken(Trim(line));
    LowerHasNoWhitespace(token);
    LowerIsLower(token);
    ToLower(token)
  }

  lemma LowerHasNoWhitespace(s: string)
    requires HasNoWhitespace(s)
    ensures HasNoWhitespace(ToLower(s))
  {
    forall i | 0 <= i < |s|
      ensures !IsWhitespace(ToLower(s)[i])
    {
      assert ToLower(s)[i] == ToLowerChar(s[i]);
    }
  }

  lemma LowerIsLower(s: string)
    ensures IsLowerCase(ToLower(s))
  {
    var t := ToLower(s);
    assert ToLower(t) == t;
  }

  /**
   * The installed packages `pip list` reports: the two header lines are
   * skipped and every other line gives its lower-cased first word (an
   * empty line gives the empty name).
   */
  function ParsePipList(output: string): (names: seq<string>)
    ensures var lines := SplitOn(output, '\n');
      |names| == (if |lines| <= 2 then 0 else |lines| - 2)
      && forall i :: 0 <= i < |names| ==> names[i] == PipRowName(lines[i + 2])
    ensures forall i :: 0 <= i < |names| ==> HasNoWhitespace(names[i]) && IsLowerCase(names[i])
  {
    var lines := SplitOn(output, '\n');
    var rows := if |lines| <= 2 then [] else lines[2..];
    seq(|rows|, i requires 0 <= i < |rows| => PipRowName(rows[i]))
  }

  /** A row `Name   version` of the listing gives the name in lower case. */
  lemma PipRowNameOf(name: string, gap: string, version: string)
    requires name != [] && HasNoWhitespace(name)
    requires gap != [] && forall i :: 0 <= i < |gap| ==> IsWhitespace(gap[i])
    requires version != [] && !IsWhitespace(version[|version| - 1])
    ensures PipRowName(name + gap + version) == ToLower(name)
  {
    var line := name + gap + version;
    assert line[0] == name[0] && line[|line| - 1] == version[|version| - 1];
    TrimOfTrimmed(line);
    FirstTokenOf(name, gap + version);
    assert line == name + (gap + version);
  }

  lemma {:induction false} FirstTokenOf(word: string, rest: string)
    requires HasNoWhitespace(word)
    requires rest != [] && IsWhitespace(rest[0])
    ensures FirstToken(word + rest) == word
    decreases |word|
  {
    if word != [] {
      assert (word + rest)[1..] == word[1..] + rest;
      FirstTokenOf(word[1..], rest);
      assert [word[0]] + word[1..] == word;
    } else {
      assert word + rest == rest;
    }
  }

  /** The requested package is reported: its lower-cased name is listed. */
  predicate IsListed(pkg: string, listed: seq<string>)
  {
    ToLower(pkg) in listed
  }

  /** Matching ignores case: a name and its lower-cased form are listed alike. */
  lemma ListedIgnoresCase(pkg: string, listed: seq<string>)
    ensures IsListed(ToLower(pkg), listed) <==> IsListed(pkg, listed)
  {
    LowerIsLower(pkg);
  }

  /** Whether a requested package belongs on the side `want` (listed or not). */
  function Wants(listed: seq<string>, want: bool): string -> bool
  {
    x => IsListed(x, listed) == want
  }

  /**
   * The requested packages that are listed (`want`) or not listed (`!want`):
   * exactly those, each as often as it was requested and in request order.
   */
  function Select(packages: seq<string>, listed: seq<string>, want: bool): (r: seq<string>)
    ensures forall x :: x in r ==> x in packages && IsListed(x, listed) == want
    decreases |packages|
  {
    if packages == [] then []
    else
      var init := Select(packages[..|packages| - 1], listed, want);
      var last := packages[|packages| - 1];
      if IsListed(last, listed) == want then init + [last] else init
  }

  /**
   * Every requested package lands in exactly one of the two lists: each
   * package goes to one side or the other, as many times as it was asked for.
   */
  lemma {:induction false} SelectPartition(packages: seq<string>, listed: seq<string>)
    ensures multiset(Select(packages, listed, true)) + multiset(Select(packages, listed, false)) == multiset(packages)
    ensures forall x :: x in packages ==> (x in Select(packages, listed, true) <==> IsListed(x, listed))
    ensures forall x :: x in packages ==> (x in Select(packages, listed, false) <==> !IsListed(x, listed))
    decreases |packages|
  {
    if packages != [] {
      var init := packages[..|packages| - 1];
      SelectPartition(init, listed);
      assert packages == init + [packages[|packages| - 1]];
    }
  }

  /**
   * Each side keeps request order: the `k`-th package on it is the request
   * at the `k`-th position that belongs there.
   */
  lemma {:induction false} SelectInOrder(packages: seq<string>, listed: seq<string>, want: bool)
    ensures var r := Select(packages, listed, want);
      var ps := Positions(packages, Wants(listed, want));
      |r| == |ps| && forall k :: 0 <= k < |r| ==> r[k] == packages[ps[k]]
    decreases |packages|
  {
    if packages != [] {
      var n := |packages| - 1;
      var init := packages[..n];
      var keep := Wants(listed, want);
      SelectInOrder(init, listed, want);
      SelectStep(packages, listed, want);
      var r0, ps0 := Select(init, listed, want), Positions(init, keep);
      assert Positions(packages, keep) == ps0 + (if keep(packages[n]) then [n] else []);
      forall k | 0 <= k < |r0|
        ensures r0[k] == packages[ps0[k]]
      {
        assert r0[k] == init[ps0[k]];
      }
    }
  }

  /** One more request joins the end of the side it belongs to. */
  lemma SelectStep(packages: seq<string>, listed: seq<string>, want: bool)
    requires packages != []
    ensures var last := packages[|packages| - 1];
      Select(packages, listed, want)
      == Select(packages[..|packages| - 1], listed, want) + (if IsListed(last, listed) == want then [last] else [])
  {
  }

  /**
   * `checkPythonPackages`: with no Python path, or when `pip list` fails,
   * every package is missing; otherwise each package goes, in order, to
   * `installed` when its lower-cased name is among the listed names and to
   * `missing` when it is not.
   */
  method CheckPythonPackages(pythonPath: Option<string>, packages: seq<string>, pipList: Result<string, string>)
    returns (command: Option<string>, installed: seq<string>, missing: seq<string>)
    ensures command.Some? <==> Truthy(pythonPath)
    ensures command.Some? ==> command.value == "\"" + pythonPath.value + "\" -m pip list"
    ensures !Truthy(pythonPath) || pipList.Failure? ==> installed == [] && missing == packages
    ensures Truthy(pythonPath) && pipList.Success? ==>
      var listed := ParsePipList(pipList.value);
      installed == Select(packages, listed, true) && missing == Select(packages, listed, false)
    ensures multiset(installed) + multiset(missing) == multiset(packages)
  {
    if !Truthy(pythonPath) {
      return None, [], packages;
    }
    command := Some("\"" + pythonPath.value + "\" -m pip list");
    if pipList.Failure? {
      return command, [], packages;
    }
    var listed := ParsePipList(pipList.value);
    installed, missing := [], [];
    var i := 0;
    while i < |packages|
      invariant 0 <= i <= |packages|
      invariant installed == Select(packages[..i], listed, true)
      invariant missing == Select(packages[..i], listed, false)
    {
      assert packages[..i + 1][..i] == packages[..i];
      SelectStep(packages[..i + 1], listed, true);
      SelectStep(packages[..i + 1], listed, false);
      if ToLower(packages[i]) in listed {
        installed := installed + [packages[i]];
      } else {
        missing := missing + [packages[i]];
      }
      i := i + 1;
    }
    assert packages[..i] == packages;
    SelectPartition(packages, listed);
  }

  // ---------------------------------------------------------------------------
  // Settings and start-up
  // ---------------------------------------------------------------------------

  datatype OptionalTool = Python | Soundtouch

  /** The settings key of an optional tool's path. */
  function KeyFor(tool: OptionalTool): (key: string)
    ensures tool == Python ==> key == PythonPathKey
    ensures tool == Soundtouch ==> key == SoundtouchPathKey
  {
    match tool
    case Python => PythonPathKey
    case Soundtouch => SoundtouchPathKey
  }

  /** The two optional tools are stored under different keys. */
  lemma KeysDistinct()
    ensures KeyFor(Python) != KeyFor(Soundtouch)
  {
    assert PythonPathKey[13] != SoundtouchPathKey[13];
  }

  /** `setDependencyPath`: stores the path under the tool's own key and leaves every other setting alone. */
  method SetDependencyPath(settings: Settings, tool: OptionalTool, path: string)
    modifies settings
    ensures settings.values == old(settings.values)[KeyFor(tool) := path]
  {
    match tool {
      case Python => settings.Set(PythonPathKey, path);
      case Soundtouch => settings.Set(SoundtouchPathKey, path);
    }
  }

  /**
   * `initializeDependencies`: looks for Python only when no Python path is
   * set, then validates the tools with the settings as they are afterwards.
   */
  method InitializeDependencies(host: Host, settings: Settings, isWindows: bool, lookup: Result<string, string>)
    returns (valid: bool, missing: seq<string>)
    modifies settings
    ensures Truthy(old(settings.Get(PythonPathKey))) ==> settings.values == old(settings.values)
    ensures !Truthy(old(settings.Get(PythonPathKey))) ==>
      if lookup.Success? && PickedPythonAsWritten(lookup.value) in host.existing
      then settings.values == old(settings.values)[PythonPathKey := PickedPythonAsWritten(lookup.value)]
      else settings.values == old(settings.values)
    ensures valid <==> missing == []
    ensures "FFmpeg" in missing <==> !IsExecutable(host.ffmpegStatic, host.executable)
    ensures "yt-dlp" in missing <==> !IsExecutable(Some(host.ytDlpBinary), host.executable)
    ensures var python := settings.Get(PythonPathKey);
      "Python" in missing <==> Truthy(python) && !IsExecutable(python, host.executable)
    ensures var soundtouch := old(settings.Get(SoundtouchPathKey));
      "Soundtouch" in missing <==> Truthy(soundtouch) && !IsExecutable(soundtouch, host.executable)
    ensures InToolOrder(missing, 4)
  {
    var pythonPath := GetDependencyPaths(host, settings).python;
    if !Truthy(pythonPath) {
      var _, _ := FindPythonPath(host, settings, isWindows, lookup);
    }
    valid, missing := ValidateDependencies(GetDependencyPaths(host, settings), host.executable);
  }
}
