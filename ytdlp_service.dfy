/**
 * The yt-dlp service: reads a video's metadata, picks the best video-only
 * and audio-only formats, and downloads media and subtitles. The yt-dlp
 * binary is an oracle: a metadata probe that answers with the raw JSON or
 * with the text of the error it raised, and download runs that report
 * progress, write some files and succeed or fail.
 */
module YtDlp {
  import opened Shared
  import opened Strings
  import opened FileSystem

  // ---------------------------------------------------------------------------
  // Errors
  // ---------------------------------------------------------------------------

  /** The `YtDlpError` family: the base class and its three subclasses. */
  datatype YtDlpError =
    | GeneralError(message: string)
    | InvalidUrlError(url: string)
    | FormatNotAvailableError(formatCode: string)
    | DownloadFailedError(reason: string)

  /** The error's `name`. */
  function Name(e: YtDlpError): string
  {
    match e
    case GeneralError(_) => "YtDlpError"
    case InvalidUrlError(_) => "InvalidUrlError"
    case FormatNotAvailableError(_) => "FormatNotAvailableError"
    case DownloadFailedError(_) => "DownloadFailedError"
  }

  /** The error's `message`: each subclass puts its own prefix before its argument. */
  function Message(e: YtDlpError): (m: string)
    ensures e.InvalidUrlError? ==>
      StartsWith(m, "Invalid URL: ") && EndsWith(m, e.url) && |m| == |"Invalid URL: "| + |e.url|
    ensures e.FormatNotAvailableError? ==>
      StartsWith(m, "Format not available: ") && EndsWith(m, e.formatCode)
      && |m| == |"Format not available: "| + |e.formatCode|
    ensures e.DownloadFailedError? ==>
      StartsWith(m, "Download failed: ") && EndsWith(m, e.reason) && |m| == |"Download failed: "| + |e.reason|
    ensures e.GeneralError? ==> m == e.message
  {
    match e
    case GeneralError(message) => message
    case InvalidUrlError(url) => "Invalid URL: " + url
    case FormatNotAvailableError(formatCode) => "Format not available: " + formatCode
    case DownloadFailedError(reason) => "Download failed: " + reason
  }

  /** `String(error)` for an error of the family: its name, a colon and its message. */
  function ErrorText(e: YtDlpError): (t: string)
    ensures StartsWith(t, Name(e) + ": ") && EndsWith(t, Message(e))
    ensures |t| == |Name(e)| + 2 + |Message(e)|
  {
    Name(e) + ": " + Message(e)
  }

  /** `String(error)` for the error `fs.mkdirSync` throws. */
  function SystemErrorText(message: string): string
  {
    "Error: " + message
  }

  // ---------------------------------------------------------------------------
  // Metadata
  // ---------------------------------------------------------------------------

  datatype SubtitleTrack = SubtitleTrack(ext: string, url: string, name: Option<string>)

  type SubtitleTable = map<string, seq<SubtitleTrack>>

  /** One entry of the `formats` array in yt-dlp's JSON; any field may be absent. */
  datatype RawFormat = RawFormat(
    format_id: Option<string>, format_note: Option<string>, ext: Option<string>, resolution: Option<string>,
    width: Option<int>, height: Option<int>, filesize: Option<int>, fps: Option<real>,
    vcodec: Option<string>, acodec: Option<string>, audio_channels: Option<int>)

  /** yt-dlp's JSON for one video; any field may be absent. */
  datatype RawInfo = RawInfo(
    id: Option<string>, title: Option<string>, description: Option<string>, thumbnail: Option<string>,
    duration: Option<real>, upload_date: Option<string>, uploader: Option<string>,
    formats: Option<seq<RawFormat>>, subtitles: Option<SubtitleTable>,
    automatic_captions: Option<SubtitleTable>, language: Option<string>)

  datatype Format = Format(
    formatId: Option<string>, formatNote: Option<string>, ext: Option<string>, resolution: Option<string>,
    width: Option<int>, height: Option<int>, filesize: Option<int>, fps: Option<real>,
    vcodec: Option<string>, acodec: Option<string>, audioChannels: Option<int>)

  datatype VideoInfo = VideoInfo(
    id: Option<string>, title: Option<string>, description: string, thumbnail: string, duration: real,
    uploadDate: string, uploader: string, formats: seq<Format>,
    subtitles: Option<SubtitleTable>, automaticCaptions: Option<SubtitleTable>, originalLanguage: Option<string>)

  function FormatOf(f: RawFormat): Format
  {
    Format(f.format_id, f.format_note, f.ext, f.resolution, f.width, f.height, f.filesize, f.fps,
           f.vcodec, f.acodec, f.audio_channels)
  }

  /** `rawInfo.duration || 0`: an absent or zero duration is 0. */
  function DurationOr(d: Option<real>): (r: real)
    ensures d.None? ==> r == 0.0
    ensures d.Some? ==> r == d.value
  {
    match d
    case None => 0.0
    case Some(v) => v
  }

  /**
   * `parseVideoInfo`: the text fields default to the empty string, the
   * duration to 0 and the format list to empty; every raw format gives one
   * format, in order, with its fields carried over under their new names;
   * the language becomes `originalLanguage`.
   */
  function ParseVideoInfo(raw: RawInfo): (info: VideoInfo)
    ensures info.id == raw.id && info.title == raw.title
    ensures info.description == StringOr(raw.description, "")
    ensures info.thumbnail == StringOr(raw.thumbnail, "")
    ensures info.uploadDate == StringOr(raw.upload_date, "")
    ensures info.uploader == StringOr(raw.uploader, "")
    ensures info.duration == DurationOr(raw.duration)
    ensures raw.formats.None? ==> info.formats == []
    ensures raw.formats.Some? ==>
      |info.formats| == |raw.formats.value|
      && forall i :: 0 <= i < |info.formats| ==>
           && info.formats[i].formatId == raw.formats.value[i].format_id
           && info.formats[i].formatNote == raw.formats.value[i].format_note
           && info.formats[i].ext == raw.formats.value[i].ext
           && info.formats[i].resolution == raw.formats.value[i].resolution
           && info.formats[i].filesize == raw.formats.value[i].filesize
           && info.formats[i].fps == raw.formats.value[i].fps
           && info.formats[i].vcodec == raw.formats.value[i].vcodec
           && info.formats[i].acodec == raw.formats.value[i].acodec
           && info.formats[i].width == raw.formats.value[i].width
           && info.formats[i].height == raw.formats.value[i].height
           && info.formats[i].audioChannels == raw.formats.value[i].audio_channels
    ensures info.subtitles == raw.subtitles && info.automaticCaptions == raw.automatic_captions
    ensures info.originalLanguage == raw.language
  {
    var raws := if raw.formats.Some? then raw.formats.value else [];
    VideoInfo(raw.id, raw.title, StringOr(raw.description, ""), StringOr(raw.thumbnail, ""),
              DurationOr(raw.duration), StringOr(raw.upload_date, ""), StringOr(raw.uploader, ""),
              seq(|raws|, i requires 0 <= i < |raws| => FormatOf(raws[i])),
              raw.subtitles, raw.automatic_captions, raw.language)
  }

  /**
   * `getVideoInfo`: the parsed metadata, or, when the probe fails, an
   * `InvalidUrlError` for the URL if the error's text mentions
   * `invalid URL` and a `YtDlpError` quoting that text otherwise.
   */
  function GetVideoInfo(url: string, probe: Result<RawInfo, string>): (r: Result<VideoInfo, YtDlpError>)
    ensures r.Success? <==> probe.Success?
    ensures r.Success? ==> r.value == ParseVideoInfo(probe.value)
    ensures r.Failure? && Contains(probe.error, "invalid URL") ==> r.error == InvalidUrlError(url)
    ensures r.Failure? && !Contains(probe.error, "invalid URL") ==>
      r.error.GeneralError? && Message(r.error) == "Failed to get video info: " + probe.error
  {
    match probe
    case Success(raw) => Success(ParseVideoInfo(raw))
    case Failure(text) =>
      if Contains(text, "invalid URL") then Failure(InvalidUrlError(url))
      else Failure(GeneralError("Failed to get video info: " + text))
  }

  // ---------------------------------------------------------------------------
  // Format selection
  // ---------------------------------------------------------------------------

  /** A codec field that says the stream is absent: `'none'` or `'no'`. */
  predicate NoStream(codec: Option<string>)
  {
    codec == Some("none") || codec == Some("no")
  }

  /** A format with video and without audio. */
  predicate IsVideoOnly(f: Format)
  {
    f.vcodec != Some("none") && NoStream(f.acodec)
  }

  /** A format with audio and without video. */
  predicate IsAudioOnly(f: Format)
  {
    f.acodec != Some("none") && NoStream(f.vcodec)
  }

  /**
   * The two filters overlap only on a format whose video and audio codecs
   * are both `'no'`: such a format passes both.
   */
  lemma BothKinds(f: Format)
    ensures IsVideoOnly(f) && IsAudioOnly(f) <==> f.vcodec == Some("no") && f.acodec == Some("no")
  {
  }

  /**
   * `formats.filter(...)` keeping the video-only formats: exactly those,
   * each as often as it occurs and in list order.
   */
  function VideoOnly(formats: seq<Format>): (r: seq<Format>)
    ensures var ps := Positions(formats, IsVideoOnly);
      |r| == |ps| && forall k :: 0 <= k < |r| ==> r[k] == formats[ps[k]]
    ensures r == [] <==> forall i :: 0 <= i < |formats| ==> !IsVideoOnly(formats[i])
    decreases |formats|
  {
    if formats == [] then []
    else
      var init := formats[..|formats| - 1];
      var last := formats[|formats| - 1];
      assert formats == init + [last];
      var r := VideoOnly(init);
      if IsVideoOnly(last) then r + [last] else r
  }

  /**
   * `formats.filter(...)` keeping the audio-only formats: exactly those,
   * each as often as it occurs and in list order.
   */
  function AudioOnly(formats: seq<Format>): (r: seq<Format>)
    ensures var ps := Positions(formats, IsAudioOnly);
      |r| == |ps| && forall k :: 0 <= k < |r| ==> r[k] == formats[ps[k]]
    ensures r == [] <==> forall i :: 0 <= i < |formats| ==> !IsAudioOnly(formats[i])
    decreases |formats|
  {
    if formats == [] then []
    else
      var init := formats[..|formats| - 1];
      var last := formats[|formats| - 1];
      assert formats == init + [last];
      var r := AudioOnly(init);
      if IsAudioOnly(last) then r + [last] else r
  }

  /** `(f.height || 0) * (f.width || 0)`. */
  function Area(f: Format): int
  {
    (if f.height.Some? then f.height.value else 0) * (if f.width.Some? then f.width.value else 0)
  }

  /** `f.audioChannels || 0`. */
  function Channels(f: Format): int
  {
    if f.audioChannels.Some? then f.audioChannels.value else 0
  }

  /**
   * The element a stable sort by decreasing key puts first: the earliest
   * position holding the largest key.
   */
  function FirstMax(keys: seq<int>): (k: nat)
    requires keys != []
    ensures k < |keys|
    ensures forall i :: 0 <= i < |keys| ==> keys[i] <= keys[k]
    ensures forall i :: 0 <= i < k ==> keys[i] < keys[k]
    decreases |keys|
  {
    if |keys| == 1 then 0
    else
      var k := FirstMax(keys[..|keys| - 1]);
      if keys[|keys| - 1] > keys[k] then |keys| - 1 else k
  }

  function Areas(formats: seq<Format>): (keys: seq<int>)
    ensures |keys| == |formats| && forall i :: 0 <= i < |formats| ==> keys[i] == Area(formats[i])
  {
    seq(|formats|, i requires 0 <= i < |formats| => Area(formats[i]))
  }

  function ChannelCounts(formats: seq<Format>): (keys: seq<int>)
    ensures |keys| == |formats| && forall i :: 0 <= i < |formats| ==> keys[i] == Channels(formats[i])
  {
    seq(|formats|, i requires 0 <= i < |formats| => Channels(formats[i]))
  }

  const CombinedVideo := "bestvideo+bestaudio/best"
  const CombinedAudio := "bestaudio/best"

  /**
   * The best formats: when there is no video-only or no audio-only format,
   * the combined selectors; otherwise the id of the first video-only format
   * with the largest area and of the first audio-only format with the most
   * channels, each falling back to a `best` selector when its id is empty.
   */
  function BestFormats(formats: seq<Format>): (ids: (string, string))
  {
    var videos := VideoOnly(formats);
    var audios := AudioOnly(formats);
    if videos == [] || audios == [] then (CombinedVideo, CombinedAudio)
    else
      var v := videos[FirstMax(Areas(videos))];
      var a := audios[FirstMax(ChannelCounts(audios))];
      (StringOr(v.formatId, "bestvideo"), StringOr(a.formatId, "bestaudio"))
  }

  /** Without a video-only or an audio-only format, the combined selectors are used, exactly. */
  lemma BestFormatsFallback(formats: seq<Format>)
    requires (forall i :: 0 <= i < |formats| ==> !IsVideoOnly(formats[i]))
             || (forall i :: 0 <= i < |formats| ==> !IsAudioOnly(formats[i]))
    ensures BestFormats(formats) == ("bestvideo+bestaudio/best", "bestaudio/best")
  {
  }

  /**
   * The position in the whole list of the video-only format with the
   * largest area, the earliest one on a tie.
   */
  function ChosenVideo(formats: seq<Format>): (m: nat)
    requires VideoOnly(formats) != []
    ensures m < |formats| && IsVideoOnly(formats[m])
    ensures formats[m] == VideoOnly(formats)[FirstMax(Areas(VideoOnly(formats)))]
  {
    var ps := Positions(formats, IsVideoOnly);
    var k := FirstMax(Areas(VideoOnly(formats)));
    assert VideoOnly(formats)[k] == formats[ps[k]];
    ps[k]
  }

  /**
   * With both kinds present, the chosen video id is that of the video-only
   * format at position `m` of the list: no video-only format ranks above it,
   * and every video-only format before position `m` ranks below it, as a
   * stable sort by decreasing area would put it first.
   */
  lemma BestVideoChoice(formats: seq<Format>)
    requires VideoOnly(formats) != [] && AudioOnly(formats) != []
    ensures var m := ChosenVideo(formats);
      && BestFormats(formats).0 == StringOr(formats[m].formatId, "bestvideo")
      && (forall j :: 0 <= j < |formats| && IsVideoOnly(formats[j]) ==> Area(formats[j]) <= Area(formats[m]))
      && (forall j :: 0 <= j < m && IsVideoOnly(formats[j]) ==> Area(formats[j]) < Area(formats[m]))
  {
    BestVideoId(formats);
    forall j | 0 <= j < |formats| && IsVideoOnly(formats[j])
      ensures Area(formats[j]) <= Area(formats[ChosenVideo(formats)])
      ensures j < ChosenVideo(formats) ==> Area(formats[j]) < Area(formats[ChosenVideo(formats)])
    {
      VideoRankBelow(formats, j);
    }
  }

  /** One video-only format against the chosen one: never above it, and below it when earlier. */
  lemma VideoRankBelow(formats: seq<Format>, j: nat)
    requires VideoOnly(formats) != [] && j < |formats| && IsVideoOnly(formats[j])
    ensures Area(formats[j]) <= Area(formats[ChosenVideo(formats)])
    ensures j < ChosenVideo(formats) ==> Area(formats[j]) < Area(formats[ChosenVideo(formats)])
  {
    var l := PositionOf(formats, IsVideoOnly, j);
    VideoRankAt(formats, l);
  }

  /** The same, for the `l`-th kept video-only format. */
  lemma VideoRankAt(formats: seq<Format>, l: nat)
    requires l < |VideoOnly(formats)|
    ensures var ps := Positions(formats, IsVideoOnly);
      && l < |ps|
      && Area(formats[ps[l]]) <= Area(formats[ChosenVideo(formats)])
      && (ps[l] < ChosenVideo(formats) ==> Area(formats[ps[l]]) < Area(formats[ChosenVideo(formats)]))
  {
    var ps := Positions(formats, IsVideoOnly);
    var keys := Areas(VideoOnly(formats));
    var k := FirstMax(keys);
    VideoKeyAt(formats, l);
    VideoKeyAt(formats, k);
    RankAgainstFirstMax(ps, keys, l, k);
  }

  /** The key of the `i`-th kept video-only format is that of the format at its position. */
  lemma VideoKeyAt(formats: seq<Format>, i: nat)
    requires i < |VideoOnly(formats)|
    ensures var ps := Positions(formats, IsVideoOnly);
      i < |ps| && Areas(VideoOnly(formats))[i] == Area(formats[ps[i]])
  {
  }

  lemma BestVideoId(formats: seq<Format>)
    requires VideoOnly(formats) != [] && AudioOnly(formats) != []
    ensures var videos := VideoOnly(formats);
      BestFormats(formats).0 == StringOr(videos[FirstMax(Areas(videos))].formatId, "bestvideo")
  {
  }

  /**
   * The position in the whole list of the audio-only format with the
   * largest channel count, the earliest one on a tie.
   */
  function ChosenAudio(formats: seq<Format>): (m: nat)
    requires AudioOnly(formats) != []
    ensures m < |formats| && IsAudioOnly(formats[m])
    ensures formats[m] == AudioOnly(formats)[FirstMax(ChannelCounts(AudioOnly(formats)))]
  {
    var ps := Positions(formats, IsAudioOnly);
    var k := FirstMax(ChannelCounts(AudioOnly(formats)));
    assert AudioOnly(formats)[k] == formats[ps[k]];
    ps[k]
  }

  /**
   * With both kinds present, the chosen audio id is that of the audio-only
   * format at position `m` of the list: no audio-only format ranks above it,
   * and every audio-only format before position `m` ranks below it, as a
   * stable sort by decreasing channel count would put it first.
   */
  lemma BestAudioChoice(formats: seq<Format>)
    requires VideoOnly(formats) != [] && AudioOnly(formats) != []
    ensures var m := ChosenAudio(formats);
      && BestFormats(formats).1 == StringOr(formats[m].formatId, "bestaudio")
      && (forall j :: 0 <= j < |formats| && IsAudioOnly(formats[j]) ==> Channels(formats[j]) <= Channels(formats[m]))
      && (forall j :: 0 <= j < m && IsAudioOnly(formats[j]) ==> Channels(formats[j]) < Channels(formats[m]))
  {
    BestAudioId(formats);
    forall j | 0 <= j < |formats| && IsAudioOnly(formats[j])
      ensures Channels(formats[j]) <= Channels(formats[ChosenAudio(formats)])
      ensures j < ChosenAudio(formats) ==> Channels(formats[j]) < Channels(formats[ChosenAudio(formats)])
    {
      AudioRankBelow(formats, j);
    }
  }

  /** One audio-only format against the chosen one: never above it, and below it when earlier. */
  lemma AudioRankBelow(formats: seq<Format>, j: nat)
    requires AudioOnly(formats) != [] && j < |formats| && IsAudioOnly(formats[j])
    ensures Channels(formats[j]) <= Channels(formats[ChosenAudio(formats)])
    ensures j < ChosenAudio(formats) ==> Channels(formats[j]) < Channels(formats[ChosenAudio(formats)])
  {
    var l := PositionOf(formats, IsAudioOnly, j);
    AudioRankAt(formats, l);
  }

  /** The same, for the `l`-th kept audio-only format. */
  lemma AudioRankAt(formats: seq<Format>, l: nat)
    requires l < |AudioOnly(formats)|
    ensures var ps := Positions(formats, IsAudioOnly);
      && l < |ps|
      && Channels(formats[ps[l]]) <= Channels(formats[ChosenAudio(formats)])
      && (ps[l] < ChosenAudio(formats) ==> Channels(formats[ps[l]]) < Channels(formats[ChosenAudio(formats)]))
  {
    var ps := Positions(formats, IsAudioOnly);
    var keys := ChannelCounts(AudioOnly(formats));
    var k := FirstMax(keys);
    AudioKeyAt(formats, l);
    AudioKeyAt(formats, k);
    RankAgainstFirstMax(ps, keys, l, k);
  }

  /** The key of the `i`-th kept audio-only format is that of the format at its position. */
  lemma AudioKeyAt(formats: seq<Format>, i: nat)
    requires i < |AudioOnly(formats)|
    ensures var ps := Positions(formats, IsAudioOnly);
      i < |ps| && ChannelCounts(AudioOnly(formats))[i] == Channels(formats[ps[i]])
  {
  }

  lemma BestAudioId(formats: seq<Format>)
    requires VideoOnly(formats) != [] && AudioOnly(formats) != []
    ensures var audios := AudioOnly(formats);
      BestFormats(formats).1 == StringOr(audios[FirstMax(ChannelCounts(audios))].formatId, "bestaudio")
  {
  }

  /** `info.formats.some(f => f.formatId === code)`. */
  function HasFormat(formats: seq<Format>, code: string): (b: bool)
    ensures b <==> exists i :: 0 <= i < |formats| && formats[i].formatId == Some(code)
    decreases |formats|
  {
    if formats == [] then false
    else if formats[0].formatId == Some(code) then true
    else
      var b := HasFormat(formats[1..], code);
      assert forall i :: 1 <= i < |formats| ==> formats[i] == formats[1..][i - 1];
      b
  }

  /** The format check of `downloadMedia`: a listed id, or a selector that mentions `best`. */
  predicate FormatAvailable(formats: seq<Format>, code: string)
  {
    HasFormat(formats, code) || Contains(code, "best")
  }

  lemma MentionsBest(rest: string)
    ensures Contains("best" + rest, "best")
  {
    var code := "best" + rest;
    assert code[..4] == "best";
    ContainsPrefix(code, "best");
  }

  /**
   * The video format `getBestFormats` chooses always passes the format
   * check of `downloadMedia`, so downloading it never fails with
   * `FormatNotAvailableError`.
   */
  lemma BestVideoAvailable(formats: seq<Format>)
    ensures FormatAvailable(formats, BestFormats(formats).0)
  {
    if VideoOnly(formats) == [] || AudioOnly(formats) == [] {
      CombinedVideoAvailable(formats);
    } else {
      ChosenVideoAvailable(formats);
    }
  }

  lemma CombinedVideoAvailable(formats: seq<Format>)
    requires VideoOnly(formats) == [] || AudioOnly(formats) == []
    ensures FormatAvailable(formats, BestFormats(formats).0)
  {
    assert BestFormats(formats).0 == CombinedVideo;
    CombinedMentionsBest();
  }

  lemma CombinedMentionsBest()
    ensures Contains(CombinedVideo, "best")
  {
    assert CombinedVideo[..4] == "best";
    ContainsPrefix(CombinedVideo, "best");
  }

  lemma ChosenVideoAvailable(formats: seq<Format>)
    requires VideoOnly(formats) != [] && AudioOnly(formats) != []
    ensures FormatAvailable(formats, BestFormats(formats).0)
  {
    BestVideoId(formats);
    IdAvailable(formats, ChosenVideo(formats));
  }

  /** The id of any listed format, or `bestvideo` in place of a missing one, passes the format check. */
  lemma IdAvailable(formats: seq<Format>, m: nat)
    requires m < |formats|
    ensures FormatAvailable(formats, StringOr(formats[m].formatId, "bestvideo"))
  {
    var id := StringOr(formats[m].formatId, "bestvideo");
    if Truthy(formats[m].formatId) {
      HasFormatAt(formats, m, id);
    } else {
      MentionsBest("video");
      assert id == "best" + "video";
    }
  }

  lemma HasFormatAt(formats: seq<Format>, m: nat, code: string)
    requires m < |formats| && formats[m].formatId == Some(code)
    ensures HasFormat(formats, code)
  {
  }

  /** `getBestFormats`: the choice above on the video's formats; a failed probe is wrapped. */
  function GetBestFormats(url: string, probe: Result<RawInfo, string>): (r: Result<(string, string), YtDlpError>)
    ensures r.Success? <==> probe.Success?
    ensures r.Success? ==> r.value == BestFormats(ParseVideoInfo(probe.value).formats)
    ensures r.Failure? ==>
      r.error == GeneralError("Failed to determine best formats: " + ErrorText(GetVideoInfo(url, probe).error))
  {
    match GetVideoInfo(url, probe)
    case Success(info) => Success(BestFormats(info.formats))
    case Failure(e) => Failure(GeneralError("Failed to determine best formats: " + ErrorText(e)))
  }

  // ---------------------------------------------------------------------------
  // Subtitle paths
  // ---------------------------------------------------------------------------

  /**
   * `p.replace(/\.[^/.]+$/, '')`: the last extension is cut off when the
   * path ends in a dot followed by one or more characters that are neither
   * a dot nor a slash; otherwise the path is unchanged.
   */
  function StripExtension(p: string): (r: string)
    ensures r == p || (exists ext :: p == r + "." + ext && ext != [] && '.' !in ext && '/' !in ext)
  {
    match LastIndexOf(p, '.')
    case None => p
    case Some(k) =>
      if k + 1 < |p| && '/' !in p[k + 1..] then
        assert p == p[..k] + "." + p[k + 1..];
        p[..k]
      else p
  }

  /** A path that ends in a proper extension loses exactly that extension. */
  lemma StripExtensionOf(base: string, ext: string)
    requires ext != [] && '.' !in ext && '/' !in ext
    ensures StripExtension(base + "." + ext) == base
  {
    var p := base + "." + ext;
    assert p[|base|] == '.' && p[|base| + 1..] == ext;
    assert LastIndexOf(p, '.') == Some(|base|);
    assert p[..|base|] == base;
  }

  /** `${outputBase}.${targetLang}.srt`. */
  function SubtitlePath(outputPath: string, lang: string): (r: string)
    ensures EndsWith(r, "." + lang + ".srt")
    ensures StartsWith(r, StripExtension(outputPath) + ".")
  {
    var base := StripExtension(outputPath);
    var r := base + "." + lang + ".srt";
    assert r == base + ("." + lang + ".srt");
    assert r[..|base| + 1] == base + ".";
    r
  }

  /** Stripping the extension of a subtitle path gives back the base with the language. */
  lemma SubtitlePathStrips(outputPath: string, lang: string)
    ensures StripExtension(SubtitlePath(outputPath, lang)) == StripExtension(outputPath) + "." + lang
  {
    var base := StripExtension(outputPath) + "." + lang;
    assert SubtitlePath(outputPath, lang) == base + "." + "srt";
    StripExtensionOf(base, "srt");
  }

  /** The language `downloadSubtitles` asks for: `auto` becomes the video's language, or `en`. */
  function TargetLanguage(language: string, originalLanguage: Option<string>): (lang: string)
    ensures language != "auto" ==> lang == language
    ensures language == "auto" ==> lang == StringOr(originalLanguage, "en")
  {
    if language == "auto" then StringOr(originalLanguage, "en") else language
  }

  /**
   * Asking for the video's own language, or `auto` when it has none, ends
   * up with its language, or English when it has none.
   */
  lemma OriginalLanguageResolves(originalLanguage: Option<string>)
    ensures TargetLanguage(StringOr(originalLanguage, "auto"), originalLanguage) == StringOr(originalLanguage, "en")
  {
  }

  // ---------------------------------------------------------------------------
  // Downloads
  // ---------------------------------------------------------------------------

  /** One yt-dlp download run: the progress events it emits, the files it writes, and its failure text if it fails. */
  datatype ProcessRun = ProcessRun(progress: seq<Option<real>>, created: set<string>, failure: Option<string>)

  /** `progress.percent || 0` for every event. */
  function Percents(events: seq<Option<real>>): (ps: seq<real>)
    ensures |ps| == |events|
    ensures forall i :: 0 <= i < |events| ==> ps[i] == (if events[i].Some? then events[i].value else 0.0)
  {
    seq(|events|, i requires 0 <= i < |events| => if events[i].Some? then events[i].value else 0.0)
  }

  function MediaArgs(url: string, formatCode: string, outputPath: string): seq<string>
  {
    [url, "-f", formatCode, "-o", outputPath, "--newline", "--progress"]
  }

  function SubtitleArgs(url: string, mode: string, lang: string, outputBase: string): seq<string>
  {
    [url, mode, "--skip-download", "--sub-lang", lang, "--convert-subs", "srt", "-o", outputBase]
  }

  /**
   * One download once its format is settled: the directory of the output is
   * made sure of (a refusal is a `GeneralError` under `mkdirPrefix`), then
   * yt-dlp runs (a failure is a `DownloadFailedError` under `failPrefix`);
   * the error, if any, and the existing paths afterwards.
   */
  function MediaOutcome(paths: set<string>, unwritable: set<string>, outputPath: string, run: ProcessRun,
                        mkdirPrefix: string, failPrefix: string): (o: (Option<YtDlpError>, set<string>))
    ensures o.0.None? <==> !Refuses(paths, unwritable, Dirname(outputPath)) && run.failure.None?
    ensures o.0.None? ==> o.1 == WithParent(paths, outputPath) + run.created
    ensures paths <= o.1
  {
    var dir := Dirname(outputPath);
    if Refuses(paths, unwritable, dir) then
      (Some(GeneralError(mkdirPrefix + SystemErrorText(MkdirErrorMessage(dir)))), paths)
    else if run.failure.Some? then
      (Some(DownloadFailedError(failPrefix + run.failure.value)), WithParent(paths, outputPath))
    else
      (None, WithParent(paths, outputPath) + run.created)
  }

  /**
   * `downloadMedia`: the metadata is fetched and the format checked first;
   * then the output directory is made when absent; then yt-dlp runs and the
   * result is the output path. Errors of the family pass through unchanged,
   * a failed run becomes `DownloadFailedError`, anything else is wrapped.
   */
  method DownloadMedia(disk: Disk, url: string, formatCode: string, outputPath: string,
                       probe: Result<RawInfo, string>, run: ProcessRun)
    returns (args: Option<seq<string>>, r: Result<string, YtDlpError>, reported: seq<real>)
    modifies disk
    ensures disk.unwritable == old(disk.unwritable)
    ensures probe.Failure? ==>
      args.None? && r == Failure(GetVideoInfo(url, probe).error) && disk.paths == old(disk.paths)
    ensures probe.Success? && !FormatAvailable(ParseVideoInfo(probe.value).formats, formatCode) ==>
      args.None? && r == Failure(FormatNotAvailableError(formatCode)) && disk.paths == old(disk.paths)
    ensures args.Some? ==>
      args.value == MediaArgs(url, formatCode, outputPath)
      && probe.Success? && FormatAvailable(ParseVideoInfo(probe.value).formats, formatCode)
      && reported == Percents(run.progress)
      && (run.failure.None? ==> r == Success(outputPath))
      && (run.failure.Some? ==> r == Failure(DownloadFailedError(run.failure.value)))
    ensures probe.Success? && FormatAvailable(ParseVideoInfo(probe.value).formats, formatCode) ==>
      var dir := Dirname(outputPath);
      && (args.None? <==> Refuses(old(disk.paths), disk.unwritable, dir))
      && (args.None? ==> r == Failure(GeneralError("Download failed: " + SystemErrorText(MkdirErrorMessage(dir)))))
    ensures r.Success? ==> r.value == outputPath && args.Some? && run.failure.None?
    ensures args.None? ==> disk.paths == old(disk.paths) && reported == []
    ensures args.Some? ==>
      disk.paths == WithParent(old(disk.paths), outputPath) + (if run.failure.None? then run.created else {})
    ensures probe.Success? && FormatAvailable(ParseVideoInfo(probe.value).formats, formatCode) ==>
      var o := MediaOutcome(old(disk.paths), disk.unwritable, outputPath, run, "Download failed: ", "");
      (if o.0.Some? then r == Failure(o.0.value) else r.Success?) && disk.paths == o.1
    ensures r.Failure? && r.error.FormatNotAvailableError? ==>
      probe.Success? && !FormatAvailable(ParseVideoInfo(probe.value).formats, formatCode)
  {
    reported := [];
    var info := GetVideoInfo(url, probe);
    if info.Failure? {
      return None, Failure(info.error), [];
    }
    if !FormatAvailable(info.value.formats, formatCode) {
      return None, Failure(FormatNotAvailableError(formatCode)), [];
    }
    var mkdirError := EnsureParent(disk, outputPath);
    if mkdirError.Some? {
      return None, Failure(GeneralError("Download failed: " + SystemErrorText(mkdirError.value))), [];
    }
    args := Some(MediaArgs(url, formatCode, outputPath));
    reported := Percents(run.progress);
    if run.failure.Some? {
      assert "" + run.failure.value == run.failure.value;
      r := Failure(DownloadFailedError(run.failure.value));
    } else {
      disk.AddFiles(run.created);
      r := Success(outputPath);
    }
  }

  /**
   * `downloadAudio`: downloads the best audio-only format (or the combined
   * audio selector); a failed run becomes a `DownloadFailedError` that says
   * the audio failed, and a refused directory is wrapped.
   */
  method DownloadAudio(disk: Disk, url: string, outputPath: string, probe: Result<RawInfo, string>, run: ProcessRun)
    returns (args: Option<seq<string>>, r: Result<string, YtDlpError>, reported: seq<real>)
    modifies disk
    ensures disk.unwritable == old(disk.unwritable)
    ensures probe.Failure? ==>
      args.None? && r == Failure(GetBestFormats(url, probe).error) && disk.paths == old(disk.paths)
    ensures args.Some? ==>
      probe.Success?
      && args.value == MediaArgs(url, GetBestFormats(url, probe).value.1, outputPath)
      && reported == Percents(run.progress)
      && (run.failure.None? ==> r == Success(outputPath))
      && (run.failure.Some? ==> r == Failure(DownloadFailedError("Failed to download audio: " + run.failure.value)))
    ensures probe.Success? ==>
      var dir := Dirname(outputPath);
      && (args.None? <==> Refuses(old(disk.paths), disk.unwritable, dir))
      && (args.None? ==> r == Failure(GeneralError("Audio download failed: " + SystemErrorText(MkdirErrorMessage(dir)))))
    ensures r.Success? ==> r.value == outputPath && args.Some? && run.failure.None?
    ensures r.Failure? ==> !r.error.FormatNotAvailableError?
    ensures args.None? ==> disk.paths == old(disk.paths) && reported == []
    ensures args.Some? ==>
      disk.paths == WithParent(old(disk.paths), outputPath) + (if run.failure.None? then run.created else {})
    ensures probe.Success? ==>
      var o := MediaOutcome(old(disk.paths), disk.unwritable, outputPath, run,
                            "Audio download failed: ", "Failed to download audio: ");
      (if o.0.Some? then r == Failure(o.0.value) else r.Success?) && disk.paths == o.1
  {
    reported := [];
    var best := GetBestFormats(url, probe);
    if best.Failure? {
      return None, Failure(best.error), [];
    }
    var mkdirError := EnsureParent(disk, outputPath);
    if mkdirError.Some? {
      return None, Failure(GeneralError("Audio download failed: " + SystemErrorText(mkdirError.value))), [];
    }
    args := Some(MediaArgs(url, best.value.1, outputPath));
    reported := Percents(run.progress);
    if run.failure.Some? {
      r := Failure(DownloadFailedError("Failed to download audio: " + run.failure.value));
    } else {
      disk.AddFiles(run.created);
      r := Success(outputPath);
    }
  }

  /**
   * The existing paths after the subtitle runs once the directory of
   * `outputPath` is made sure of: the files of the regular run when it
   * succeeds, then those of the automatic run when it is made (the expected
   * file still missing) and succeeds.
   */
  function SubtitleEffect(paths: set<string>, outputPath: string, expected: string,
                          regular: ProcessRun, automatic: ProcessRun): (r: set<string>)
    ensures WithParent(paths, outputPath) <= r
    ensures regular.failure.Some? ==> r == WithParent(paths, outputPath)
    ensures regular.failure.None? ==> WithParent(paths, outputPath) + regular.created <= r
  {
    var made := WithParent(paths, outputPath);
    if regular.failure.Some? then made
    else
      var afterRegular := made + regular.created;
      if expected in afterRegular || automatic.failure.Some? then afterRegular
      else afterRegular + automatic.created
  }

  /**
   * `downloadSubtitles`: resolves the language, makes the output directory
   * when absent, asks yt-dlp for regular subtitles and, when the expected
   * file is not there, for automatic captions. The result is the expected
   * path when that file exists after a run that succeeded, and none
   * otherwise; every failure gives none as well, never an error.
   */
  method DownloadSubtitles(disk: Disk, url: string, language: string, outputPath: string,
                           probe: Result<RawInfo, string>, regular: ProcessRun, automatic: ProcessRun)
    returns (runs: seq<seq<string>>, r: Option<string>)
    modifies disk
    ensures disk.unwritable == old(disk.unwritable)
    ensures runs == [] <==>
      (language == "auto" && probe.Failure?) || Refuses(old(disk.paths), disk.unwritable, Dirname(outputPath))
    ensures runs == [] ==> r.None? && disk.paths == old(disk.paths)
    ensures runs != [] ==>
      var lang := TargetLanguage(language, if probe.Success? then probe.value.language else None);
      var base := StripExtension(outputPath);
      var expected := SubtitlePath(outputPath, lang);
      var afterRegular := WithParent(old(disk.paths), outputPath) + regular.created;
      && runs[0] == SubtitleArgs(url, "--write-sub", lang, base)
      && (|runs| == 2 <==> regular.failure.None? && expected !in afterRegular)
      && (|runs| == 2 ==> runs[1] == SubtitleArgs(url, "--write-auto-sub", lang, base))
      && disk.paths == SubtitleEffect(old(disk.paths), outputPath, expected, regular, automatic)
      && (r.Some? <==> regular.failure.None? && (|runs| == 2 ==> automatic.failure.None?) && expected in disk.paths)
      && (r.Some? ==> r.value == expected)
    ensures |runs| <= 2
  {
    runs := [];
    var targetLang := language;
    if language == "auto" {
      var info := GetVideoInfo(url, probe);
      if info.Failure? {
        return [], None;
      }
      targetLang := StringOr(info.value.originalLanguage, "en");
    }
    var mkdirError := EnsureParent(disk, outputPath);
    if mkdirError.Some? {
      return [], None;
    }
    var outputBase := StripExtension(outputPath);
    var expected := SubtitlePath(outputPath, targetLang);
    runs := [SubtitleArgs(url, "--write-sub", targetLang, outputBase)];
    if regular.failure.Some? {
      return runs, None;
    }
    disk.AddFiles(regular.created);
    if disk.Exists(expected) {
      return runs, Some(expected);
    }
    runs := runs + [SubtitleArgs(url, "--write-auto-sub", targetLang, outputBase)];
    if automatic.failure.Some? {
      return runs, None;
    }
    disk.AddFiles(automatic.created);
    if disk.Exists(expected) {
      return runs, Some(expected);
    }
    r := None;
  }

  datatype Component = VideoTrack | AudioTrack | Subtitles

  /** The progress values of one component's download, each labelled with the component. */
  function Tagged(c: Component, ps: seq<real>): (r: seq<(Component, real)>)
    ensures |r| == |ps| && forall i :: 0 <= i < |ps| ==> r[i] == (c, ps[i])
  {
    seq(|ps|, i requires 0 <= i < |ps| => (c, ps[i]))
  }

  datatype Components = Components(videoPath: string, audioPath: string, subtitlePath: Option<string>, info: VideoInfo)

  /** What `downloadHighQualityComponents` can fail with: an error of the family, or the directory refused. */
  datatype ComponentsError = ServiceError(error: YtDlpError) | DirectoryError(message: string)

  /**
   * The video and audio stages of `downloadHighQualityComponents` once the
   * output directory exists (`paths`): the error the first failing stage
   * gives, if any, and the existing paths afterwards.
   */
  function TracksOutcome(paths: set<string>, unwritable: set<string>, outputDir: string, basename: string,
                         videoRun: ProcessRun, audioRun: ProcessRun): (o: (Option<YtDlpError>, set<string>))
  {
    var video := MediaOutcome(paths, unwritable, Join(outputDir, basename + ".video.mp4"), videoRun,
                              "Download failed: ", "");
    if video.0.Some? then video
    else MediaOutcome(video.1, unwritable, Join(outputDir, basename + ".audio.m4a"), audioRun,
                      "Audio download failed: ", "Failed to download audio: ")
  }


  /**
   * Both tracks are downloaded exactly when both runs succeed and neither
   * file's directory is refused; a failed run is reported as
   * `DownloadFailedError` with the run's text (the audio one saying so), and
   * every file a successful run wrote is kept.
   */
  lemma TracksOutcomeMeaning(paths: set<string>, unwritable: set<string>, outputDir: string, basename: string,
                             videoRun: ProcessRun, audioRun: ProcessRun)
    ensures var o := TracksOutcome(paths, unwritable, outputDir, basename, videoRun, audioRun);
      var videoPath := Join(outputDir, basename + ".video.mp4");
      var audioPath := Join(outputDir, basename + ".audio.m4a");
      && (o.0.None? <==>
            && !Refuses(paths, unwritable, Dirname(videoPath)) && videoRun.failure.None?
            && !Refuses(WithParent(paths, videoPath) + videoRun.created, unwritable, Dirname(audioPath))
            && audioRun.failure.None?)
      && (!Refuses(paths, unwritable, Dirname(videoPath)) && videoRun.failure.Some? ==>
            o.0 == Some(DownloadFailedError(videoRun.failure.value)))
      && (o.0.None? ==> paths + videoRun.created + audioRun.created <= o.1)
      && paths <= o.1
      && (o.0.Some? ==> !o.0.value.FormatNotAvailableError?)
  {
    if videoRun.failure.Some? {
      assert "" + videoRun.failure.value == videoRun.failure.value;
    }
  }

  /**
   * The progress the video and audio stages relay: every event of the video
   * run tagged `video` (none when its directory is refused), then, when the
   * video stage succeeded, every event of the audio run tagged `audio`.
   */
  function TracksProgress(paths: set<string>, unwritable: set<string>, outputDir: string, basename: string,
                          videoRun: ProcessRun, audioRun: ProcessRun): (r: seq<(Component, real)>)
    ensures TracksOutcome(paths, unwritable, outputDir, basename, videoRun, audioRun).0.None? ==>
      r == Tagged(VideoTrack, Percents(videoRun.progress)) + Tagged(AudioTrack, Percents(audioRun.progress))
    ensures Refuses(paths, unwritable, Dirname(Join(outputDir, basename + ".video.mp4"))) ==> r == []
  {
    var videoPath := Join(outputDir, basename + ".video.mp4");
    var audioPath := Join(outputDir, basename + ".audio.m4a");
    var video := MediaOutcome(paths, unwritable, videoPath, videoRun, "Download failed: ", "");
    var videoEvents := if Refuses(paths, unwritable, Dirname(videoPath)) then [] else Percents(videoRun.progress);
    if video.0.Some? then Tagged(VideoTrack, videoEvents)
    else
      var audioEvents := if Refuses(video.1, unwritable, Dirname(audioPath)) then [] else Percents(audioRun.progress);
      Tagged(VideoTrack, videoEvents) + Tagged(AudioTrack, audioEvents)
  }

  /**
   * The video and audio stages of `downloadHighQualityComponents`: the best
   * video track, then the best audio track, each labelled progress in turn;
   * the first failing stage ends it with that stage's error.
   */
  method DownloadTracks(disk: Disk, url: string, outputDir: string, basename: string,
                        probe: Result<RawInfo, string>, videoRun: ProcessRun, audioRun: ProcessRun)
    returns (failure: Option<YtDlpError>, reported: seq<(Component, real)>)
    requires probe.Success?
    modifies disk
    ensures disk.unwritable == old(disk.unwritable)
    ensures var o := TracksOutcome(old(disk.paths), disk.unwritable, outputDir, basename, videoRun, audioRun);
      failure == o.0 && disk.paths == o.1
    ensures reported == TracksProgress(old(disk.paths), disk.unwritable, outputDir, basename, videoRun, audioRun)
  {
    var info := GetVideoInfo(url, probe);
    var best := GetBestFormats(url, probe);
    var videoPath := Join(outputDir, basename + ".video.mp4");
    BestVideoAvailable(info.value.formats);
    assert FormatAvailable(ParseVideoInfo(probe.value).formats, best.value.0);
    var _, video, videoProgress := DownloadMedia(disk, url, best.value.0, videoPath, probe, videoRun);
    reported := Tagged(VideoTrack, videoProgress);
    if video.Failure? {
      return Some(video.error), reported;
    }
    var audioPath := Join(outputDir, basename + ".audio.m4a");
    var _, audio, audioProgress := DownloadAudio(disk, url, audioPath, probe, audioRun);
    reported := reported + Tagged(AudioTrack, audioProgress);
    if audio.Failure? {
      return Some(audio.error), reported;
    }
    failure := None;
  }

  /**
   * The existing paths after the subtitle stage of
   * `downloadHighQualityComponents`: unchanged when the directory of `base`
   * is refused, otherwise as the subtitle runs leave them.
   */
  function SubtitleStage(paths: set<string>, unwritable: set<string>, base: string, expected: string,
                         regular: ProcessRun, automatic: ProcessRun): (r: set<string>)
    ensures paths <= r
    ensures Refuses(paths, unwritable, Dirname(base)) ==> r == paths
  {
    if Refuses(paths, unwritable, Dirname(base)) then paths
    else SubtitleEffect(paths, base, expected, regular, automatic)
  }

  /**
   * The subtitle stage finds its file: the directory of `base` is not refused,
   * the regular run succeeds, the automatic run succeeds when it is made (the
   * file still missing), and the file exists afterwards.
   */
  predicate SubtitleFound(paths: set<string>, unwritable: set<string>, base: string, expected: string,
                          regular: ProcessRun, automatic: ProcessRun)
  {
    && !Refuses(paths, unwritable, Dirname(base))
    && regular.failure.None?
    && (expected !in WithParent(paths, base) + regular.created ==> automatic.failure.None?)
    && expected in SubtitleStage(paths, unwritable, base, expected, regular, automatic)
  }

  /**
   * The subtitle stage of `downloadHighQualityComponents`: subtitles in the
   * video's own language (`auto` when it has none, so English), next to
   * `base`; none when the stage fails or finds nothing.
   */
  method DownloadComponentSubtitles(disk: Disk, url: string, base: string, probe: Result<RawInfo, string>,
                                    regular: ProcessRun, automatic: ProcessRun)
    returns (subtitlePath: Option<string>)
    requires probe.Success?
    modifies disk
    ensures disk.unwritable == old(disk.unwritable)
    ensures var expected := SubtitlePath(base, StringOr(ParseVideoInfo(probe.value).originalLanguage, "en"));
      && disk.paths == SubtitleStage(old(disk.paths), disk.unwritable, base, expected, regular, automatic)
      && (subtitlePath.Some? ==> subtitlePath.value == expected && expected in disk.paths)
      && (subtitlePath.Some? <==> SubtitleFound(old(disk.paths), disk.unwritable, base, expected, regular, automatic))
      && (regular.failure.Some? ==> subtitlePath.None?)
  {
    var info := GetVideoInfo(url, probe);
    var originalLang := StringOr(info.value.originalLanguage, "auto");
    OriginalLanguageResolves(info.value.originalLanguage);
    assert probe.value.language == info.value.originalLanguage;
    var _, found := DownloadSubtitles(disk, url, originalLang, base, probe, regular, automatic);
    subtitlePath := found;
  }

  /**
   * `downloadHighQualityComponents`: fetches the metadata, makes the output
   * directory when absent, downloads the best video track to
   * `<basename>.video.mp4` and the best audio track to `<basename>.audio.m4a`,
   * then tries subtitles in the video's language and reports them as 100
   * when found and 0 when not.
   */
  method DownloadHighQualityComponents(disk: Disk, url: string, outputDir: string, basename: string,
                                       probe: Result<RawInfo, string>, videoRun: ProcessRun, audioRun: ProcessRun,
                                       regularSubs: ProcessRun, automaticSubs: ProcessRun)
    returns (r: Result<Components, ComponentsError>, reported: seq<(Component, real)>)
    modifies disk
    ensures disk.unwritable == old(disk.unwritable)
    ensures probe.Failure? ==>
      r == Failure(ServiceError(GetVideoInfo(url, probe).error)) && disk.paths == old(disk.paths) && reported == []
    ensures probe.Success? && Refuses(old(disk.paths), disk.unwritable, outputDir) ==>
      r == Failure(DirectoryError(MkdirErrorMessage(outputDir))) && disk.paths == old(disk.paths) && reported == []
    ensures probe.Success? && !Refuses(old(disk.paths), disk.unwritable, outputDir) ==>
      var o := TracksOutcome(WithDirectory(old(disk.paths), outputDir), disk.unwritable, outputDir, basename,
                             videoRun, audioRun);
      var tracks := TracksProgress(WithDirectory(old(disk.paths), outputDir), disk.unwritable, outputDir, basename,
                                   videoRun, audioRun);
      && (o.0.Some? ==> r == Failure(ServiceError(o.0.value)) && disk.paths == o.1 && reported == tracks)
      && (o.0.None? ==> r.Success?)
    ensures r.Success? ==>
      var o := TracksOutcome(WithDirectory(old(disk.paths), outputDir), disk.unwritable, outputDir, basename,
                             videoRun, audioRun);
      var base := Join(outputDir, basename);
      var expected := SubtitlePath(base, StringOr(r.value.info.originalLanguage, "en"));
      var tracks := TracksProgress(WithDirectory(old(disk.paths), outputDir), disk.unwritable, outputDir, basename,
                                   videoRun, audioRun);
      && probe.Success? && !Refuses(old(disk.paths), disk.unwritable, outputDir) && o.0.None?
      && r.value.info == ParseVideoInfo(probe.value)
      && r.value.videoPath == Join(outputDir, basename + ".video.mp4")
      && r.value.audioPath == Join(outputDir, basename + ".audio.m4a")
      && disk.paths == SubtitleStage(o.1, disk.unwritable, base, expected, regularSubs, automaticSubs)
      && (r.value.subtitlePath.Some? ==> r.value.subtitlePath.value == expected && expected in disk.paths)
      && (r.value.subtitlePath.Some? <==>
            SubtitleFound(o.1, disk.unwritable, base, expected, regularSubs, automaticSubs))
      && (regularSubs.failure.Some? ==> r.value.subtitlePath.None?)
      && reported == tracks + [(Subtitles, if r.value.subtitlePath.Some? then 100.0 else 0.0)]
  {
    reported := [];
    var info := GetVideoInfo(url, probe);
    if info.Failure? {
      return Failure(ServiceError(info.error)), [];
    }
    if !disk.Exists(outputDir) {
      var mkdirError := disk.MakeDirectory(outputDir);
      if mkdirError.Some? {
        return Failure(DirectoryError(mkdirError.value)), [];
      }
    }
    assert disk.paths == WithDirectory(old(disk.paths), outputDir);
    var failure, trackProgress := DownloadTracks(disk, url, outputDir, basename, probe, videoRun, audioRun);
    reported := trackProgress;
    if failure.Some? {
      return Failure(ServiceError(failure.value)), reported;
    }
    var videoPath := Join(outputDir, basename + ".video.mp4");
    var audioPath := Join(outputDir, basename + ".audio.m4a");
    var subtitlePath := DownloadComponentSubtitles(disk, url, Join(outputDir, basename), probe, regularSubs, automaticSubs);
    reported := reported + [(Subtitles, if subtitlePath.Some? then 100.0 else 0.0)];
    r := Success(Components(videoPath, audioPath, subtitlePath, info.value));
  }


}
