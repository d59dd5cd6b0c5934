/** What the backend asks yt-dlp for: the format selector built from the
    download request's mode, quality, container formats and strict flag,
    and the reply the stand-alone `/download_python` route gives. The
    download itself is yt-dlp's and arrives here as an Outcome. */
module YtDlp {
  import opened Common
  import opened Seqs

  /** The fields of a download request, as the routes read them. */
  datatype DownloadRequest = DownloadRequest(
    url: string, mode: string, videoQuality: string,
    videoFormat: string, audioFormat: string, strictFormats: string)

  /** `strict_formats == "true"`: any other text, "True" included, is not strict. */
  predicate Strict(strictFormats: string) {
    strictFormats == "true"
  }

  /** A request value with "auto" replaced by its default. */
  function Defaulted(value: string, default: string): string {
    if value == "auto" then default else value
  }

  /** `non_strict_video`: the height-capped video with audio, then any video
      with audio, then one best file, every part under 100M. */
  function NonStrictVideo(quality: string): string {
    "bestvideo[filesize<=100M][height<=" + quality + "]+bestaudio/bestvideo[filesize<=100M]+bestaudio/best[filesize<=100M]"
  }

  /** `non_strict_audio`. */
  const NonStrictAudio: string := "bestaudio/best[filesize<=100M]"

  /** The triple-quoted audio selector: the audio stream in the requested
      container, with the line breaks and indentation of the literal. */
  function AudioHead(audioFormat: string): string {
    "\n        bestaudio[ext=" + audioFormat + "]/\n        "
  }

  /** The triple-quoted video selector: a height-capped video stream in the
      requested container joined with the best audio. */
  function VideoHead(quality: string, videoFormat: string): string {
    "\n        bestvideo[filesize<=100M][height<=" + quality + "][ext=" + videoFormat + "]+bestaudio/\n        "
  }

  /** `download_setting_string` as `download_media_ytdlp` leaves it; None
      when the mode is neither "audio" nor "auto", where the name is never
      bound. The video fallback is formed before the defaults are applied,
      so it carries the quality as sent. */
  function FormatSelector(req: DownloadRequest): Option<string> {
    var strict := Strict(req.strictFormats);
    var nonStrictVideo := NonStrictVideo(req.videoQuality);
    var quality := Defaulted(req.videoQuality, "360");
    var audioFormat := Defaulted(req.audioFormat, "mp3");
    var videoFormat := Defaulted(req.videoFormat, "mp4");
    if req.mode == "audio" then
      Some(AudioHead(audioFormat) + (if strict then "" else NonStrictAudio))
    else if req.mode == "auto" then
      Some(VideoHead(quality, videoFormat) + (if strict then "" else nonStrictVideo))
    else None
  }

  /** There is a selector exactly for the modes "audio" and "auto"; audio
      mode asks for the requested (or mp3) container, auto mode for the
      requested (or 360) height and (or mp4) container, and only a
      non-strict request appends the fallbacks. */
  lemma FormatSelectorSpec(req: DownloadRequest)
    ensures FormatSelector(req).Some? <==> req.mode == "audio" || req.mode == "auto"
    ensures req.mode == "audio" ==>
      FormatSelector(req) == Some(AudioHead(if req.audioFormat == "auto" then "mp3" else req.audioFormat) +
                                  (if req.strictFormats == "true" then [] else NonStrictAudio))
    ensures req.mode == "auto" ==>
      FormatSelector(req) == Some(VideoHead(if req.videoQuality == "auto" then "360" else req.videoQuality,
                                            if req.videoFormat == "auto" then "mp4" else req.videoFormat) +
                                  (if req.strictFormats == "true" then [] else NonStrictVideo(req.videoQuality)))
  {
  }

  /** A strict selector is what the non-strict one starts with: strictness
      only drops the fallbacks. */
  lemma StrictIsPrefix(req: DownloadRequest)
    requires req.mode == "audio" || req.mode == "auto"
    ensures var strict := FormatSelector(req.(strictFormats := "true"));
            var loose := FormatSelector(req.(strictFormats := "false"));
            strict.Some? && loose.Some? && |strict.value| < |loose.value| &&
            StartsWith(loose.value, strict.value)
  {
    var head := if req.mode == "audio" then AudioHead(Defaulted(req.audioFormat, "mp3"))
                else VideoHead(Defaulted(req.videoQuality, "360"), Defaulted(req.videoFormat, "mp4"));
    var tail := if req.mode == "audio" then NonStrictAudio else NonStrictVideo(req.videoQuality);
    assert FormatSelector(req.(strictFormats := "true")) == Some(head + []);
    assert FormatSelector(req.(strictFormats := "false")) == Some(head + tail);
    assert head + [] == head;
    assert |tail| > 0 by {
      assert tail[0] == 'b';
    }
    AppendedPrefix(head, tail);
  }

  lemma AppendedPrefix(s: string, t: string)
    requires |t| > 0
    ensures |s| < |s + t| && StartsWith(s + t, s)
  {
    assert (s + t)[..|s|] == s;
  }

  /** Only the exact text "true" is strict: every other spelling behaves
      like "false". */
  lemma OnlyTrueIsStrict(req: DownloadRequest)
    requires req.strictFormats != "true"
    ensures FormatSelector(req) == FormatSelector(req.(strictFormats := "false"))
  {
  }

  /** "auto" means 360 in the strict selectors, where no fallback carries the
      quality as sent, and "auto" formats mean mp3 and mp4 in every selector. */
  lemma AutoDefaults(req: DownloadRequest)
    ensures req.strictFormats == "true" && req.videoQuality == "auto" ==>
      FormatSelector(req) == FormatSelector(req.(videoQuality := "360"))
    ensures req.audioFormat == "auto" ==> FormatSelector(req) == FormatSelector(req.(audioFormat := "mp3"))
    ensures req.videoFormat == "auto" ==> FormatSelector(req) == FormatSelector(req.(videoFormat := "mp4"))
  {
  }

  /** A non-strict auto request with quality "auto" caps the first stream at
      360 but its fallback at the height "auto", so it is not the selector of
      the same request with quality 360. */
  lemma FallbackKeepsRawQuality(req: DownloadRequest)
    requires req.mode == "auto" && req.strictFormats != "true" && req.videoQuality == "auto"
    ensures FormatSelector(req) == Some(VideoHead("360", Defaulted(req.videoFormat, "mp4")) + NonStrictVideo("auto"))
    ensures FormatSelector(req) != FormatSelector(req.(videoQuality := "360"))
  {
    var head := VideoHead("360", Defaulted(req.videoFormat, "mp4"));
    var a := head + NonStrictVideo("auto");
    var b := head + NonStrictVideo("360");
    var k := |head| + |"bestvideo[filesize<=100M][height<="|;
    assert a[k] == 'a' by { assert a[k] == NonStrictVideo("auto")[k - |head|]; }
    assert b[k] == '3' by { assert b[k] == NonStrictVideo("360")[k - |head|]; }
  }

  /** `os.path.basename`: what follows the last '/'. */
  function Basename(path: string): string
    decreases |path|
  {
    if path == [] then []
    else if path[|path| - 1] == '/' then []
    else Basename(path[..|path| - 1]) + [path[|path| - 1]]
  }

  /** The base name ends the path, holds no '/', and is either the whole
      path or preceded by a '/'. */
  lemma {:induction false} BasenameSpec(path: string)
    ensures |Basename(path)| <= |path| && path[|path| - |Basename(path)|..] == Basename(path)
    ensures '/' !in Basename(path)
    ensures |Basename(path)| < |path| ==> path[|path| - |Basename(path)| - 1] == '/'
    decreases |path|
  {
    if path != [] && path[|path| - 1] != '/' {
      var init := path[..|path| - 1];
      BasenameSpec(init);
      var b := Basename(init);
      assert Basename(path) == b + [path[|path| - 1]];
      assert path == init + [path[|path| - 1]];
      assert path[|path| - |b| - 1..] == init[|init| - |b|..] + [path[|path| - 1]];
    }
  }

  /** What `extract_info` did: the file it wrote, a `DownloadError` with
      its message, or any other exception. */
  datatype Outcome = Downloaded(filepath: string) | DownloadError(message: string) | Crashed

  /** A route's answer: a JSON `error` with a status, the JSON naming the
      downloaded file, the file streamed as an attachment, Flask's page
      for an unhandled exception, Flask's 400/415 page when `request.json`
      finds no JSON body, or the middleware's refusal. */
  datatype Reply =
    | ErrorJson(status: int, error: string)
    | Located(filepath: string, filename: string)
    | Attachment(filename: string)
    | InternalServerError
    | NotJson
    | Refused

  /** `/download_python`: the JSON `download_media_ytdlp` returns, with the
      default status 200 even for a download error; a mode without a
      selector raises out of the route. */
  function DownloadPython(req: DownloadRequest, outcome: Outcome): Reply {
    if FormatSelector(req).None? then InternalServerError
    else
      match outcome
      case DownloadError(message) => ErrorJson(200, message)
      case Downloaded(filepath) => Located(filepath, Basename(filepath))
      case Crashed => InternalServerError
  }

  /** The route fails exactly for an unknown mode or a crash, reports a
      download error with status 200, and otherwise names the file by the
      last part of its path. */
  lemma DownloadPythonSpec(req: DownloadRequest, outcome: Outcome)
    ensures DownloadPython(req, outcome) == InternalServerError <==>
      (req.mode != "audio" && req.mode != "auto") || outcome.Crashed?
    ensures DownloadPython(req, outcome).ErrorJson? ==>
      outcome.DownloadError? && DownloadPython(req, outcome) == ErrorJson(200, outcome.message)
    ensures DownloadPython(req, outcome).Located? ==>
      outcome.Downloaded? && DownloadPython(req, outcome).filepath == outcome.filepath &&
      '/' !in DownloadPython(req, outcome).filename
  {
    FormatSelectorSpec(req);
    if outcome.Downloaded? {
      BasenameSpec(outcome.filepath);
    }
  }
}
