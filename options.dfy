/**
 * The option dictionary handed to yt-dlp (`VideoDownloader._get_ydl_opts`)
 * and the alternative options tried once when probing a URL fails with a
 * known platform problem (the fallback branch of `download_video`).
 */
module Options {
  import opened Wrappers
  import opened Text

  /** The output formats a download can ask for. */
  datatype OutputFormat = MP4 | MP3 | WEBM | BestVideo | BestAudio

  /** The enumeration's `.value`, written to the journal's format column. */
  function FormatLabel(f: OutputFormat): string {
    match f
    case MP4 => "mp4"
    case MP3 => "mp3"
    case WEBM => "webm"
    case BestVideo => "best_video"
    case BestAudio => "best_audio"
  }

  /** The application settings (`AppConfig`), with the defaults of the dataclass. */
  datatype AppConfig = AppConfig(
    downloadDirectory: string,
    maxConcurrentDownloads: int,
    maxFileSizeMb: int,
    writeSubtitles: bool,
    writeAutoSubtitles: bool,
    maxVideoHeight: int,
    audioQuality: string,
    preferredVideoCodec: string,
    preferredAudioCodec: string,
    maxPlaylistItems: int,
    createPlaylistFolders: bool,
    downloadPlaylistsByDefault: bool,
    socketTimeout: int,
    httpChunkSize: int,
    retries: int,
    preferIpv6: bool,
    logLevel: string,
    maxLogFileSize: int,
    backupCount: int,
    consoleOutput: bool)

  const DefaultAppConfig: AppConfig := AppConfig(
    "Downloads", 3, 500, true, false,
    1080, "192", "h264", "aac",
    100, true, false,
    30, 10485760, 5, false,
    "INFO", 10, 5, true)

  /** A value inside `extractor_args`: a string, a flag, a list of strings or `None`. */
  datatype ArgValue = Str(s: string) | Flag(b: bool) | Strs(items: seq<string>) | NoValue

  /** An entry of `postprocessors`: audio extraction with a codec and, for MP3, a quality. */
  datatype Postprocessor = ExtractAudio(preferredCodec: string, preferredQuality: Option<string>)

  /** The keys of the option dictionary that the program sets. */
  datatype YdlOpts = YdlOpts(
    outtmpl: string,
    quiet: bool,
    noWarnings: bool,
    ignoreErrors: bool,
    retries: int,
    fragmentRetries: int,
    extractorRetries: int,
    fileAccessRetries: int,
    httpChunkSize: int,
    userAgent: string,
    referer: string,
    extractorArgs: map<string, map<string, ArgValue>>,
    httpHeaders: map<string, string>,
    socketTimeout: int,
    sourceAddress: Option<string>,
    noPlaylist: bool,
    playlistEnd: Option<int>,
    format: string,
    postprocessors: seq<Postprocessor>)

  /** `str(directory / name)`, with `/` as the separator. */
  function PathJoin(directory: string, name: string): string {
    directory + "/" + name
  }

  const DesktopUserAgent: string :=
    "Mozilla/5.0 (Windows NT 10.0; Win64; x64) AppleWebKit/537.36 (KHTML, like Gecko) Chrome/120.0.0.0 Safari/537.36"

  const BaseExtractorArgs: map<string, map<string, ArgValue>> := map[
    "youtube" := map[
      "player_client" := Strs(["android", "web", "tv"]),
      "player_skip" := Strs(["webpage", "configs"]),
      "skip" := Strs(["dash", "hls"])],
    "instagram" := map["api_version" := Str("v1"), "include_stories" := Flag(false)],
    "facebook" := map["tab" := Str("videos"), "bypass_age_gate" := Flag(true), "use_cookies" := Flag(true)],
    "tiktok" := map["webpage_download" := Flag(false), "api_hostname" := Str("api.tiktokv.com")],
    "soundcloud" := map["client_id" := NoValue]
  ]

  const BaseHeaders: map<string, string> := map[
    "Accept" := "text/html,application/xhtml+xml,application/xml;q=0.9,*/*;q=0.8",
    "Accept-Language" := "en-us,en;q=0.5",
    "Accept-Encoding" := "gzip, deflate",
    "Accept-Charset" := "ISO-8859-1,utf-8;q=0.7,*;q=0.7",
    "Keep-Alive" := "300",
    "Connection" := "keep-alive"
  ]

  /**
   * The alternatives of the format selector for `format`, best first;
   * yt-dlp takes the first one some available format satisfies.
   */
  function FormatAlternatives(format: OutputFormat, maxHeight: int): (alts: seq<string>)
    ensures |alts| >= 3 && alts[|alts| - 1] == "best"
  {
    var h := IntToString(maxHeight);
    match format
    case MP4 =>
      ["best[height<=" + h + "][ext=mp4]", "best[height<=720][ext=mp4]", "best[ext=mp4]", "best"]
    case WEBM => ["best[ext=webm]", "best[height<=" + h + "]", "best"]
    case BestVideo => ["best[height<=" + h + "]", "best[height<=720]", "best"]
    case BestAudio => ["bestaudio[ext=m4a]", "bestaudio[ext=mp3]", "bestaudio", "best"]
    case MP3 => ["bestaudio[ext=m4a]", "bestaudio", "best"]
  }

  /** The `format` option: the alternatives separated by `/`. */
  function FormatSelector(format: OutputFormat, maxHeight: int): string {
    Join(FormatAlternatives(format, maxHeight), "/")
  }

  /** The `outtmpl` option: a playlist's files go into a folder named after it. */
  function OutTemplate(downloadDir: string, downloadPlaylist: bool): string {
    if downloadPlaylist then PathJoin(PathJoin(downloadDir, "%(playlist_title)s"), "%(playlist_index)02d - %(title)s.%(ext)s")
    else PathJoin(downloadDir, "%(uploader)s - %(title)s - %(id)s.%(ext)s")
  }

  /** `_get_ydl_opts(config)`. */
  function BuildYdlOpts(settings: AppConfig, downloadDir: string, format: OutputFormat,
                        downloadPlaylist: bool, maxDownloads: int): (opts: YdlOpts)
    ensures opts.noPlaylist == !downloadPlaylist
    ensures opts.playlistEnd == (if downloadPlaylist then Some(maxDownloads) else None)
    ensures opts.format == FormatSelector(format, settings.maxVideoHeight)
    ensures opts.outtmpl == OutTemplate(downloadDir, downloadPlaylist)
  {
    var base := YdlOpts(
      PathJoin(downloadDir, "%(title)s.%(ext)s"), false, false, true,
      settings.retries, settings.retries, 3, 3, settings.httpChunkSize,
      DesktopUserAgent, "https://www.youtube.com/",
      BaseExtractorArgs, BaseHeaders, settings.socketTimeout, None,
      false, None, "", []);
    var withPlaylist :=
      if downloadPlaylist then
        base.(noPlaylist := false, playlistEnd := Some(maxDownloads), outtmpl := OutTemplate(downloadDir, true))
      else
        base.(noPlaylist := true, outtmpl := OutTemplate(downloadDir, false));
    var withFormat := withPlaylist.(format := FormatSelector(format, settings.maxVideoHeight));
    match format
    case MP3 => withFormat.(postprocessors := [ExtractAudio("mp3", Some(settings.audioQuality))])
    case BestAudio => withFormat.(postprocessors := [ExtractAudio("best", None)])
    case _ => withFormat
  }

  // ---------------------------------------------------------------------
  // The fallback after a failed probe
  // ---------------------------------------------------------------------

  /** The error texts (compared in lower case) that the program treats as platform problems. */
  predicate FallbackTriggered(errorMessage: string) {
    var m := Lower(errorMessage);
    Contains(m, "cannot parse data") || Contains(m, "sabr streaming") || Contains(m, "formats have been skipped")
  }

  const MobileHeaders: map<string, string> := map[
    "User-Agent" := "Mozilla/5.0 (iPhone; CPU iPhone OS 14_6 like Mac OS X) AppleWebKit/605.1.15 (KHTML, like Gecko) Version/14.1.1 Mobile/15E148 Safari/604.1",
    "Accept-Language" := "en-US,en;q=0.9",
    "Accept" := "text/html,application/xhtml+xml,application/xml;q=0.9,*/*;q=0.8",
    "DNT" := "1",
    "Referer" := "https://www.facebook.com/"
  ]

  const FacebookFallbackArgs: map<string, map<string, ArgValue>> :=
    map["facebook" := map["tab" := Str("videos"), "bypass_age_gate" := Flag(true), "use_cookies" := Flag(true)]]

  const SoundCloudFallbackArgs: map<string, map<string, ArgValue>> :=
    map["soundcloud" := map["client_id" := NoValue, "use_oauth" := Flag(false)]]

  const YouTubeFallbackArgs: map<string, map<string, ArgValue>> :=
    map["youtube" := map[
      "player_client" := Strs(["android_creator", "android"]),
      "player_skip" := Strs(["webpage", "configs", "js"]),
      "skip" := Strs(["dash", "hls"])]]

  /** Which fallback branch a URL takes, in the order they are tested. */
  datatype FallbackKind = FacebookFallback | SoundCloudFallback | YouTubeFallback | GenericFallback

  function FallbackKindOf(url: string): FallbackKind {
    var u := Lower(url);
    if Contains(u, "facebook") then FacebookFallback
    else if Contains(u, "soundcloud") then SoundCloudFallback
    else if Contains(u, "youtube") || Contains(u, "youtu.be") then YouTubeFallback
    else GenericFallback
  }

  /** The format selector of the second probe for a branch. */
  function FallbackFormat(kind: FallbackKind): string {
    match kind
    case FacebookFallback => "best[height<=720]/worst"
    case SoundCloudFallback => "best"
    case YouTubeFallback => "best[height<=720]/best[height<=480]/worst"
    case GenericFallback => "best[height<=720]/worst"
  }

  /** The options of the second probe for a branch: a copy of `opts` with the branch's keys replaced. */
  function FallbackFor(kind: FallbackKind, opts: YdlOpts): (fallback: YdlOpts)
    ensures fallback.format == FallbackFormat(kind)
  {
    match kind
    case FacebookFallback =>
      opts.(format := FallbackFormat(kind), extractorArgs := FacebookFallbackArgs, httpHeaders := MobileHeaders)
    case SoundCloudFallback =>
      opts.(format := FallbackFormat(kind), extractorArgs := SoundCloudFallbackArgs)
    case YouTubeFallback =>
      opts.(format := FallbackFormat(kind), extractorArgs := YouTubeFallbackArgs)
    case GenericFallback =>
      opts.(format := FallbackFormat(kind), ignoreErrors := true)
  }

  /** The options of the second probe for `url`. */
  function FallbackOpts(url: string, opts: YdlOpts): YdlOpts {
    FallbackFor(FallbackKindOf(url), opts)
  }

  /**
   * What the handler of a failed probe does: retry with the fallback
   * options, or (`None`) re-raise the error.
   */
  function OnProbeError(errorMessage: string, url: string, opts: YdlOpts): Option<YdlOpts> {
    if FallbackTriggered(errorMessage) then Some(FallbackOpts(url, opts)) else None
  }

  // ---------------------------------------------------------------------
  // Properties
  // ---------------------------------------------------------------------

  /** A height written in decimal holds no `/`. */
  lemma IntToStringHasNoSlash(i: int)
    ensures '/' !in IntToString(i)
  {
    if i < 0 {
      assert IntToString(i) == "-" + NatToString(-i);
    }
  }

  /**
   * The format option splits back into its alternatives, and the last one
   * is the unconditional `best`: every selector has a catch-all.
   */
  lemma FormatSelectorAlternatives(format: OutputFormat, maxHeight: int)
    ensures SplitOn(FormatSelector(format, maxHeight), '/') == FormatAlternatives(format, maxHeight)
    ensures var alts := SplitOn(FormatSelector(format, maxHeight), '/');
            |alts| >= 3 && alts[|alts| - 1] == "best"
  {
    var alts := FormatAlternatives(format, maxHeight);
    IntToStringHasNoSlash(maxHeight);
    var h := IntToString(maxHeight);
    assert forall k :: 0 <= k < |alts| ==> '/' !in alts[k] by {
      forall k | 0 <= k < |alts|
        ensures '/' !in alts[k]
      {
      }
    }
    SplitJoin(alts, '/');
  }

  /** The height cap of the settings limits the first alternative of MP4 and best-video downloads. */
  lemma FormatSelectorHeightCap(format: OutputFormat, maxHeight: int)
    requires format == MP4 || format == BestVideo
    ensures var first := SplitOn(FormatSelector(format, maxHeight), '/')[0];
            OccursAt("best[height<=" + IntToString(maxHeight) + "]", first, 0)
  {
    FormatSelectorAlternatives(format, maxHeight);
  }

  /** Audio extraction is configured exactly for the two audio formats, MP3 with the configured quality. */
  lemma BuildYdlOptsPostprocessors(settings: AppConfig, downloadDir: string, format: OutputFormat,
                                   downloadPlaylist: bool, maxDownloads: int)
    ensures var opts := BuildYdlOpts(settings, downloadDir, format, downloadPlaylist, maxDownloads);
            (opts.postprocessors != [] <==> format == MP3 || format == BestAudio)
            && (format == MP3 ==> opts.postprocessors == [ExtractAudio("mp3", Some(settings.audioQuality))])
  {
  }

  /** A joined path starts with its directory and the separator. */
  lemma PathJoinUnder(directory: string, name: string)
    ensures OccursAt(directory + "/", PathJoin(directory, name), 0)
  {
    assert PathJoin(directory, name)[..|directory| + 1] == directory + "/";
  }

  /** The download template puts files under the download directory, in the playlist's folder in playlist mode. */
  lemma OutTemplateFolder(downloadDir: string, downloadPlaylist: bool)
    ensures OccursAt(downloadDir + "/", OutTemplate(downloadDir, downloadPlaylist), 0)
    ensures downloadPlaylist ==>
              OccursAt(PathJoin(downloadDir, "%(playlist_title)s") + "/", OutTemplate(downloadDir, downloadPlaylist), 0)
  {
    var t := OutTemplate(downloadDir, downloadPlaylist);
    if downloadPlaylist {
      var folder := PathJoin(downloadDir, "%(playlist_title)s");
      PathJoinUnder(folder, "%(playlist_index)02d - %(title)s.%(ext)s");
      PathJoinUnder(downloadDir, "%(playlist_title)s");
      assert t[..|downloadDir| + 1] == folder[..|downloadDir| + 1];
    } else {
      PathJoinUnder(downloadDir, "%(uploader)s - %(title)s - %(id)s.%(ext)s");
    }
  }

  /**
   * The fallback options keep every key of the original options except the
   * format, the extractor arguments, the headers and the error policy; only
   * the generic branch touches the error policy.
   */
  lemma FallbackKeepsOtherKeys(kind: FallbackKind, opts: YdlOpts)
    ensures FallbackFor(kind, opts).(format := opts.format, extractorArgs := opts.extractorArgs,
                                      httpHeaders := opts.httpHeaders, ignoreErrors := opts.ignoreErrors) == opts
    ensures FallbackFor(kind, opts).ignoreErrors == (opts.ignoreErrors || kind == GenericFallback)
  {
    match kind
    case FacebookFallback =>
    case SoundCloudFallback =>
    case YouTubeFallback =>
    case GenericFallback =>
  }

  /**
   * Every fallback format ends in the catch-all `worst`, except SoundCloud's,
   * which is the plain `best`; the others ask for at most 720 lines first.
   */
  lemma FallbackFormatDowngrades(kind: FallbackKind)
    ensures var f := FallbackFormat(kind);
            f == "best" || (|f| >= 6 && OccursAt("/worst", f, |f| - 6) && OccursAt("best[height<=720]", f, 0))
  {
    var f := FallbackFormat(kind);
    if kind != SoundCloudFallback {
      assert OccursAt("/worst", f, |f| - 6);
    }
  }

  /**
   * The branches are tested in the order Facebook, SoundCloud, YouTube: a URL
   * naming Facebook gets the Facebook fallback whatever else it names.
   */
  lemma FallbackKindOrder(url: string)
    ensures FallbackKindOf(url) == FacebookFallback <==> Contains(Lower(url), "facebook")
    ensures FallbackKindOf(url) == SoundCloudFallback <==>
              !Contains(Lower(url), "facebook") && Contains(Lower(url), "soundcloud")
    ensures FallbackKindOf(url) == GenericFallback <==>
              !Contains(Lower(url), "facebook") && !Contains(Lower(url), "soundcloud")
              && !Contains(Lower(url), "youtube") && !Contains(Lower(url), "youtu.be")
  {
  }

  /** The probe is retried exactly for the three known error texts; anything else is re-raised. */
  lemma OnProbeErrorRetries(errorMessage: string, url: string, opts: YdlOpts)
    ensures OnProbeError(errorMessage, url, opts).Some? <==> FallbackTriggered(errorMessage)
  {
  }
}
