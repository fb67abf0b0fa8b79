/**
 * The downloader object (`VideoDownloader`) and its download configuration
 * (`DownloadConfig`): the journal file is a sequence of rows that the
 * object's methods append to, and the configuration's URL and playlist name
 * are rewritten in place.
 *
 * Everything the program asks of yt-dlp, the file system and the clock is a
 * field of an `Env` value: probing a URL for its information, downloading,
 * locating the downloaded file, and the stamp (record ID, time, file size)
 * of the n-th journal row for a given file.
 */
module Downloader {
  import opened Wrappers
  import opened Text
  import opened Sources
  import opened Sanitize
  import opened Facebook
  import opened Options
  import opened Media
  import opened Precheck
  import opened Journal

  /** The class of an error raised while probing. */
  datatype ErrorKind = DownloadError | ExtractorError | ImportError | ValueError | OtherError | Interrupted

  /** The error classes whose message the probe handler inspects. */
  predicate Handled(kind: ErrorKind) {
    kind == DownloadError || kind == ExtractorError || kind == ImportError || kind == ValueError
  }

  /** What probing a URL gives: the information (`None` when empty), or an error. */
  datatype ProbeOutcome = Extracted(result: Option<Extraction>) | Raised(kind: ErrorKind, message: string)

  /** The arguments of the search for a downloaded file. */
  datatype FileQuery = FileQuery(cleanTitle: string, ext: string, inPlaylist: bool,
                                 playlistTitle: string, videoId: string, uploader: string)

  datatype Env = Env(
    /** Python's `\w`. */
    isWord: WordClass,
    /** `extract_info(url, download=False)` under the given options. */
    probe: (string, YdlOpts) -> ProbeOutcome,
    /** `download([url])` under the given options: the error message if it raises. */
    download: (string, YdlOpts) -> Option<string>,
    /** `_find_downloaded_file`: the path found, if any. */
    locate: FileQuery -> Option<string>,
    /**
     * The record ID, time and file size of the journal row written, when the
     * journal has n rows, for the file at the given path.
     */
    stamp: (nat, string) -> Stamp)

  /** A successful probe: the information and the options it succeeded with. */
  datatype Probed = Probed(result: Extraction, opts: YdlOpts)

  /**
   * The probe of `download_video`: on a handled error whose message names a
   * known platform problem, a second probe with the fallback options; any
   * other error, an empty result, or a failing second probe ends the
   * download (`None`).
   */
  function Probe(env: Env, url: string, opts: YdlOpts): Option<Probed> {
    match env.probe(url, opts)
    case Extracted(result) => if result.Some? then Some(Probed(result.value, opts)) else None
    case Raised(kind, message) =>
      if Handled(kind) && OnProbeError(message, url, opts).Some? then
        var fallback := OnProbeError(message, url, opts).value;
        match env.probe(url, fallback)
        case Extracted(result) => if result.Some? then Some(Probed(result.value, fallback)) else None
        case Raised(_, _) => None
      else None
  }

  /** How one single-video download ends: its result, and the path and status journalled. */
  datatype Outcome = Outcome(ok: bool, filePath: string, status: string)

  /** The search for the file of a single video. */
  function SingleQuery(info: InfoDict, format: OutputFormat, isWord: WordClass): FileQuery {
    FileQuery(Sanitized(EnhancedTitle(info), DefaultMaxLength, isWord), OutputExt(format, info.ext),
              false, "", VideoId(info), Uploader(info))
  }

  /** `_download_single_video`: rejection, or else what the download gives. */
  function SingleOutcome(env: Env, info: InfoDict, req: Request, opts: YdlOpts): Outcome {
    match RejectionStatus(GetVideoSource(req.url), info)
    case Some(status) => Outcome(false, FailurePath, status)
    case None => DownloadOutcome(env, info, req, opts)
  }

  /** The download of a single video that passed the platform check: download error, file not found, or success. */
  function DownloadOutcome(env: Env, info: InfoDict, req: Request, opts: YdlOpts): Outcome {
    match env.download(req.url, opts)
    case Some(message) => Outcome(false, FailurePath, ErrorStatus(message))
    case None =>
      match env.locate(SingleQuery(info, req.outputFormat, env.isWord))
      case Some(path) => Outcome(true, path, Succeeded)
      case None => Outcome(false, FailurePath, NotFoundStatus)
  }

  /** Python's `entries[:m]`: a negative `m` counts from the end. */
  function Slice(entries: seq<Option<InfoDict>>, m: int): seq<Option<InfoDict>> {
    if m >= 0 then entries[..if m < |entries| then m else |entries|]
    else entries[..if |entries| + m > 0 then |entries| + m else 0]
  }

  /** The file name searched for a playlist entry: its sanitised title (a missing entry has none). */
  function EntryName(entry: Option<InfoDict>, isWord: WordClass): string {
    if entry.Some? then Sanitized(entry.value.title.GetOr("Unknown"), DefaultMaxLength, isWord) else ""
  }

  /** The file names searched for the entries of a playlist, position by position. */
  function EntryNames(entries: seq<Option<InfoDict>>, isWord: WordClass): seq<string> {
    seq(|entries|, i requires 0 <= i < |entries| => EntryName(entries[i], isWord))
  }

  /** The search for the file of a playlist entry named `name`. */
  function EntryQuery(entry: InfoDict, name: string, playlistTitle: string, format: OutputFormat): FileQuery {
    FileQuery(name, OutputExt(format, entry.ext), true, playlistTitle, "", "")
  }

  /**
   * The row journalled for the entry at 1-based `position`, searched for
   * under `name`, when the journal has `n` rows: none for a missing entry,
   * an entry without a page URL, a failed download or a file not found.
   */
  function EntryRow(env: Env, entry: Option<InfoDict>, name: string, position: nat, playlistTitle: string,
                    req: Request, opts: YdlOpts, n: nat): Option<Line> {
    if entry.None? || entry.value.webpageUrl.None? then None
    else
      var e := entry.value;
      if env.download(e.webpageUrl.value, opts).Some? then None
      else
        match env.locate(EntryQuery(e, name, playlistTitle, req.outputFormat))
        case None => None
        case Some(path) =>
          Some(Logged(e.(playlistIndex := Some(position), playlistTitle := Some(playlistTitle)),
                      req, path, Succeeded, env.stamp(n, path)))
  }

  /** The rows a possibly missing row adds to the journal. */
  function Appended(row: Option<Line>): (rows: seq<Line>)
    ensures |rows| <= 1 && (rows != [] <==> row.Some?)
  {
    if row.Some? then [row.value] else []
  }

  /** The journal after trying the entry at 1-based `position`, searched for under `name`. */
  function EntryStep(env: Env, journal: seq<Line>, entry: Option<InfoDict>, name: string, position: nat,
                     playlistTitle: string, req: Request, opts: YdlOpts): seq<Line> {
    journal + Appended(EntryRow(env, entry, name, position, playlistTitle, req, opts, |journal|))
  }

  /**
   * The journal after trying the first `k` entries in order, each searched
   * for under its name in `names`.
   */
  function PlaylistJournal(env: Env, journal: seq<Line>, entries: seq<Option<InfoDict>>, names: seq<string>,
                           k: nat, playlistTitle: string, req: Request, opts: YdlOpts): seq<Line>
    requires k <= |entries| == |names|
  {
    if k == 0 then journal
    else EntryStep(env, PlaylistJournal(env, journal, entries, names, k - 1, playlistTitle, req, opts),
                   entries[k - 1], names[k - 1], k, playlistTitle, req, opts)
  }

  /** The playlist's title, or its default. */
  function PlaylistTitle(info: InfoDict): string {
    info.title.GetOr("Unknown_Playlist")
  }

  // ---------------------------------------------------------------------
  // Properties
  // ---------------------------------------------------------------------

  /** Whether `entries[:m]` keeps position `i` of a list of length `len`. */
  predicate Kept(m: int, len: nat, i: nat) {
    if m >= 0 then i < m else i < len + m
  }

  /**
   * Python's `entries[:m]` keeps exactly the entries before position `m`,
   * where a negative `m` stands for `len(entries) + m`.
   */
  lemma SliceKeeps(entries: seq<Option<InfoDict>>, m: int)
    ensures |Slice(entries, m)| <= |entries|
    ensures forall i :: 0 <= i < |Slice(entries, m)| ==> Slice(entries, m)[i] == entries[i]
    ensures forall i :: 0 <= i < |entries| ==> (i < |Slice(entries, m)| <==> Kept(m, |entries|, i))
  {
  }

  /**
   * A playlist keeps the journal's earlier rows, appends at most one row per
   * entry tried, and appends none when every entry is missing.
   */
  lemma {:induction false} PlaylistJournalGrows(env: Env, journal: seq<Line>, entries: seq<Option<InfoDict>>,
                                                names: seq<string>, k: nat, playlistTitle: string,
                                                req: Request, opts: YdlOpts)
    requires k <= |entries| == |names|
    ensures var j := PlaylistJournal(env, journal, entries, names, k, playlistTitle, req, opts);
            |journal| <= |j| <= |journal| + k && j[..|journal|] == journal
    ensures (forall i :: 0 <= i < k ==> entries[i].None?) ==>
              PlaylistJournal(env, journal, entries, names, k, playlistTitle, req, opts) == journal
  {
    if k > 0 {
      PlaylistJournalGrows(env, journal, entries, names, k - 1, playlistTitle, req, opts);
      var before := PlaylistJournal(env, journal, entries, names, k - 1, playlistTitle, req, opts);
      var row := EntryRow(env, entries[k - 1], names[k - 1], k, playlistTitle, req, opts, |before|);
      assert (before + Appended(row))[..|journal|] == before[..|journal|];
    }
  }

  /** With a non-negative `max_downloads`, a playlist journals at most that many rows. */
  lemma PlaylistAppendsAtMost(env: Env, journal: seq<Line>, entries: seq<Option<InfoDict>>, m: int,
                              playlistTitle: string, req: Request, opts: YdlOpts)
    requires m >= 0
    ensures var batch := Slice(entries, m);
            |PlaylistJournal(env, journal, batch, EntryNames(batch, env.isWord), |batch|, playlistTitle, req, opts)|
              <= |journal| + m
  {
    var batch := Slice(entries, m);
    PlaylistJournalGrows(env, journal, batch, EntryNames(batch, env.isWord), |batch|, playlistTitle, req, opts);
  }

  /** Every row of `journal` from position `start` on is a logged success. */
  predicate SucceededFrom(journal: seq<Line>, start: nat) {
    forall i :: start <= i < |journal| ==> journal[i].Logged? && journal[i].status == Succeeded
  }

  /** Every row a playlist journals is a logged success. */
  lemma {:induction false} PlaylistLogsSuccesses(env: Env, journal: seq<Line>, entries: seq<Option<InfoDict>>,
                                                 names: seq<string>, k: nat, playlistTitle: string,
                                                 req: Request, opts: YdlOpts)
    requires k <= |entries| == |names|
    ensures SucceededFrom(PlaylistJournal(env, journal, entries, names, k, playlistTitle, req, opts), |journal|)
  {
    if k > 0 {
      PlaylistLogsSuccesses(env, journal, entries, names, k - 1, playlistTitle, req, opts);
      var before := PlaylistJournal(env, journal, entries, names, k - 1, playlistTitle, req, opts);
      var row := EntryRow(env, entries[k - 1], names[k - 1], k, playlistTitle, req, opts, |before|);
      if row.Some? {
        EntryRowSucceeded(env, entries[k - 1], names[k - 1], k, playlistTitle, req, opts, |before|);
        var j := before + [row.value];
        assert forall i :: |journal| <= i < |j| ==> j[i] == if i < |before| then before[i] else row.value;
      } else {
        assert before + Appended(row) == before;
      }
    }
  }

  /** Appending a playlist's rows keeps the journal well formed with its header single. */
  lemma PlaylistKeepsJournal(env: Env, journal: seq<Line>, entries: seq<Option<InfoDict>>, names: seq<string>,
                             k: nat, playlistTitle: string, req: Request, opts: YdlOpts)
    requires k <= |entries| == |names|
    requires WellFormed(journal) && HeaderOnlyFirst(journal)
    ensures var j := PlaylistJournal(env, journal, entries, names, k, playlistTitle, req, opts);
            WellFormed(j) && HeaderOnlyFirst(j)
  {
    PlaylistJournalGrows(env, journal, entries, names, k, playlistTitle, req, opts);
    PlaylistLogsSuccesses(env, journal, entries, names, k, playlistTitle, req, opts);
    StatusesAreStatuses("");
    AppendRowsKeepsJournal(journal, PlaylistJournal(env, journal, entries, names, k, playlistTitle, req, opts));
  }

  /** The row of a playlist entry, when there is one, is the logged success of the renumbered entry. */
  lemma EntryRowSucceeded(env: Env, entry: Option<InfoDict>, name: string, position: nat, playlistTitle: string,
                          req: Request, opts: YdlOpts, n: nat)
    requires EntryRow(env, entry, name, position, playlistTitle, req, opts, n).Some?
    ensures entry.Some? && entry.value.webpageUrl.Some?
    ensures env.download(entry.value.webpageUrl.value, opts).None?
    ensures var e := entry.value;
            var found := env.locate(EntryQuery(e, name, playlistTitle, req.outputFormat));
            found.Some?
            && EntryRow(env, entry, name, position, playlistTitle, req, opts, n).value
               == Logged(e.(playlistIndex := Some(position), playlistTitle := Some(playlistTitle)),
                         req, found.value, Succeeded, env.stamp(n, found.value))
  {
  }

  /**
   * The entry exists, has a page URL, downloads without error, and its file
   * is found under `name`: the playlist loop's path to a row.
   */
  predicate Located(env: Env, entry: Option<InfoDict>, name: string, playlistTitle: string,
                    format: OutputFormat, opts: YdlOpts) {
    entry.Some? && entry.value.webpageUrl.Some?
    && env.download(entry.value.webpageUrl.value, opts).None?
    && env.locate(EntryQuery(entry.value, name, playlistTitle, format)).Some?
  }

  /**
   * A playlist entry gets a row exactly when it is located, and then the
   * row is the logged success of the renumbered entry at the file found.
   */
  lemma EntryRowLocated(env: Env, entry: Option<InfoDict>, name: string, position: nat, playlistTitle: string,
                        req: Request, opts: YdlOpts, n: nat)
    ensures EntryRow(env, entry, name, position, playlistTitle, req, opts, n).Some?
            <==> Located(env, entry, name, playlistTitle, req.outputFormat, opts)
    ensures Located(env, entry, name, playlistTitle, req.outputFormat, opts) ==>
              var e := entry.value;
              var path := env.locate(EntryQuery(e, name, playlistTitle, req.outputFormat)).value;
              EntryRow(env, entry, name, position, playlistTitle, req, opts, n)
                == Some(Logged(e.(playlistIndex := Some(position), playlistTitle := Some(playlistTitle)),
                               req, path, Succeeded, env.stamp(n, path)))
  {
  }

  /** How many of the first `k` entries are located, each under its name in `names`. */
  function LocatedCount(env: Env, entries: seq<Option<InfoDict>>, names: seq<string>, k: nat,
                        playlistTitle: string, format: OutputFormat, opts: YdlOpts): (c: nat)
    requires k <= |entries| == |names|
    ensures c <= k
  {
    if k == 0 then 0
    else LocatedCount(env, entries, names, k - 1, playlistTitle, format, opts)
         + (if Located(env, entries[k - 1], names[k - 1], playlistTitle, format, opts) then 1 else 0)
  }

  /** A playlist appends exactly one row per located entry. */
  lemma {:induction false} PlaylistJournalCount(env: Env, journal: seq<Line>, entries: seq<Option<InfoDict>>,
                                                names: seq<string>, k: nat, playlistTitle: string,
                                                req: Request, opts: YdlOpts)
    requires k <= |entries| == |names|
    ensures |PlaylistJournal(env, journal, entries, names, k, playlistTitle, req, opts)|
            == |journal| + LocatedCount(env, entries, names, k, playlistTitle, req.outputFormat, opts)
  {
    if k > 0 {
      PlaylistJournalCount(env, journal, entries, names, k - 1, playlistTitle, req, opts);
      var before := PlaylistJournal(env, journal, entries, names, k - 1, playlistTitle, req, opts);
      EntryRowLocated(env, entries[k - 1], names[k - 1], k, playlistTitle, req, opts, |before|);
    }
  }

  /**
   * How a download that passed the platform check ends: it succeeds exactly
   * when the status is the success status, the path is the file found on
   * success and `.` otherwise, and the status is always a download status.
   */
  lemma DownloadOutcomeStatus(env: Env, info: InfoDict, req: Request, opts: YdlOpts)
    ensures var o := DownloadOutcome(env, info, req, opts);
            (o.ok <==> o.status == Succeeded)
            && (o.ok ==> Some(o.filePath) == env.locate(SingleQuery(info, req.outputFormat, env.isWord)))
            && (!o.ok ==> o.filePath == FailurePath)
            && IsStatus(o.status)
  {
    var message := if env.download(req.url, opts).Some? then env.download(req.url, opts).value else "";
    StatusesAreStatuses(message);
    ErrorIsNotSuccess(ErrorStatus(message));
    ErrorIsNotSuccess(NotFoundStatus);
  }

  /**
   * How a single-video download ends: as `DownloadOutcomeStatus` says, and a
   * rejection is a failure with an error status.
   */
  lemma SingleOutcomeStatus(env: Env, info: InfoDict, req: Request, opts: YdlOpts)
    ensures var o := SingleOutcome(env, info, req, opts);
            (o.ok <==> o.status == Succeeded)
            && (o.ok ==> Some(o.filePath) == env.locate(SingleQuery(info, req.outputFormat, env.isWord)))
            && (!o.ok ==> o.filePath == FailurePath)
            && IsStatus(o.status)
  {
    var rejection := RejectionStatus(GetVideoSource(req.url), info);
    if rejection.Some? {
      RejectionStatusIsError(GetVideoSource(req.url), info);
      ErrorIsNotSuccess(rejection.value);
    } else {
      DownloadOutcomeStatus(env, info, req, opts);
    }
  }

  /**
   * A platform rejection decides the outcome before any download: the
   * outcome is the same whatever the download would do, and it is a failure
   * with the rejection status.
   */
  lemma RejectionSkipsDownload(env: Env, info: InfoDict, req: Request, opts: YdlOpts,
                               download: (string, YdlOpts) -> Option<string>)
    requires RejectionStatus(GetVideoSource(req.url), info).Some?
    ensures SingleOutcome(env, info, req, opts) == SingleOutcome(env.(download := download), info, req, opts)
    ensures SingleOutcome(env, info, req, opts)
            == Outcome(false, FailurePath, RejectionStatus(GetVideoSource(req.url), info).value)
  {
  }

  /** A single-video download keeps the journal well formed with its header single. */
  lemma SingleVideoKeepsJournal(journal: seq<Line>, env: Env, info: InfoDict, req: Request,
                                opts: YdlOpts, stamp: Stamp)
    requires WellFormed(journal) && HeaderOnlyFirst(journal)
    ensures var o := SingleOutcome(env, info, req, opts);
            var j := journal + [Logged(info, req, o.filePath, o.status, stamp)];
            WellFormed(j) && HeaderOnlyFirst(j)
  {
    var o := SingleOutcome(env, info, req, opts);
    SingleOutcomeStatus(env, info, req, opts);
    var j := journal + [Logged(info, req, o.filePath, o.status, stamp)];
    assert j[..|journal|] == journal;
    AppendRowsKeepsJournal(journal, j);
  }

  /**
   * The probe succeeds with other options than the ones built only after a
   * handled error naming a known platform problem, and then with the
   * fallback options for the URL; an unhandled error or any other message
   * ends the download.
   */
  lemma ProbeFallback(env: Env, url: string, opts: YdlOpts)
    ensures var p := Probe(env, url, opts);
            p.Some? && p.value.opts != opts ==>
              env.probe(url, opts).Raised? && Handled(env.probe(url, opts).kind)
              && FallbackTriggered(env.probe(url, opts).message)
              && p.value.opts == FallbackOpts(url, opts)
    ensures env.probe(url, opts).Raised? ==>
              (!Handled(env.probe(url, opts).kind) || !FallbackTriggered(env.probe(url, opts).message)) ==>
              Probe(env, url, opts).None?
    ensures env.probe(url, opts).Extracted? && env.probe(url, opts).result.Some? ==>
              Probe(env, url, opts) == Some(Probed(env.probe(url, opts).result.value, opts))
    ensures var first := env.probe(url, opts);
            first.Raised? && Handled(first.kind) && FallbackTriggered(first.message) ==>
              var second := env.probe(url, FallbackOpts(url, opts));
              Probe(env, url, opts)
                == if second.Extracted? && second.result.Some? then Some(Probed(second.result.value, FallbackOpts(url, opts)))
                   else None
  {
    match env.probe(url, opts)
    case Extracted(_) =>
    case Raised(kind, message) =>
      OnProbeErrorRetries(message, url, opts);
  }

  /** The settings of one download (`DownloadConfig`). */
  class DownloadConfig {
    var url: string
    var playlistName: string
    const outputFormat: OutputFormat
    const downloadedBy: string
    const proxyUsed: bool
    const notes: string
    const quality: string
    const downloadPlaylist: bool
    const maxDownloads: int

    constructor(url: string, outputFormat: OutputFormat, downloadedBy: string, playlistName: string,
                proxyUsed: bool, notes: string, quality: string, downloadPlaylist: bool, maxDownloads: int)
      ensures this.url == url && this.outputFormat == outputFormat && this.downloadedBy == downloadedBy
      ensures this.playlistName == playlistName && this.proxyUsed == proxyUsed && this.notes == notes
      ensures this.quality == quality && this.downloadPlaylist == downloadPlaylist
      ensures this.maxDownloads == maxDownloads
    {
      this.url := url;
      this.outputFormat := outputFormat;
      this.downloadedBy := downloadedBy;
      this.playlistName := playlistName;
      this.proxyUsed := proxyUsed;
      this.notes := notes;
      this.quality := quality;
      this.downloadPlaylist := downloadPlaylist;
      this.maxDownloads := maxDownloads;
    }

    /** A configuration with the dataclass's defaults for everything but the URL. */
    constructor WithDefaults(url: string)
      ensures this.url == url && outputFormat == MP4 && downloadedBy == "User" && playlistName == ""
      ensures !proxyUsed && notes == "" && quality == "best" && !downloadPlaylist && maxDownloads == 50
    {
      this.url := url;
      outputFormat := MP4;
      downloadedBy := "User";
      playlistName := "";
      proxyUsed := false;
      notes := "";
      quality := "best";
      downloadPlaylist := false;
      maxDownloads := 50;
    }

    /** The fields a journal row records, as they are now. */
    function Snapshot(): Request
      reads this
    {
      Request(url, outputFormat, downloadedBy, playlistName, proxyUsed, notes, quality)
    }
  }

  class VideoDownloader {
    /** The rows of the journal file. */
    var journal: seq<Line>
    const settings: AppConfig
    const downloadDir: string
    const env: Env

    /**
     * `__init__` with `_setup_directories`: the download folder is the one
     * given, or the configured one under the working directory; the journal
     * is the existing file's rows, or a new file holding just the header.
     */
    constructor(settings: AppConfig, downloadDir: Option<string>, cwd: string, env: Env,
                existing: Option<seq<seq<string>>>)
      ensures this.settings == settings && this.env == env
      ensures this.downloadDir ==
                if downloadDir.Some? && downloadDir.value != "" then downloadDir.value
                else PathJoin(cwd, settings.downloadDirectory)
      ensures journal == if existing.Some? then FromFile(existing.value) else [Cells(Header)]
    {
      this.settings := settings;
      this.downloadDir :=
        if downloadDir.Some? && downloadDir.value != "" then downloadDir.value
        else PathJoin(cwd, settings.downloadDirectory);
      this.env := env;
      if existing.Some? {
        journal := FromFile(existing.value);
      } else {
        journal := [Cells(Header)];
      }
    }

    /** `log_download`: appends one row, stamped for the journal's current length. */
    method LogDownload(info: InfoDict, config: DownloadConfig, filePath: string, status: string)
      modifies this
      ensures journal == old(journal) + [Logged(info, config.Snapshot(), filePath, status,
                                                env.stamp(|old(journal)|, filePath))]
    {
      var stamp := env.stamp(|journal|, filePath);
      journal := journal + [Logged(info, config.Snapshot(), filePath, status, stamp)];
    }

    /** `_download_single_video`: exactly one row is appended, whatever happens. */
    method DownloadSingleVideo(info: InfoDict, config: DownloadConfig, opts: YdlOpts) returns (ok: bool)
      modifies this
      ensures var o := SingleOutcome(env, info, config.Snapshot(), opts);
              ok == o.ok
              && journal == old(journal) + [Logged(info, config.Snapshot(), o.filePath, o.status,
                                                   env.stamp(|old(journal)|, o.filePath))]
    {
      var source := GetVideoSource(config.url);
      var rejection := RejectionStatus(source, info);
      if rejection.Some? {
        LogDownload(info, config, FailurePath, rejection.value);
        return false;
      }
      ok := DownloadChecked(info, config, opts);
    }

    /** The rest of `_download_single_video`, after the platform check: download, look for the file, log. */
    method DownloadChecked(info: InfoDict, config: DownloadConfig, opts: YdlOpts) returns (ok: bool)
      modifies this
      ensures var o := DownloadOutcome(env, info, config.Snapshot(), opts);
              ok == o.ok
              && journal == old(journal) + [Logged(info, config.Snapshot(), o.filePath, o.status,
                                                   env.stamp(|old(journal)|, o.filePath))]
    {
      var error := env.download(config.url, opts);
      if error.Some? {
        LogDownload(info, config, FailurePath, ErrorStatus(error.value));
        return false;
      }
      var cleanTitle := SanitizeFilename(EnhancedTitle(info), DefaultMaxLength, env.isWord);
      var ext := OutputExt(config.outputFormat, info.ext);
      var found := env.locate(FileQuery(cleanTitle, ext, false, "", VideoId(info), Uploader(info)));
      if found.Some? {
        LogDownload(info, config, found.value, Succeeded);
        return true;
      }
      LogDownload(info, config, FailurePath, NotFoundStatus);
      return false;
    }

    /**
     * One turn of the playlist loop: the entry at 1-based `position` is
     * downloaded and its file looked for; a row is appended when it is found.
     */
    method DownloadEntry(entry: Option<InfoDict>, ghost name: string, position: nat, playlistTitle: string,
                         config: DownloadConfig, ghost req: Request, opts: YdlOpts)
      returns (logged: bool)
      requires name == EntryName(entry, env.isWord) && req == config.Snapshot()
      modifies this
      ensures journal == EntryStep(env, old(journal), entry, name, position, playlistTitle, req, opts)
      ensures |journal| == |old(journal)| + (if logged then 1 else 0)
    {
      logged := false;
      if entry.None? || entry.value.webpageUrl.None? {
        return;
      }
      var e := entry.value;
      var error := env.download(e.webpageUrl.value, opts);
      if error.Some? {
        return;
      }
      var cleanTitle := SanitizeFilename(e.title.GetOr("Unknown"), DefaultMaxLength, env.isWord);
      var ext := OutputExt(config.outputFormat, e.ext);
      var found := env.locate(FileQuery(cleanTitle, ext, true, playlistTitle, "", ""));
      if found.Some? {
        LogDownload(e.(playlistIndex := Some(position), playlistTitle := Some(playlistTitle)),
                    config, found.value, Succeeded);
        logged := true;
      }
    }

    /**
     * The loop of `_download_playlist`: the entries are tried in order, and
     * the number of rows appended, one per located entry, is returned.
     */
    method DownloadEntries(batch: seq<Option<InfoDict>>, playlistTitle: string, config: DownloadConfig,
                           opts: YdlOpts) returns (successCount: nat)
      modifies this
      ensures journal == PlaylistJournal(env, old(journal), batch, EntryNames(batch, env.isWord), |batch|,
                                         playlistTitle, config.Snapshot(), opts)
      ensures successCount == |journal| - |old(journal)|
      ensures successCount == LocatedCount(env, batch, EntryNames(batch, env.isWord), |batch|, playlistTitle,
                                           config.outputFormat, opts)
    {
      ghost var req := config.Snapshot();
      ghost var names := EntryNames(batch, env.isWord);
      successCount := 0;
      var k := 0;
      while k < |batch|
        invariant 0 <= k <= |batch|
        invariant journal == PlaylistJournal(env, old(journal), batch, names, k, playlistTitle, req, opts)
        invariant successCount == |journal| - |old(journal)|
      {
        var logged := DownloadEntry(batch[k], names[k], k + 1, playlistTitle, config, req, opts);
        if logged {
          successCount := successCount + 1;
        }
        k := k + 1;
      }
      PlaylistJournalCount(env, old(journal), batch, names, |batch|, playlistTitle, req, opts);
    }

    /**
     * `_download_playlist`: an empty playlist changes nothing and fails;
     * otherwise the configuration takes the playlist's title, each of the
     * first `max_downloads` entries is tried in order, one row is appended
     * per file found, and the result says whether any was.
     */
    method DownloadPlaylist(playlist: Extraction, config: DownloadConfig, opts: YdlOpts) returns (ok: bool)
      modifies this, config
      ensures config.url == old(config.url)
      ensures playlist.entries.GetOr([]) == [] ==>
                !ok && journal == old(journal) && config.playlistName == old(config.playlistName)
      ensures playlist.entries.GetOr([]) != [] ==>
                config.playlistName == PlaylistTitle(playlist.info)
                && journal == PlaylistJournal(env, old(journal), Slice(playlist.entries.GetOr([]), config.maxDownloads),
                                              EntryNames(Slice(playlist.entries.GetOr([]), config.maxDownloads), env.isWord),
                                              |Slice(playlist.entries.GetOr([]), config.maxDownloads)|,
                                              PlaylistTitle(playlist.info), config.Snapshot(), opts)
                && ok == (|journal| > |old(journal)|)
      ensures |journal| >= |old(journal)| && journal[..|old(journal)|] == old(journal)
    {
      var entries := playlist.entries.GetOr([]);
      if entries == [] {
        return false;
      }
      var playlistTitle := PlaylistTitle(playlist.info);
      config.playlistName := playlistTitle;
      var batch := Slice(entries, config.maxDownloads);
      var successCount := DownloadEntries(batch, playlistTitle, config, opts);
      PlaylistJournalGrows(env, old(journal), batch, EntryNames(batch, env.isWord), |batch|, playlistTitle,
                           config.Snapshot(), opts);
      ok := successCount > 0;
    }

    /**
     * The start of `download_video`: a URL that mentions Facebook is
     * replaced, in place, by its repaired form.
     */
    method RepairUrl(config: DownloadConfig)
      modifies config
      ensures config.url == FixFacebookUrl(old(config.url), env.isWord)
      ensures config.playlistName == old(config.playlistName)
    {
      if MentionsFacebook(config.url) {
        config.url := FixFacebookUrl(config.url, env.isWord);
      }
    }

    /**
     * What `download_video` does with the information it probed: a playlist
     * download when it has `entries`, a single-video download otherwise.
     */
    method DownloadProbed(result: Extraction, config: DownloadConfig, opts: YdlOpts) returns (ok: bool)
      modifies this, config
      ensures config.url == old(config.url)
      ensures result.entries.None? ==>
                var o := SingleOutcome(env, result.info, config.Snapshot(), opts);
                config.playlistName == old(config.playlistName)
                && ok == o.ok
                && journal == old(journal) + [Logged(result.info, config.Snapshot(), o.filePath, o.status,
                                                     env.stamp(|old(journal)|, o.filePath))]
      ensures result.entries.Some? ==>
                var batch := Slice(result.entries.value, config.maxDownloads);
                (result.entries.value == [] ==>
                   !ok && journal == old(journal) && config.playlistName == old(config.playlistName))
                && (result.entries.value != [] ==>
                      config.playlistName == PlaylistTitle(result.info)
                      && journal == PlaylistJournal(env, old(journal), batch, EntryNames(batch, env.isWord), |batch|,
                                                    PlaylistTitle(result.info), config.Snapshot(), opts)
                      && ok == (|journal| > |old(journal)|))
      ensures |journal| >= |old(journal)| && journal[..|old(journal)|] == old(journal)
      ensures ok ==> |journal| > |old(journal)|
    {
      if result.entries.Some? {
        ok := DownloadPlaylist(result, config, opts);
      } else {
        ok := DownloadSingleVideo(result.info, config, opts);
      }
    }

    /** `download_video`: the URL repair, and then the probe and the download. */
    method DownloadVideo(config: DownloadConfig) returns (ok: bool)
      modifies this, config
      ensures config.url == FixFacebookUrl(old(config.url), env.isWord)
      ensures var p := Probe(env, config.url, BuildYdlOpts(settings, downloadDir, config.outputFormat,
                                                           config.downloadPlaylist, config.maxDownloads));
              (p.None? ==> !ok && journal == old(journal) && config.playlistName == old(config.playlistName))
              && (p.Some? && p.value.result.entries.None? ==>
                    var o := SingleOutcome(env, p.value.result.info, config.Snapshot(), p.value.opts);
                    config.playlistName == old(config.playlistName)
                    && ok == o.ok
                    && journal == old(journal) + [Logged(p.value.result.info, config.Snapshot(), o.filePath,
                                                         o.status, env.stamp(|old(journal)|, o.filePath))])
      ensures |journal| >= |old(journal)| && journal[..|old(journal)|] == old(journal)
      ensures ok ==> |journal| > |old(journal)|
    {
      RepairUrl(config);
      var opts := BuildYdlOpts(settings, downloadDir, config.outputFormat, config.downloadPlaylist, config.maxDownloads);
      var probed := Probe(env, config.url, opts);
      if probed.None? {
        return false;
      }
      ok := DownloadProbed(probed.value.result, config, probed.value.opts);
    }
  }
}

