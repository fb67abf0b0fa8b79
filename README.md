# video_downloader — a verified model of the downloader core

This project models the deterministic core of `main.py` from video_downloader, a wrapper around the yt-dlp library. That core is the routines that decide, from a URL and the information yt-dlp reports, what gets downloaded, under which options, and what is written to the download journal (`downloads_log.csv`). The model covers:

- **Sources** — `get_video_source`: an ordered table of host-name fragments, matched against the lowercased URL.
- **Sanitize** — `sanitize_filename`: the chain of rewrites, then the word-by-word truncation loop. Both are methods proved against a specification function.
- **Duration** — `_format_duration`: `MM:SS` or `HH:MM:SS`, with Python's truncating `int()` and flooring `divmod`.
- **Facebook** — `_fix_facebook_url`: the six regular expressions, each a leftmost search with the backtracking order of the regular-expression engine.
- **Options** — `_get_ydl_opts`, and the fallback options that `download_video` builds when a probe fails with a known platform problem.
- **Precheck** — the title assembly and the per-platform rejection rules of `_download_single_video`.
- **Journal** — the header written by `_setup_directories` and the 18-cell row written by `log_download`.
- **Downloader** — the `VideoDownloader` and `DownloadConfig` classes:
  - the journal is a `seq` field that the methods append to;
  - `download_video` rewrites `config.url` in place;
  - `_download_playlist` rewrites `config.playlist_name` and runs a counting loop over the entries.

yt-dlp, the file system and the clock are reached through the fields of an `Env` value. These fields are probing a URL, downloading, locating the downloaded file, and the record ID, time and file size of a row, which depend on the journal's length and the file logged. The model states what the program does with whatever these return.

Behaviour of the code that the model reproduces as written:

- **Tags are deleted with their text.** `<[^>]+>` deletes a tag together with everything inside it, so `"My <Cool> Video???"` sanitizes to `"My Video"`, not `"My Cool Video"` (`Sanitize.StripTagsDeletesTagText`).
- **An over-long first word is kept whole.** The truncation loop always keeps the first word, so the length bound of `sanitize_filename` holds only when the first word fits (`Sanitize.SanitizedOverlongFirstWord`). A description of the sanitizer that promises the bound always holds does not match the code; the model follows the code.
- **Reddit URLs are classified as Twitter/X.** The Twitter/X row lists `t.co`, which is a substring of `reddit.com`, and that row comes first. So no URL containing `reddit.com` is classified as Reddit (`Sources.RedditComIsTwitter`).
- **A negative duration shows no hours field.** Python's flooring `divmod` makes its hour count negative (`Duration.NegativeDurationHasNoHours`; `Duration.NegativeDurationExample` shows -5 seconds as `59:55`).
- **A negative `max_downloads` counts from the end.** `entries[:max_downloads]` then drops that many entries from the end of the playlist (`Downloader.SliceKeeps`).
- **The playlist loop journals only files it found.** An entry that is missing, has no page URL, fails to download or whose file is not found gets no row, and its error is swallowed (`Downloader.EntryRowLocated`).
- **Failure rows record the path `"."`.** Every failure row is logged with `Path("")`, whose string is `"."`.

## Model

| member | source | states |
|---|---|---|
| Sources.FirstMatchFrom | main.py:295-299 | the index found is the first table row with a fragment in the URL; `None` exactly when no row has one |
| Sources.GetVideoSource | main.py:267-299 | the definition the lemmas below are about: the platform of the first table row with a fragment in the lowercased URL, `OTHER` when no row has one |
| Sources.TableSourcesDistinct | main.py:279-293 | every row of the table names a different platform, and none names `OTHER` |
| Sources.GetVideoSourceFirstRow | main.py:277-299 | the URL is classified as row k's platform iff row k has a fragment in the lowercased URL and no earlier row does |
| Sources.GetVideoSourceOther | main.py:295-299 | the result is `OTHER` iff no row has a fragment in the lowercased URL |
| Sources.GetVideoSourceIgnoresCase | main.py:277 | classifying the lowercased URL gives the same platform: the match ignores case |
| Sources.RedditComIsTwitter | main.py:284-287 | a URL containing `reddit.com` is never Reddit; it is Twitter/X unless one of the first four rows matches |
| Sanitize.TagLength | main.py:317 | a tag match at the start is `<`, at least one character other than `>`, then the first `>`; no match means no closing `>` follows |
| Sanitize.StripTags | main.py:317 | the definition `StripTagsDeletesTagText`, `StripTagsWithoutClose` and `CleanedAllowed` are about: each `<[^>]+>` match, leftmost first, deleted with the text inside it; an unclosed `<` stays |
| Sanitize.StripTagsWithoutClose | main.py:317 | a name without any `>` holds no tag and is left unchanged, every `<` included |
| Sanitize.RemoveForbidden | main.py:320 | the definition `SanitizedHasNoForbiddenChars` is about: every one of `<>:"/\|?*` removed, the other characters kept in order |
| Sanitize.KeepAllowed | main.py:323 | the definition `KeepAllowedInClass` is about: only word characters, whitespace and `-_.()[]{}` kept, in order |
| Sanitize.CollapseSpaces | main.py:326 | the definition `CollapseAllowed` is about: each run of whitespace replaced by one space |
| Sanitize.Strip | main.py:313-329 | the definition used by the blank check and the fifth rewrite: leading and trailing whitespace removed |
| Sanitize.RStripDots | main.py:332 | the definition of the sixth rewrite: trailing dots removed |
| Sanitize.Words | main.py:337 | the definition `KeptWords` and `TruncateToWords` are about: `str.split()`, the maximal runs of non-whitespace in order |
| Sanitize.Cleaned | main.py:317-332 | the definition `CleanedAllowed` is about: the six rewrites in the order the code applies them |
| Sanitize.Sanitized | main.py:302-347 | the specification `SanitizeFilename` is proved against: the blank check, the rewrites, the truncation when too long, and the `"Unknown_Video"` fallback |
| Sanitize.KeptWords | main.py:340-344 | the truncation keeps the largest number of words (at least one) whose joined length fits; every longer prefix does not fit |
| Sanitize.PrefixLengthMonotone | main.py:341 | a longer run of joined words is strictly longer, so the loop may stop at the first word that does not fit |
| Sanitize.TruncateToWords | main.py:337-345 | the accumulating loop returns the first word and the longest following run of whole words that fits, or `"Video"` for no words |
| Sanitize.SanitizeFilename | main.py:302-347 | the rewrites in order, then the truncation, equal the specification `Sanitized`; the result is never empty |
| Sanitize.KeepAllowedInClass | main.py:323 | after the third rewrite every character is a word character, whitespace or one of `-_.()[]{}` |
| Sanitize.CollapseAllowed | main.py:326 | collapsing whitespace runs leaves only word characters, spaces and the allowed punctuation |
| Sanitize.CleanedAllowed | main.py:317-332 | every character of the cleaned name is a word character, a space or one of `-_.()[]{}` |
| Sanitize.FallbacksAllowed | main.py:313-347 | the fixed names `"Unknown_Video"` and `"Video"` consist of word characters only |
| Sanitize.FinishedAllowed | main.py:335-347 | truncation and the fallback keep that: every character of the result is a word character, a space or one of `-_.()[]{}` |
| Sanitize.SanitizedAllowed | main.py:313-347 | every character of a sanitized name is a word character, a space or one of `-_.()[]{}` |
| Sanitize.SanitizedHasNoForbiddenChars | main.py:313-347 | a sanitized name is never empty and never holds any of `<>:"/\|?*` |
| Sanitize.SanitizedBlank | main.py:313-314 | an empty or whitespace-only name becomes `"Unknown_Video"` |
| Sanitize.SanitizedShortName | main.py:335-347 | a cleaned name that fits is returned untruncated (the placeholder when cleaning left nothing) |
| Sanitize.SanitizedWithinLimit | main.py:335-345 | for a name that is not blank and whose cleaning leaves something, the result is within `max_length` whenever the cleaned name or its first word fits (a name that cleans to nothing becomes `"Unknown_Video"`, whatever the limit) |
| Sanitize.SanitizedOverlongFirstWord | main.py:337-345 | when the first word alone is longer than `max_length`, the result is that word, whole |
| Sanitize.StripTagsDeletesTagText | main.py:317 | `<t>` is deleted together with its text `t`, not unwrapped |
| Duration.Truncate | main.py:363 | `int()` on a number truncates toward zero: the result is within one of the value, on its side of zero |
| Duration.Pad2 | main.py:367-369 | the definition `Pad2Nat` is about: `:02d`, a number written in decimal and zero-padded to two digits |
| Duration.Clock | main.py:363-369 | the definition `ClockRoundTrip` is about: `divmod` by 60 twice, shown as `HH:MM:SS` when the hours are positive and as `MM:SS` otherwise |
| Duration.FormatDuration | main.py:358-369 | the definition `FormatDurationUnknown` and `FormatDurationRoundTrip` are about: `"Неизвестно"` for a missing or zero duration, else the clock of its truncated seconds |
| Duration.Pad2Nat | main.py:367-369 | a zero-padded field has at least two digits, no colon, reads back as its number, and is exactly two digits below 100 |
| Duration.ClockArithmetic | main.py:363-364 | hours·3600 + minutes·60 + seconds equals the whole seconds, and hours > 0 iff the total reaches 3600 |
| Duration.FormatDurationUnknown | main.py:360-361 | the result is `"Неизвестно"` iff the duration is missing or zero |
| Duration.ParseLongClock | main.py:366-367 | `HH:MM:SS` with positive hours and minutes and seconds below 60 reads back as its total, in three fields |
| Duration.ParseShortClock | main.py:368-369 | `MM:SS` with both below 60 reads back as its total, in two fields |
| Duration.ClockRoundTrip | main.py:363-369 | the clock of n ≥ 0 seconds reads back as n, with an hours field exactly when n ≥ 3600 |
| Duration.FormatDurationRoundTrip | main.py:358-369 | a positive duration is shown as a clock that reads back as its truncated seconds, with hours exactly from one hour on |
| Duration.NegativeDurationHasNoHours | main.py:363-369 | every negative duration is shown with two fields, minutes and seconds, that read back as its truncated seconds modulo one hour |
| Duration.NegativeDurationExample | main.py:363-369 | -5 seconds is shown as `59:55`: no hours field for a negative duration |
| Facebook.Captured | main.py:606 | the captured group is 15 or 16 digits |
| Facebook.IdAt | main.py:595-600 | `\d{15,16}` matches at p iff 15 digits start there, and takes 16 iff there are 16 |
| Facebook.IdAfter | main.py:595-597 | a fixed text followed by an ID captures 15 or 16 digits |
| Facebook.NonSlashRun | main.py:598 | `[^/]+` runs greedily up to the next `/` or the end |
| Facebook.LazyId | main.py:598 | `.*?(\d{15,16})` captures the ID at the first position from p, with no line feed before it, where one starts; no capture iff no ID starts at any position before the first line feed or the end |
| Facebook.BacktrackRun | main.py:598 | backing off `[^/]+` from its greedy length, the capture is the lazy scan from the longest length that finds one; none iff no length finds one |
| Facebook.BoundedId | main.py:600 | `\b(\d{15,16})\b` matches iff a boundary precedes the digits and 16 digits, or else 15, are followed by a boundary; it takes 16 exactly in the first case |
| Facebook.MatchAt | main.py:594-601 | a match of any of the six patterns captures 15 or 16 digits |
| Facebook.MatchAtCases | main.py:594-601 | for each fixed-prefix pattern, a match at i iff its text is at i and 15 digits follow, capturing the ID there; the last pattern is the bounded ID |
| Facebook.MatchAtFbWatch | main.py:598 | the `fb.watch` pattern matches at i iff its prefix is there and the lazy scan finds an ID after some length of the non-slash run |
| Facebook.SearchFrom | main.py:604 | `re.search` finds the leftmost start at which the pattern matches, and none only when no start matches |
| Facebook.Search | main.py:604 | a search's capture is 15 or 16 digits |
| Facebook.SearchLeftmost | main.py:604 | the capture is the match at the leftmost start where the pattern matches; none iff it matches at no start |
| Facebook.FirstFound | main.py:603-605 | no capture means no pattern's search finds one |
| Facebook.FirstFoundIsFirst | main.py:603-614 | a capture is the search result of the first pattern, in order, whose search finds one |
| Facebook.FixFacebookUrl | main.py:580-619 | the definition the lemmas below are about: the guard, then the first pattern that finds an ID |
| Facebook.FixFacebookUrlFirstPattern | main.py:589-619 | a Facebook URL becomes the canonical link for the ID captured by the first pattern, in order, that finds one; a Facebook URL in which no pattern finds one is unchanged |
| Facebook.FixFacebookUrlShape | main.py:590-619 | the result is the URL itself or the canonical link for an ID occurring in it; only a URL naming `facebook.com` or `fb.watch` changes |
| Facebook.FixFacebookUrlWithoutId | main.py:594-619 | a URL without 15 consecutive digits is never changed |
| Facebook.FixFacebookUrlFindsBareId | main.py:600-614 | a Facebook URL with a word boundary before 16 (or 15) digits and after them is always rewritten to a canonical link |
| Facebook.CanonicalLetters | main.py:607 | the canonical prefix is 34 characters, lower case, without `r`, with its only `?` at 31 |
| Facebook.CanonicalMentionsFacebook | main.py:590 | a canonical link passes the Facebook guard |
| Facebook.CanonicalHasNoReel | main.py:595 | the first pattern never matches a canonical link |
| Facebook.CanonicalWatchMatch | main.py:596 | the second pattern matches a canonical link at its own ID |
| Facebook.FixCanonical | main.py:596-614 | a canonical link is returned unchanged |
| Facebook.FixFacebookUrlIdempotent | main.py:580-619 | repairing twice equals repairing once |
| Options.FormatAlternatives | main.py:555-561 | every format selector has at least three alternatives, the last the catch-all `best` |
| Options.FormatSelector | main.py:553-563 | the definition `FormatSelectorAlternatives` and `FormatSelectorHeightCap` are about: the `format` string of each output format |
| Options.OutTemplate | main.py:541-551 | the definition `OutTemplateFolder` is about: the `outtmpl` of playlist and single mode |
| Options.BuildYdlOpts | main.py:474-578 | `noplaylist` is the negated playlist flag, `playlistend` is `max_downloads` exactly in playlist mode, `format` is the selector for the output format, and `outtmpl` is the mode's template |
| Options.FormatSelectorAlternatives | main.py:555-563 | the `format` option splits on `/` back into its alternatives, the last being `best` |
| Options.FormatSelectorHeightCap | main.py:554-558 | for MP4 and best-video the first alternative is capped at the configured maximum height |
| Options.BuildYdlOptsPostprocessors | main.py:566-576 | audio extraction is configured iff the format is MP3 or best-audio; MP3 uses the configured quality |
| Options.OutTemplateFolder | main.py:541-551 | files go under the download directory, in playlist mode in a folder named after the playlist |
| Options.FallbackFor | main.py:666-718 | each branch's second probe uses that branch's format selector |
| Options.FallbackKindOf | main.py:669-718 | the definition `FallbackKindOrder` is about: which branch of the fallback the URL takes |
| Options.FallbackTriggered | main.py:657-662 | the definition `OnProbeErrorRetries` is about: the lowercased message holds one of the three known texts |
| Options.FallbackOpts | main.py:666-718 | the definition `FallbackFor` and `FallbackKeepsOtherKeys` are about: the copy of the options updated by the URL's branch |
| Options.OnProbeError | main.py:657-724 | the definition `OnProbeErrorRetries` is about: the fallback options when the message is a known one, no retry otherwise |
| Options.FallbackKeepsOtherKeys | main.py:666-718 | the fallback copy differs from the original only in format, extractor arguments, headers and the error policy, which only the generic branch sets |
| Options.FallbackFormatDowngrades | main.py:668-718 | every fallback format is `best`, or asks for at most 720 lines first and ends in `/worst` |
| Options.FallbackKindOrder | main.py:669-718 | Facebook is tested first, then SoundCloud, then YouTube; the generic branch is taken iff none is named |
| Options.OnProbeErrorRetries | main.py:659-724 | the probe is retried iff the lowercased message holds one of the three known texts; otherwise the error is re-raised |
| Precheck.RejectionRules | main.py:771-799 | Instagram rejects on an indicator or no formats; TikTok on `private` or no formats; SoundCloud only on both; Facebook and the rest never reject |
| Precheck.RejectionStatus | main.py:768-799 | the definition `RejectionRules` and `RejectionStatusIsError` are about: the status of the platform's rejection, if any |
| Precheck.SoundCloudRuleWeakest | main.py:775-796 | what the SoundCloud rule rejects, the TikTok and Instagram rules reject too |
| Precheck.RejectionStatusIsError | main.py:777-798 | a rejection status is an error status, and the three are distinct |
| Precheck.EnhancedTitleParts | main.py:747-755 | the search title holds the title and ends with ` - ` and the ID; if the uploader is non-empty and not already in the title, it is the uploader, ` - `, the title and that tail; otherwise it is the title followed directly by the tail |
| Precheck.EnhancedTitle | main.py:745-755 | the definition `EnhancedTitleParts` is about: the uploader (when set and not in the title), the title and the ID, joined by ` - ` |
| Precheck.OutputExt | main.py:760 | `mp3` for MP3 output, otherwise the reported extension or `mp4` |
| Journal.Row | main.py:446-465 | a logged row has as many cells as the header |
| Journal.FromFile | main.py:248-260 | an existing journal is read back as its rows, unchanged |
| Journal.RowIsNotHeader | main.py:446-465 | a row with a download status is never the header |
| Journal.AppendRowsKeepsJournal | main.py:444-465 | appending logged rows keeps the header first and single, and every row of the header's width |
| Journal.StatusesAreStatuses | main.py:812-821 | success, file-not-found and `Ошибка: ` + message are download statuses |
| Journal.ErrorIsNotSuccess | main.py:415 | an error status is never the success status |
| Journal.TagsField | main.py:436 | the definition `TagsFieldPieces` and `TagsFieldEmpty` are about: the first ten tags joined by `, `, or `"Нет тегов"` |
| Journal.TagsFieldPieces | main.py:436 | split at its commas, the tags cell gives back the first min(count, 10) tags in order, each after the first behind one space |
| Journal.TagsFieldCount | main.py:436 | the tags cell lists min(count, 10) tags, separated by commas |
| Journal.TagsFieldEmpty | main.py:436 | when no tag is itself the text `"Нет тегов"`, the tags cell is `"Нет тегов"` iff there are no tags |
| Downloader.Slice | main.py:844 | the definition `SliceKeeps` is about: Python's `entries[:m]` |
| Downloader.SliceKeeps | main.py:844 | `entries[:m]` keeps exactly the positions before m, a negative m counting from the end |
| Downloader.PlaylistJournalGrows | main.py:840-877 | the playlist keeps the earlier rows, appends at most one row per entry tried, and none when every entry is missing |
| Downloader.PlaylistAppendsAtMost | main.py:841-844 | with `max_downloads` ≥ 0 a playlist journals at most `max_downloads` rows |
| Downloader.PlaylistLogsSuccesses | main.py:861-867 | every row a playlist journals is a logged success |
| Downloader.PlaylistKeepsJournal | main.py:844-867 | the playlist keeps the journal well formed, with its header single |
| Downloader.EntryRow | main.py:845-874 | the definition `EntryRowLocated` is about: the row the playlist loop journals for one entry, if any |
| Downloader.PlaylistJournal | main.py:843-874 | the definition `DownloadEntries` is proved against: the rows of the first k entries, in order |
| Downloader.EntryRowSucceeded | main.py:845-867 | an entry gets a row only when it exists, has a page URL, downloads and its file is found; the row carries the entry's 1-based position and the playlist's title |
| Downloader.EntryRowLocated | main.py:845-874 | an entry gets a row iff it exists, has a page URL, downloads without error and its file is found; the row is then the logged success of the renumbered entry at that file |
| Downloader.LocatedCount | main.py:845-874 | at most one located entry per entry tried |
| Downloader.PlaylistJournalCount | main.py:843-874 | a playlist appends exactly as many rows as there are located entries |
| Downloader.DownloadOutcome | main.py:801-822 | the definition `DownloadOutcomeStatus` is about: download error, file not found, or success |
| Downloader.SingleOutcome | main.py:743-822 | the definition `SingleOutcomeStatus` and `RejectionSkipsDownload` are about: the rejection, if any, else the download outcome |
| Downloader.DownloadOutcomeStatus | main.py:801-821 | after the platform check, success iff the status is the success status; the path is the file found, or `.` on failure; the status is a download status |
| Downloader.SingleOutcomeStatus | main.py:743-822 | the same for the whole single-video download, rejections included |
| Downloader.RejectionSkipsDownload | main.py:771-804 | a rejection fails with its status whatever the download would do |
| Downloader.SingleVideoKeepsJournal | main.py:743-822 | the single-video row keeps the journal well formed, with its header single |
| Downloader.Probe | main.py:653-728 | the definition `ProbeFallback` is about: the first probe, and the one retry with the fallback options |
| Downloader.ProbeFallback | main.py:653-728 | the fallback options are used only after a handled error with a known text, and then the result is the second probe's information under them, or nothing when it fails; any other error ends the download; a first success is used as it is |
| Downloader.DownloadConfig.constructor | main.py:169-180 | every field holds the value given |
| Downloader.DownloadConfig.WithDefaults | main.py:169-180 | the dataclass's defaults: MP4, `User`, no playlist, no proxy, `best`, 50 downloads |
| Downloader.VideoDownloader.constructor | main.py:186-198 | the download folder is the one given or the configured one under the working directory; the journal is the existing file or the header alone |
| Downloader.VideoDownloader.LogDownload | main.py:414-472 | exactly one row is appended, built from the information, the configuration, the path and the status, stamped for the journal's length and that path |
| Downloader.VideoDownloader.DownloadSingleVideo | main.py:743-822 | exactly one row is appended, the outcome's path and status; the result is the outcome's |
| Downloader.VideoDownloader.DownloadChecked | main.py:801-822 | download, look for the file, log: one row with the outcome of the download |
| Downloader.VideoDownloader.DownloadEntry | main.py:845-874 | one turn of the playlist loop appends the entry's row, if any, and reports whether it did |
| Downloader.VideoDownloader.DownloadEntries | main.py:843-874 | the loop appends the rows of the entries in order; the count returned is the number of rows appended, which is the number of located entries |
| Downloader.VideoDownloader.DownloadPlaylist | main.py:824-877 | an empty playlist fails and changes nothing; otherwise the playlist name becomes its title, the sliced entries are journalled in order, and the result is whether any row was appended |
| Downloader.VideoDownloader.RepairUrl | main.py:631-633 | `config.url` becomes its Facebook repair; a URL not naming Facebook is unchanged |
| Downloader.VideoDownloader.DownloadProbed | main.py:730-734 | without `entries`, the single-video outcome: its one row appended and its result; with them, the playlist's outcome as `DownloadPlaylist` states it |
| Downloader.VideoDownloader.DownloadVideo | main.py:621-741 | the URL is repaired; a failed probe fails without a row; a single video gets the single-video outcome under the options the probe succeeded with; in both cases the playlist name is unchanged; earlier rows are kept |

## Left out

- yt-dlp (`extract_info`, `download`, the `YoutubeDL` contexts) is not modelled. It is a foreign library, and its results are the `probe` and `download` fields of `Env`.
- Locating the downloaded file (`_find_downloaded_file`, main.py:879-924) is the `locate` field of `Env`. It walks the file system and compares modification times with the clock.
- The record ID (the clock and Python's salted `hash`), the timestamp and the file size (`_get_file_size_mb`) are the `stamp` field of `Env`. They are clock, hash and file-system values.
- Logging (`_setup_logging` and every `logger` call) is not modelled, and neither is the Python version warning (main.py:644-647). They have no effect on the result or the journal.
- `load_config` (YAML reading) is not modelled. It is file and library I/O. `AppConfig` is a datatype, and its defaults are `Options.DefaultAppConfig`.
- `_get_unique_filename` is not modelled: nothing calls it, and it returns nothing.
- `main()`, `check_and_update_dependencies`, install.py and download_video.py are not part of this model. They are console I/O and pip subprocesses.
- CSV quoting is not modelled: a row is its cells as strings, and the file's existence is whether the journal was given.
- Downloader.VideoDownloader.LogDownload: does not return `log_download`'s boolean. It always appends, because a failed write (an I/O error) is not modelled.
- Exceptions inside `_download_single_video` other than the download's are not modelled. The file search and the sanitizer return values.
- Exceptions inside `_download_playlist` outside the per-entry `try` are not modelled.
- Downloader.VideoDownloader.DownloadVideo: for a playlist, states only that the journal keeps its earlier rows and that success means a row was appended. `DownloadProbed` and `DownloadPlaylist` state the full journal.
- A `KeyboardInterrupt` or other exception while probing is an error kind of the probe oracle that ends the download with `False` (main.py:736-741). The interruption itself is not modelled.
- Downloader.VideoDownloader.DownloadSingleVideo, Downloader.VideoDownloader.DownloadEntries and Downloader.VideoDownloader.DownloadVideo: a `KeyboardInterrupt` raised by the download itself is not modelled. It escapes `except Exception` (main.py:819, main.py:872) and makes `download_video` return `False` (main.py:736-741). The single video then gets no row, and a playlist stops at that entry and returns `False` even after earlier successes. The `download` oracle returns only success or an error message, so the model always logs the single video and always goes on with the playlist.
- The mutation of a playlist entry's dictionary (main.py:863-864) is modelled as the updated value recorded in its row. The entry is not read again, so aliasing is not modelled.
- An entry's own `entries` is not modelled; the program never reads it.
- A key that is present with the value `None` is treated like an absent key.
- Python's `\w` is an abstract character class (`WordClass`), fixed on ASCII only.
- `\d` is modelled as the ASCII digits and `str.lower()` as ASCII lowercasing. Their Unicode ranges are not modelled.
- Durations are exact reals: floating-point rounding, infinities and NaN are not modelled.
- `Path` normalisation is not modelled. A joined path is the directory, `/` and the name.
- Extractor arguments whose contents yt-dlp alone interprets are recorded as values, not interpreted.
- The Facebook warning branch (main.py:781-785) only logs, so it is modelled as no rejection.
