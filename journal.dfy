/**
 * The download journal (`downloads_log.csv`): a header row written when the
 * file is created (`VideoDownloader._setup_directories`) and one row per
 * logged download (`VideoDownloader.log_download`). A line of the journal is
 * either cells as they stand in the file, or a row the program logged,
 * described by the values it was built from; `Written` gives the cells of
 * either. The CSV quoting is not modelled.
 */
module Journal {
  import opened Wrappers
  import opened Text
  import opened Sources
  import opened Duration
  import opened Options
  import opened Media

  const Header: seq<string> := [
    "ID", "Формат", "Время загрузки", "Источник", "URL",
    "Название", "Теги", "Путь к файлу", "Размер файла (MB)",
    "Длительность", "Плейлист", "Позиция в плейлисте",
    "Загрузил", "Автоудаление", "Прокси", "Качество",
    "Заметки", "Статус"
  ]

  /** The status of a successful download, the default of `log_download`. */
  const Succeeded: string := "Успешно"

  /** The status when the downloaded file cannot be found. */
  const NotFoundStatus: string := "Ошибка: файл не найден"

  /** The status of a download that raised the error `message`. */
  function ErrorStatus(message: string): string {
    "Ошибка: " + message
  }

  /** `str(Path(""))`: the path written for every failure. */
  const FailurePath: string := "."

  const UnknownTitle: string := "Неизвестное название"
  const NoTags: string := "Нет тегов"
  const MaxTags: nat := 10

  /**
   * The values `log_download` takes from the clock and the file system: the
   * record ID (built from the time and a salted hash of the URL), the
   * timestamp and the file size as written.
   */
  datatype Stamp = Stamp(recordId: string, time: string, fileSize: string)

  /** The fields of the download configuration that a row records. */
  datatype Request = Request(
    url: string,
    outputFormat: OutputFormat,
    downloadedBy: string,
    playlistName: string,
    proxyUsed: bool,
    notes: string,
    quality: string)

  /** The tags column: at most the first ten tags, comma-separated, or the "no tags" word. */
  function TagsField(tags: Option<seq<string>>): string {
    if tags.None? || tags.value == [] then NoTags
    else
      var ts := tags.value;
      Join(ts[..if |ts| < MaxTags then |ts| else MaxTags], ", ")
  }

  /** The proxy column. */
  function YesNo(b: bool): string {
    if b then "Да" else "Нет"
  }

  /** The playlist-position column: the index, or empty. */
  function IndexField(index: Option<int>): string {
    match index
    case Some(i) => IntToString(i)
    case None => ""
  }

  /** The row `log_download` appends. */
  function Row(info: InfoDict, req: Request, filePath: string, status: string, stamp: Stamp): (row: seq<string>)
    ensures |row| == |Header|
  {
    [ stamp.recordId,
      FormatLabel(req.outputFormat),
      stamp.time,
      Label(GetVideoSource(req.url)),
      req.url,
      info.title.GetOr(UnknownTitle),
      TagsField(info.tags),
      filePath,
      stamp.fileSize,
      FormatDuration(info.duration),
      info.playlistTitle.GetOr(req.playlistName),
      IndexField(info.playlistIndex),
      req.downloadedBy,
      "",
      YesNo(req.proxyUsed),
      req.quality,
      req.notes,
      status ]
  }

  /** A line of the journal. */
  datatype Line =
    | Cells(cells: seq<string>)
    | Logged(info: InfoDict, req: Request, filePath: string, status: string, stamp: Stamp)

  /** The cells a line holds in the file. */
  function Written(line: Line): seq<string> {
    match line
    case Cells(cells) => cells
    case Logged(info, req, filePath, status, stamp) => Row(info, req, filePath, status, stamp)
  }

  /** The lines of a journal file read back: its rows as they stand. */
  function FromFile(rows: seq<seq<string>>): (lines: seq<Line>)
    ensures |lines| == |rows| && forall i :: 0 <= i < |rows| ==> Written(lines[i]) == rows[i]
  {
    seq(|rows|, i requires 0 <= i < |rows| => Cells(rows[i]))
  }

  /** Every status a download can end with. */
  predicate IsStatus(status: string) {
    status == Succeeded || OccursAt("Ошибка: ", status, 0)
  }

  /** A journal as the program writes it: the header first, and then rows of the header's width. */
  predicate WellFormed(journal: seq<Line>) {
    |journal| >= 1 && Written(journal[0]) == Header
    && forall k :: 1 <= k < |journal| ==> |Written(journal[k])| == |Header|
  }

  /** The header is in the journal only as its first row. */
  predicate HeaderOnlyFirst(journal: seq<Line>) {
    forall k :: 1 <= k < |journal| ==> Written(journal[k]) != Header
  }

  // ---------------------------------------------------------------------
  // Properties
  // ---------------------------------------------------------------------

  /** A row carrying a download status is never a second header. */
  lemma RowIsNotHeader(info: InfoDict, req: Request, filePath: string, status: string, stamp: Stamp)
    requires IsStatus(status)
    ensures Row(info, req, filePath, status, stamp) != Header
  {
    var row := Row(info, req, filePath, status, stamp);
    assert row[17] == status;
    assert Header[17] == "Статус";
    if status != Succeeded {
      assert status[0] == 'О';
    }
  }

  /**
   * Appending logged rows with download statuses keeps the journal well
   * formed and its header single.
   */
  lemma AppendRowsKeepsJournal(journal: seq<Line>, extended: seq<Line>)
    requires WellFormed(journal) && HeaderOnlyFirst(journal)
    requires |journal| <= |extended| && extended[..|journal|] == journal
    requires forall i :: |journal| <= i < |extended| ==> extended[i].Logged? && IsStatus(extended[i].status)
    ensures WellFormed(extended) && HeaderOnlyFirst(extended)
  {
    forall i | |journal| <= i < |extended|
      ensures |Written(extended[i])| == |Header| && Written(extended[i]) != Header
    {
      var line := extended[i];
      RowIsNotHeader(line.info, line.req, line.filePath, line.status, line.stamp);
    }
    assert forall i :: 0 <= i < |journal| ==> extended[i] == journal[i];
  }

  /** The statuses the program writes are download statuses. */
  lemma StatusesAreStatuses(message: string)
    ensures IsStatus(Succeeded) && IsStatus(NotFoundStatus) && IsStatus(ErrorStatus(message))
  {
    assert ErrorStatus(message)[..|"Ошибка: "|] == "Ошибка: ";
  }

  /** An error status is never the success status. */
  lemma ErrorIsNotSuccess(status: string)
    requires OccursAt("Ошибка: ", status, 0)
    ensures IsStatus(status) && status != Succeeded
  {
    assert status[0] == 'О' != Succeeded[0];
  }

  /**
   * The tags column lists the first ten tags at most, in order: when no tag
   * holds a comma, it splits on commas into the first tag and then each
   * following kept tag behind a space.
   */
  lemma TagsFieldPieces(tags: seq<string>)
    requires tags != []
    requires forall k :: 0 <= k < |tags| ==> ',' !in tags[k]
    ensures var n := if |tags| < MaxTags then |tags| else MaxTags;
            SplitOn(TagsField(Some(tags)), ',') == [tags[0]] + Behind(" ", tags[1..n])
  {
    var n := if |tags| < MaxTags then |tags| else MaxTags;
    var kept := tags[..n];
    var field := TagsField(Some(tags));
    assert field == Join(kept, ", ");
    assert [','] + " " == ", ";
    assert "" + field == field;
    SplitJoinPieces("", kept, ',', " ");
    assert "" + kept[0] == tags[0];
    assert kept[1..] == tags[1..n];
  }

  /** So the tags column splits on commas into exactly min(count, 10) pieces. */
  lemma TagsFieldCount(tags: seq<string>)
    requires tags != []
    requires forall k :: 0 <= k < |tags| ==> ',' !in tags[k]
    ensures |SplitOn(TagsField(Some(tags)), ',')| == if |tags| < MaxTags then |tags| else MaxTags
  {
    TagsFieldPieces(tags);
  }

  /** The tags column shows the "no tags" word exactly when there are no tags. */
  lemma TagsFieldEmpty(tags: Option<seq<string>>)
    requires tags.Some? ==> forall k :: 0 <= k < |tags.value| ==> tags.value[k] != NoTags
    ensures TagsField(tags) == NoTags <==> tags.None? || tags.value == []
  {
    if tags.Some? && tags.value != [] {
      var ts := tags.value;
      var kept := ts[..if |ts| < MaxTags then |ts| else MaxTags];
      if |kept| == 1 {
        assert TagsField(tags) == ts[0];
      } else {
        assert TagsField(tags) == kept[0] + ", " + Join(kept[1..], ", ");
        JoinHasComma(kept[0], Join(kept[1..], ", "));
      }
    }
  }

  lemma JoinHasComma(a: string, b: string)
    ensures a + ", " + b != NoTags
  {
    var s := a + ", " + b;
    assert s[|a|] == ',';
    assert ',' !in NoTags;
  }
}
