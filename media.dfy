/**
 * The information dictionary the extractor returns for a URL, reduced to
 * the keys the program reads. A key that is absent is `None`.
 */
module Media {
  import opened Wrappers

  datatype InfoDict = InfoDict(
    title: Option<string>,
    uploader: Option<string>,
    channel: Option<string>,
    id: Option<string>,
    ext: Option<string>,
    duration: Option<real>,
    tags: Option<seq<string>>,
    /** `info_dict.get('formats')` is truthy: some format is listed. */
    hasFormats: bool,
    /** `str(info_dict)`, the dictionary's printed form. */
    text: string,
    playlistTitle: Option<string>,
    playlistIndex: Option<int>,
    webpageUrl: Option<string>)

  /**
   * What probing a URL returns: the keys above, and the `entries` of a
   * playlist, `None` when the key is absent (a single video). The program
   * never reads an entry's own entries, so an entry is an `InfoDict`.
   */
  datatype Extraction = Extraction(info: InfoDict, entries: Option<seq<Option<InfoDict>>>)
}
