/**
 * The source classifier (`VideoDownloader.get_video_source`): a URL is
 * lowercased and compared against an ordered table of host-name fragments;
 * the first row holding a fragment that is a substring of the URL decides
 * the platform, and a URL that no row matches is `Other`.
 */
module Sources {
  import opened Wrappers
  import opened Text

  datatype VideoSource =
    | YouTube | TikTok | Facebook | Instagram | Twitter | VK | Twitch
    | Reddit | SoundCloud | Bandcamp | Vimeo | Dailymotion | Spotify | Other

  /** The enumeration's `.value`, written to the journal's source column. */
  function Label(s: VideoSource): string {
    match s
    case YouTube => "YouTube"
    case TikTok => "TikTok"
    case Facebook => "Facebook"
    case Instagram => "Instagram"
    case Twitter => "Twitter/X"
    case VK => "VK"
    case Twitch => "Twitch"
    case Reddit => "Reddit"
    case SoundCloud => "SoundCloud"
    case Bandcamp => "Bandcamp"
    case Vimeo => "Vimeo"
    case Dailymotion => "Dailymotion"
    case Spotify => "Spotify"
    case Other => "Другое"
  }

  /** One row of the classifier's table: fragments and the platform they name. */
  datatype TableRow = TableRow(fragments: seq<string>, source: VideoSource)

  /** The table, in the order of the source's dictionary literal. */
  const Table: seq<TableRow> := [
    TableRow(["youtube.com", "youtu.be", "youtube-nocookie.com"], YouTube),
    TableRow(["tiktok.com"], TikTok),
    TableRow(["facebook.com", "fb.watch", "fb.com"], Facebook),
    TableRow(["instagram.com", "instagr.am"], Instagram),
    TableRow(["twitter.com", "x.com", "t.co"], Twitter),
    TableRow(["vk.com", "vk.ru"], VK),
    TableRow(["twitch.tv"], Twitch),
    TableRow(["reddit.com", "redd.it"], Reddit),
    TableRow(["soundcloud.com"], SoundCloud),
    TableRow(["bandcamp.com"], Bandcamp),
    TableRow(["vimeo.com"], Vimeo),
    TableRow(["dailymotion.com"], Dailymotion),
    TableRow(["spotify.com", "open.spotify.com"], Spotify)
  ]

  /** Some fragment of `row` is a substring of the (lowercased) URL. */
  predicate RowMatches(row: TableRow, lowerUrl: string) {
    exists f :: f in row.fragments && Contains(lowerUrl, f)
  }

  /** The index of the first row at or after `from` that matches `lowerUrl`. */
  function FirstMatchFrom(table: seq<TableRow>, lowerUrl: string, from: nat): (r: Option<nat>)
    requires from <= |table|
    ensures r.Some? ==> from <= r.value < |table| && RowMatches(table[r.value], lowerUrl)
    ensures r.Some? ==> forall j :: from <= j < r.value ==> !RowMatches(table[j], lowerUrl)
    ensures r.None? ==> forall j :: from <= j < |table| ==> !RowMatches(table[j], lowerUrl)
    decreases |table| - from
  {
    if from == |table| then None
    else if RowMatches(table[from], lowerUrl) then Some(from)
    else FirstMatchFrom(table, lowerUrl, from + 1)
  }

  /** `get_video_source(url)`. */
  function GetVideoSource(url: string): VideoSource {
    match FirstMatchFrom(Table, Lower(url), 0)
    case Some(k) => Table[k].source
    case None => Other
  }

  /** Every row names a different platform, and none of them is `Other`. */
  lemma TableSourcesDistinct()
    ensures forall a, b :: 0 <= a < b < |Table| ==> Table[a].source != Table[b].source
    ensures forall a :: 0 <= a < |Table| ==> Table[a].source != Other
  {
  }

  /**
   * The classifier returns the platform of row `k` exactly when row `k` has a
   * fragment in the lowercased URL and no earlier row has one.
   */
  lemma GetVideoSourceFirstRow(url: string, k: nat)
    requires k < |Table|
    ensures GetVideoSource(url) == Table[k].source <==>
              RowMatches(Table[k], Lower(url)) && forall j :: 0 <= j < k ==> !RowMatches(Table[j], Lower(url))
  {
    var u := Lower(url);
    var r := FirstMatchFrom(Table, u, 0);
    TableSourcesDistinct();
    if GetVideoSource(url) == Table[k].source {
      assert r.Some?;
      var m := r.value;
      assert Table[m].source == Table[k].source;
      assert m == k;
    }
    if RowMatches(Table[k], u) && forall j :: 0 <= j < k ==> !RowMatches(Table[j], u) {
      assert r.Some?;
      var m := r.value;
      assert !(m < k);
      assert m == k;
    }
  }

  /** The classifier returns `Other` exactly when no row has a fragment in the lowercased URL. */
  lemma GetVideoSourceOther(url: string)
    ensures GetVideoSource(url) == Other <==> forall k :: 0 <= k < |Table| ==> !RowMatches(Table[k], Lower(url))
  {
    TableSourcesDistinct();
  }

  /** Lowercasing the URL first changes nothing: the match is case-insensitive. */
  lemma GetVideoSourceIgnoresCase(url: string)
    ensures GetVideoSource(Lower(url)) == GetVideoSource(url)
  {
    LowerIdempotent(url);
  }

  /**
   * "t.co" (the Twitter/X row) is a substring of "reddit.com", and the
   * Twitter/X row comes before the Reddit row: no URL containing
   * "reddit.com" is classified as Reddit. Unless an earlier row matches,
   * such a URL is Twitter/X.
   */
  lemma RedditComIsTwitter(url: string)
    requires Contains(Lower(url), "reddit.com")
    ensures GetVideoSource(url) != Reddit
    ensures (forall j :: 0 <= j < 4 ==> !RowMatches(Table[j], Lower(url))) ==> GetVideoSource(url) == Twitter
  {
    var u := Lower(url);
    assert OccursAt("t.co", "reddit.com", 5);
    ContainsTransitive(u, "reddit.com", "t.co");
    assert "t.co" in Table[4].fragments;
    assert RowMatches(Table[4], u);
    var r := FirstMatchFrom(Table, u, 0);
    assert r.Some? && r.value <= 4;
    assert Table[r.value].source != Reddit;
    GetVideoSourceFirstRow(url, 4);
  }
}
