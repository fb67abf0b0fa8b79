/**
 * What `VideoDownloader._download_single_video` decides before it
 * downloads: the file title it searches for afterwards, the file extension,
 * and whether the platform's information marks the video as unavailable, in
 * which case a failure with a platform-specific status is journalled instead.
 */
module Precheck {
  import opened Wrappers
  import opened Text
  import opened Sources
  import opened Options
  import opened Media

  const InstagramStatus: string := "Ошибка: требуется авторизация Instagram"
  const TikTokStatus: string := "Ошибка: TikTok видео недоступно"
  const SoundCloudStatus: string := "Ошибка: SoundCloud трек приватный"

  /** One of the texts that mark an Instagram video as needing a login or gone. */
  predicate InstagramIndicator(lowerText: string) {
    Contains(lowerText, "login_required") || Contains(lowerText, "private_account")
    || Contains(lowerText, "user_not_found")
  }

  /** The printed information mentions `private` (in any case). */
  predicate MentionsPrivate(info: InfoDict) {
    Contains(Lower(info.text), "private")
  }

  /** The failure status a platform check assigns, or `None` when the download goes ahead. */
  function RejectionStatus(source: VideoSource, info: InfoDict): Option<string> {
    match source
    case Instagram =>
      if InstagramIndicator(Lower(info.text)) || !info.hasFormats then Some(InstagramStatus) else None
    case TikTok =>
      if MentionsPrivate(info) || !info.hasFormats then Some(TikTokStatus) else None
    case SoundCloud =>
      if MentionsPrivate(info) && !info.hasFormats then Some(SoundCloudStatus) else None
    case _ => None
  }

  /** The title, or its default. */
  function OriginalTitle(info: InfoDict): string {
    info.title.GetOr("Unknown_Video")
  }

  /** The uploader, else the channel, else a default. */
  function Uploader(info: InfoDict): string {
    info.uploader.GetOr(info.channel.GetOr("Unknown_Channel"))
  }

  function VideoId(info: InfoDict): string {
    info.id.GetOr("unknown_id")
  }

  /**
   * The title the downloaded file is looked for by: the uploader is put in
   * front unless it is empty or already part of the title (ignoring case),
   * and the ID is put at the end.
   */
  function EnhancedTitle(info: InfoDict): string {
    var title := OriginalTitle(info);
    var uploader := Uploader(info);
    if uploader != "" && !Contains(Lower(title), Lower(uploader)) then
      uploader + " - " + title + " - " + VideoId(info)
    else
      title + " - " + VideoId(info)
  }

  /** The expected extension: `mp3` for MP3 downloads, else the reported one or `mp4`. */
  function OutputExt(format: OutputFormat, ext: Option<string>): string {
    if format == MP3 then "mp3" else ext.GetOr("mp4")
  }

  // ---------------------------------------------------------------------
  // Properties
  // ---------------------------------------------------------------------

  /**
   * The rules per platform: Instagram is rejected when an indicator appears
   * or formats are missing, TikTok when `private` appears or formats are
   * missing, SoundCloud only when both; every other platform, Facebook
   * included, always goes ahead.
   */
  lemma RejectionRules(source: VideoSource, info: InfoDict)
    ensures source == Instagram ==>
              (RejectionStatus(source, info).Some? <==> InstagramIndicator(Lower(info.text)) || !info.hasFormats)
    ensures source == TikTok ==>
              (RejectionStatus(source, info).Some? <==> MentionsPrivate(info) || !info.hasFormats)
    ensures source == SoundCloud ==>
              (RejectionStatus(source, info).Some? <==> MentionsPrivate(info) && !info.hasFormats)
    ensures source !in {Instagram, TikTok, SoundCloud} ==> RejectionStatus(source, info).None?
    ensures RejectionStatus(Facebook, info).None?
  {
  }

  /** The SoundCloud rule is the most lenient: what it rejects, the TikTok rule rejects too. */
  lemma SoundCloudRuleWeakest(info: InfoDict)
    ensures RejectionStatus(SoundCloud, info).Some? ==> RejectionStatus(TikTok, info).Some?
    ensures RejectionStatus(SoundCloud, info).Some? ==> RejectionStatus(Instagram, info).Some?
  {
  }

  /** A rejection status is an error status, distinct per platform. */
  lemma RejectionStatusIsError(source: VideoSource, info: InfoDict)
    ensures RejectionStatus(source, info).Some? ==>
              OccursAt("Ошибка: ", RejectionStatus(source, info).value, 0)
    ensures InstagramStatus != TikTokStatus && TikTokStatus != SoundCloudStatus
            && InstagramStatus != SoundCloudStatus
  {
  }

  /**
   * The enhanced title always holds the title and ends with " - " and the
   * ID. When the uploader is not empty and not already in the title, the
   * uploader and " - " come first and the title fills the rest; otherwise
   * the title alone comes before the tail.
   */
  lemma EnhancedTitleParts(info: InfoDict)
    ensures var e := EnhancedTitle(info);
            var tail := " - " + VideoId(info);
            |e| >= |tail| && e[|e| - |tail|..] == tail
    ensures Contains(EnhancedTitle(info), OriginalTitle(info))
    ensures Uploader(info) != "" && !Contains(Lower(OriginalTitle(info)), Lower(Uploader(info))) ==>
              OccursAt(Uploader(info) + " - ", EnhancedTitle(info), 0)
    ensures var e := EnhancedTitle(info);
            var tail := " - " + VideoId(info);
            var front := Uploader(info) != "" && !Contains(Lower(OriginalTitle(info)), Lower(Uploader(info)));
            (front ==> |Uploader(info)| + 3 + |tail| <= |e|
                       && e[|Uploader(info)| + 3..|e| - |tail|] == OriginalTitle(info))
            && (!front ==> |tail| <= |e| && e[..|e| - |tail|] == OriginalTitle(info))
  {
    var e := EnhancedTitle(info);
    var title := OriginalTitle(info);
    var uploader := Uploader(info);
    var tail := " - " + VideoId(info);
    if uploader != "" && !Contains(Lower(title), Lower(uploader)) {
      assert e == (uploader + " - ") + title + tail;
      assert OccursAt(title, e, |uploader| + 3);
      assert e[|uploader| + 3..|e| - |tail|] == title;
    } else {
      assert e == title + tail;
      assert OccursAt(title, e, 0);
      assert e[..|e| - |tail|] == title;
    }
    assert e[|e| - |tail|..] == tail;
  }
}
