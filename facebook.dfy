/**
 * Facebook link repair (`VideoDownloader._fix_facebook_url`). A URL that
 * mentions Facebook is searched, pattern by pattern, for a 15- or 16-digit
 * video ID; the first pattern that finds one decides the ID, and the URL is
 * replaced by the canonical watch link for it. Any other URL, and a Facebook
 * URL in which no pattern finds an ID, is returned unchanged.
 *
 * The six patterns are searched as Python's `re.search` does: the leftmost
 * start position at which the pattern matches wins, and at that position
 * greedy and lazy repetitions are tried in the order the regular-expression
 * engine backtracks through them.
 */
module Facebook {
  import opened Wrappers
  import opened Text

  /** The canonical link; the ID is appended to it. */
  const Canonical: string := "https://www." + "facebook.com" + "/watch/?v="

  /** The patterns, in the order they are tried. */
  datatype Pattern =
    | Reel        // `/reel/(\d{15,16})`
    | Watch       // `/watch/\?v=(\d{15,16})`
    | Videos      // `/videos/(\d{15,16})`
    | FbWatch     // `fb\.watch/[^/]+.*?(\d{15,16})`
    | VideoIdKey  // `video_id[=:](\d{15,16})`
    | BareNumber  // `\b(\d{15,16})\b`

  const Patterns: seq<Pattern> := [Reel, Watch, Videos, FbWatch, VideoIdKey, BareNumber]

  /** The span of the captured group: `len` characters from `at`. */
  datatype Capture = Capture(at: nat, len: nat)

  /** A capture that is 15 or 16 decimal digits of `s`. */
  predicate ValidCapture(s: string, c: Capture) {
    (c.len == 15 || c.len == 16) && c.at + c.len <= |s| && AllDigits(s[c.at..c.at + c.len])
  }

  /** The captured text. */
  function Captured(s: string, c: Capture): (id: string)
    requires ValidCapture(s, c)
    ensures |id| == c.len && AllDigits(id)
  {
    s[c.at..c.at + c.len]
  }

  // ---------------------------------------------------------------------
  // The pieces of the patterns
  // ---------------------------------------------------------------------

  /** `n` decimal digits start at `p`. */
  predicate DigitRun(s: string, p: nat, n: nat) {
    p + n <= |s| && AllDigits(s[p..p + n])
  }

  /** `\d{15,16}` at `p`: sixteen digits if there are, else fifteen. */
  function IdAt(s: string, p: nat): (r: Option<Capture>)
    ensures r.Some? <==> DigitRun(s, p, 15)
    ensures r.Some? ==> ValidCapture(s, r.value) && r.value.at == p
    ensures r.Some? ==> (r.value.len == 16 <==> DigitRun(s, p, 16))
  {
    if p + 16 <= |s| && AllDigits(s[p..p + 16]) then
      assert s[p..p + 15] == s[p..p + 16][..15];
      Some(Capture(p, 16))
    else if p + 15 <= |s| && AllDigits(s[p..p + 15]) then Some(Capture(p, 15))
    else None
  }

  /** A fixed text at `i` followed by an ID. */
  function IdAfter(literal: string, s: string, i: nat): (r: Option<Capture>)
    ensures r.Some? ==> ValidCapture(s, r.value)
  {
    if OccursAt(literal, s, i) then IdAt(s, i + |literal|) else None
  }

  /** `video_id[=:]` at `i`. */
  predicate VideoIdKeyAt(s: string, i: nat) {
    i + 9 <= |s| && s[i..i + 8] == "video_id" && (s[i + 8] == '=' || s[i + 8] == ':')
  }

  /** The length of the run of characters other than `/` that starts at `j`. */
  function NonSlashRun(s: string, j: nat): (n: nat)
    requires j <= |s|
    ensures j + n <= |s|
    ensures forall t :: j <= t < j + n ==> s[t] != '/'
    ensures j + n == |s| || s[j + n] == '/'
    decreases |s| - j
  {
    if j == |s| || s[j] == '/' then 0 else 1 + NonSlashRun(s, j + 1)
  }

  /**
   * `.*?(\d{15,16})` from `p`: the lazy dot tries the ID at `p`, then one
   * character further, and so on; the dot does not cross a line feed.
   */
  function LazyId(s: string, p: nat): (r: Option<Capture>)
    requires p <= |s|
    ensures r.Some? ==> ValidCapture(s, r.value) && p <= r.value.at && r == IdAt(s, r.value.at)
    ensures r.Some? ==> NoLineFeed(s, p, r.value.at) && forall t :: p <= t < r.value.at ==> IdAt(s, t).None?
    ensures r.None? ==> forall t :: p <= t <= |s| && NoLineFeed(s, p, t) ==> IdAt(s, t).None?
    decreases |s| - p
  {
    if IdAt(s, p).Some? then IdAt(s, p)
    else if p < |s| && s[p] != '\n' then LazyId(s, p + 1)
    else None
  }

  /** No line feed between `p` and `t`: the dot of `.*?` can cover that stretch. */
  predicate NoLineFeed(s: string, p: nat, t: nat) {
    p <= t <= |s| && forall u :: p <= u < t ==> s[u] != '\n'
  }

  /**
   * `[^/]+.*?(\d{15,16})` from `j` when the greedy run has been backed off
   * to `k` characters: the lazy scan starts after `k` characters, and on
   * failure the run gives back one more, down to one.
   */
  function BacktrackRun(s: string, j: nat, k: nat): (r: Option<Capture>)
    requires j + k <= |s|
    ensures r.Some? ==> ValidCapture(s, r.value) && r == IdAt(s, r.value.at)
    ensures r.Some? ==> exists t :: j < t <= j + k && r == LazyId(s, t)
                                    && forall q :: t < q <= j + k ==> LazyId(s, q).None?
    ensures r.None? ==> forall t :: j < t <= j + k ==> LazyId(s, t).None?
    decreases k
  {
    if k == 0 then None
    else
      match LazyId(s, j + k)
      case Some(c) => Some(c)
      case None => BacktrackRun(s, j, k - 1)
  }

  /** `\b`: a word character on exactly one side of position `p`. */
  predicate IsBoundary(s: string, p: nat, isWord: WordClass) {
    (0 < p <= |s| && isWord(s[p - 1])) != (p < |s| && isWord(s[p]))
  }

  /** `\b(\d{15,16})\b` at `p`: sixteen digits if a boundary follows them, else fifteen. */
  function BoundedId(s: string, p: nat, isWord: WordClass): (r: Option<Capture>)
    ensures r.Some? <==> IsBoundary(s, p, isWord)
                         && ((DigitRun(s, p, 16) && IsBoundary(s, p + 16, isWord))
                             || (DigitRun(s, p, 15) && IsBoundary(s, p + 15, isWord)))
    ensures r.Some? ==> ValidCapture(s, r.value) && r.value.at == p
    ensures r.Some? ==> IsBoundary(s, p, isWord) && IsBoundary(s, p + r.value.len, isWord)
    ensures r.Some? ==> (r.value.len == 16 <==> DigitRun(s, p, 16) && IsBoundary(s, p + 16, isWord))
  {
    if !IsBoundary(s, p, isWord) then None
    else if p + 16 <= |s| && AllDigits(s[p..p + 16]) && IsBoundary(s, p + 16, isWord) then
      Some(Capture(p, 16))
    else if p + 15 <= |s| && AllDigits(s[p..p + 15]) && IsBoundary(s, p + 15, isWord) then
      Some(Capture(p, 15))
    else None
  }

  /** The pattern matched with its match starting at `i`. */
  function MatchAt(pattern: Pattern, s: string, i: nat, isWord: WordClass): (r: Option<Capture>)
    requires i <= |s|
    ensures r.Some? ==> ValidCapture(s, r.value)
  {
    match pattern
    case Reel => IdAfter("/reel/", s, i)
    case Watch => IdAfter("/watch/?v=", s, i)
    case Videos => IdAfter("/videos/", s, i)
    case FbWatch =>
      if OccursAt("fb.watch/", s, i) then BacktrackRun(s, i + 9, NonSlashRun(s, i + 9)) else None
    case VideoIdKey => if VideoIdKeyAt(s, i) then IdAt(s, i + 9) else None
    case BareNumber => BoundedId(s, i, isWord)
  }

  /** `re.search`: the leftmost start position, from `i` on, at which the pattern matches. */
  function SearchFrom(pattern: Pattern, s: string, i: nat, isWord: WordClass): (r: Option<nat>)
    requires i <= |s|
    ensures r.Some? ==> i <= r.value <= |s| && MatchAt(pattern, s, r.value, isWord).Some?
    ensures r.Some? ==> forall j :: i <= j < r.value ==> MatchAt(pattern, s, j, isWord).None?
    ensures r.None? ==> forall j :: i <= j <= |s| ==> MatchAt(pattern, s, j, isWord).None?
    decreases |s| - i
  {
    if MatchAt(pattern, s, i, isWord).Some? then Some(i)
    else if i == |s| then None
    else SearchFrom(pattern, s, i + 1, isWord)
  }

  /** The capture of `re.search(pattern, s)`, if any. */
  function Search(pattern: Pattern, s: string, isWord: WordClass): (r: Option<Capture>)
    ensures r.Some? ==> ValidCapture(s, r.value)
  {
    match SearchFrom(pattern, s, 0, isWord)
    case Some(i) => MatchAt(pattern, s, i, isWord)
    case None => None
  }

  /**
   * `re.search` finds the match at the leftmost position where the pattern
   * matches, and finds none exactly when it matches nowhere.
   */
  lemma SearchLeftmost(pattern: Pattern, s: string, isWord: WordClass)
    ensures var r := Search(pattern, s, isWord);
            r.Some? ==> exists i :: 0 <= i <= |s| && r == MatchAt(pattern, s, i, isWord)
                                    && forall j :: 0 <= j < i ==> MatchAt(pattern, s, j, isWord).None?
    ensures Search(pattern, s, isWord).None? <==> forall j :: 0 <= j <= |s| ==> MatchAt(pattern, s, j, isWord).None?
  {
  }

  /** The capture of the first pattern, from index `k` of the list on, that finds one. */
  function FirstFound(patterns: seq<Pattern>, s: string, k: nat, isWord: WordClass): (r: Option<Capture>)
    requires k <= |patterns|
    ensures r.Some? ==> ValidCapture(s, r.value)
    ensures r.None? ==> forall j :: k <= j < |patterns| ==> Search(patterns[j], s, isWord).None?
    decreases |patterns| - k
  {
    if k == |patterns| then None
    else if Search(patterns[k], s, isWord).Some? then Search(patterns[k], s, isWord)
    else FirstFound(patterns, s, k + 1, isWord)
  }

  /** The first pattern from `k` on, in order, that finds an ID decides the capture. */
  predicate FirstFinder(patterns: seq<Pattern>, s: string, k: nat, j: nat, isWord: WordClass) {
    k <= j < |patterns| && Search(patterns[j], s, isWord).Some?
    && forall i :: k <= i < j ==> Search(patterns[i], s, isWord).None?
  }

  /** A capture comes from the first pattern, in order, whose search finds one. */
  lemma {:induction false} FirstFoundIsFirst(patterns: seq<Pattern>, s: string, k: nat, isWord: WordClass)
    requires k <= |patterns|
    ensures var r := FirstFound(patterns, s, k, isWord);
            r.Some? ==> exists j: nat :: FirstFinder(patterns, s, k, j, isWord) && r == Search(patterns[j], s, isWord)
    decreases |patterns| - k
  {
    if k < |patterns| {
      if Search(patterns[k], s, isWord).Some? {
        assert FirstFinder(patterns, s, k, k, isWord);
      } else if FirstFound(patterns, s, k + 1, isWord).Some? {
        FirstFoundIsFirst(patterns, s, k + 1, isWord);
        var j: nat :| FirstFinder(patterns, s, k + 1, j, isWord)
                      && FirstFound(patterns, s, k + 1, isWord) == Search(patterns[j], s, isWord);
        forall i | k <= i < j
          ensures Search(patterns[i], s, isWord).None?
        {
          if i > k {
            assert k + 1 <= i < j;
          }
        }
        assert FirstFinder(patterns, s, k, j, isWord);
      }
    }
  }

  /** The URL mentions Facebook: the guard of the repair. */
  predicate MentionsFacebook(url: string) {
    Contains(Lower(url), "facebook.com") || Contains(Lower(url), "fb.watch")
  }

  /** `_fix_facebook_url(url)`; `isWord` is the `\w` class that `\b` consults. */
  function FixFacebookUrl(url: string, isWord: WordClass): string {
    if !MentionsFacebook(url) then url
    else
      match FirstFound(Patterns, url, 0, isWord)
      case Some(c) => Canonical + Captured(url, c)
      case None => url
  }

  // ---------------------------------------------------------------------
  // Properties
  // ---------------------------------------------------------------------

  /** A canonical link: the watch prefix followed by a 15- or 16-digit ID. */
  predicate IsCanonical(s: string) {
    |s| >= |Canonical| && s[..|Canonical|] == Canonical
    && (|s| - |Canonical| == 15 || |s| - |Canonical| == 16) && AllDigits(s[|Canonical|..])
  }

  /**
   * When each pattern matches at `i`: the fixed texts followed by fifteen
   * digits; for the last pattern, a bounded ID. Every pattern but the last
   * captures the ID that `\d{15,16}` takes there.
   */
  lemma MatchAtCases(pattern: Pattern, s: string, i: nat, isWord: WordClass)
    requires i <= |s|
    ensures var r := MatchAt(pattern, s, i, isWord);
            (pattern == Reel ==> (r.Some? <==> OccursAt("/reel/", s, i) && DigitRun(s, i + 6, 15)))
            && (pattern == Watch ==> (r.Some? <==> OccursAt("/watch/?v=", s, i) && DigitRun(s, i + 10, 15)))
            && (pattern == Videos ==> (r.Some? <==> OccursAt("/videos/", s, i) && DigitRun(s, i + 8, 15)))
            && (pattern == VideoIdKey ==> (r.Some? <==> VideoIdKeyAt(s, i) && DigitRun(s, i + 9, 15)))
            && (pattern == BareNumber ==> r == BoundedId(s, i, isWord))
            && (pattern != BareNumber && r.Some? ==> r == IdAt(s, r.value.at))
  {
  }

  /**
   * `fb\.watch/[^/]+.*?(\d{15,16})` matches at `i` exactly when its prefix
   * is there and the lazy scan finds an ID after some length of the
   * non-slash run.
   */
  lemma MatchAtFbWatch(s: string, i: nat, isWord: WordClass)
    requires i <= |s|
    ensures MatchAt(FbWatch, s, i, isWord).Some? <==>
              OccursAt("fb.watch/", s, i)
              && exists t :: i + 9 < t <= i + 9 + NonSlashRun(s, i + 9) && LazyId(s, t).Some?
  {
    if OccursAt("fb.watch/", s, i) {
      var k := NonSlashRun(s, i + 9);
      var r := BacktrackRun(s, i + 9, k);
      assert MatchAt(FbWatch, s, i, isWord) == r;
      if r.Some? {
        var t :| i + 9 < t <= i + 9 + k && r == LazyId(s, t)
                 && forall q :: t < q <= i + 9 + k ==> LazyId(s, q).None?;
        assert LazyId(s, t).Some?;
      }
    }
  }

  /**
   * The result is either the URL itself or the canonical link for an ID
   * that occurs in the URL; the URL is changed only when it mentions
   * Facebook.
   */
  lemma FixFacebookUrlShape(url: string, isWord: WordClass)
    ensures var r := FixFacebookUrl(url, isWord);
            r == url || (IsCanonical(r) && Contains(url, r[|Canonical|..]))
    ensures FixFacebookUrl(url, isWord) != url ==> MentionsFacebook(url)
  {
    var r := FixFacebookUrl(url, isWord);
    if r != url {
      var c := FirstFound(Patterns, url, 0, isWord).value;
      var id := Captured(url, c);
      assert r == Canonical + id;
      assert r[|Canonical|..] == id;
      assert OccursAt(id, url, c.at);
    }
  }

  /**
   * The first pattern, in the order they are tried, whose search finds an
   * ID decides the link: a Facebook URL becomes the canonical link for the
   * ID that pattern captures, and one in which no pattern finds an ID is
   * left as it is.
   */
  lemma FixFacebookUrlFirstPattern(url: string, isWord: WordClass)
    ensures MentionsFacebook(url) && (forall j :: 0 <= j < |Patterns| ==> Search(Patterns[j], url, isWord).None?)
            ==> FixFacebookUrl(url, isWord) == url
    ensures MentionsFacebook(url) ==>
              forall j: nat :: FirstFinder(Patterns, url, 0, j, isWord) ==>
                FixFacebookUrl(url, isWord) == Canonical + Captured(url, Search(Patterns[j], url, isWord).value)
  {
    if MentionsFacebook(url) {
      FirstFoundIsFirst(Patterns, url, 0, isWord);
      forall j: nat | FirstFinder(Patterns, url, 0, j, isWord)
        ensures FixFacebookUrl(url, isWord) == Canonical + Captured(url, Search(Patterns[j], url, isWord).value)
      {
        var f := FirstFound(Patterns, url, 0, isWord);
        assert f.Some?;
        var j': nat :| FirstFinder(Patterns, url, 0, j', isWord) && f == Search(Patterns[j'], url, isWord);
        assert j' == j;
      }
    }
  }

  /** A URL without fifteen consecutive digits is never changed. */
  lemma FixFacebookUrlWithoutId(url: string, isWord: WordClass)
    requires forall p: nat :: !DigitRun(url, p, 15)
    ensures FixFacebookUrl(url, isWord) == url
  {
    var f := FirstFound(Patterns, url, 0, isWord);
    if f.Some? {
      var c := f.value;
      assert url[c.at..c.at + 15] == url[c.at..c.at + c.len][..15];
      assert DigitRun(url, c.at, 15);
    }
  }

  /**
   * The last pattern catches any ID standing alone between non-word
   * characters: a Facebook URL holding one is always rewritten to a
   * canonical link.
   */
  lemma FixFacebookUrlFindsBareId(url: string, p: nat, isWord: WordClass)
    requires MentionsFacebook(url)
    requires p <= |url| && IsBoundary(url, p, isWord)
    requires (DigitRun(url, p, 16) && IsBoundary(url, p + 16, isWord))
             || (DigitRun(url, p, 15) && IsBoundary(url, p + 15, isWord))
    ensures IsCanonical(FixFacebookUrl(url, isWord))
  {
    assert BoundedId(url, p, isWord).Some?;
    assert MatchAt(BareNumber, url, p, isWord).Some?;
    assert Search(BareNumber, url, isWord).Some?;
    assert Patterns[5] == BareNumber;
    var c := FirstFound(Patterns, url, 0, isWord).value;
    var r := Canonical + Captured(url, c);
    assert r[..|Canonical|] == Canonical;
    assert r[|Canonical|..] == Captured(url, c);
  }

  /** No character of the canonical link is an upper-case letter, an `r` or a `?` other than the one at 31. */
  lemma CanonicalLetters()
    ensures |Canonical| == 34 && Canonical[31] == '?'
    ensures forall k :: 0 <= k < 34 ==> Canonical[k] != 'r' && !('A' <= Canonical[k] <= 'Z')
    ensures forall k :: 0 <= k < 34 && k != 31 ==> Canonical[k] != '?'
  {
  }

  /** A canonical link mentions Facebook. */
  lemma CanonicalMentionsFacebook(id: string)
    requires AllDigits(id)
    ensures MentionsFacebook(Canonical + id)
  {
    var s := Canonical + id;
    CanonicalLetters();
    assert Lower(s) == s;
    assert s[12..24] == "facebook.com";
    assert OccursAt("facebook.com", Lower(s), 12);
  }

  /** A canonical link holds no `/reel/`: it has no `r` at all. */
  lemma CanonicalHasNoReel(id: string, isWord: WordClass)
    requires AllDigits(id)
    ensures Search(Reel, Canonical + id, isWord).None?
  {
    var s := Canonical + id;
    CanonicalLetters();
    forall i | 0 <= i <= |s|
      ensures MatchAt(Reel, s, i, isWord).None?
    {
      if i + 6 <= |s| {
        assert s[i + 1] != 'r' by {
          if i + 1 >= 34 {
            assert s[i + 1] == id[i + 1 - 34];
          }
        }
        assert s[i..i + 6][1] == s[i + 1];
      }
    }
  }

  /** In a canonical link, `/watch/?v=` first occurs at 24, where its `?` sits at 31. */
  lemma CanonicalWatchMatch(id: string, isWord: WordClass)
    requires (|id| == 15 || |id| == 16) && AllDigits(id)
    ensures Search(Watch, Canonical + id, isWord) == Some(Capture(34, |id|))
  {
    var s := Canonical + id;
    CanonicalLetters();
    forall i | 0 <= i < 24
      ensures MatchAt(Watch, s, i, isWord).None?
    {
    }
    assert s[24..34] == "/watch/?v=";
    assert s[34..34 + |id|] == id;
    assert MatchAt(Watch, s, 24, isWord) == Some(Capture(34, |id|));
  }

  /** A canonical link is already fixed: repairing it again gives it back. */
  lemma FixCanonical(id: string, isWord: WordClass)
    requires (|id| == 15 || |id| == 16) && AllDigits(id)
    ensures FixFacebookUrl(Canonical + id, isWord) == Canonical + id
  {
    var s := Canonical + id;
    CanonicalMentionsFacebook(id);
    CanonicalHasNoReel(id, isWord);
    CanonicalWatchMatch(id, isWord);
    assert FirstFound(Patterns, s, 1, isWord) == Some(Capture(34, |id|));
    assert FirstFound(Patterns, s, 0, isWord) == Some(Capture(34, |id|));
    assert Captured(s, Capture(34, |id|)) == id;
  }

  /** Repairing is idempotent. */
  lemma FixFacebookUrlIdempotent(url: string, isWord: WordClass)
    ensures FixFacebookUrl(FixFacebookUrl(url, isWord), isWord) == FixFacebookUrl(url, isWord)
  {
    var r := FixFacebookUrl(url, isWord);
    FixFacebookUrlShape(url, isWord);
    if r != url {
      assert r == Canonical + r[|Canonical|..];
      FixCanonical(r[|Canonical|..], isWord);
    }
  }
}
