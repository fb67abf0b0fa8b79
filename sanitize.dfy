/**
 * The file-name sanitizer (`VideoDownloader.sanitize_filename`): a chain of
 * rewrites (tags, characters illegal in file names, characters outside an
 * allowed class, runs of whitespace, surrounding whitespace, trailing dots),
 * then a word-by-word truncation loop and a fixed placeholder for an empty
 * result.
 */
module Sanitize {
  import opened Text

  /** The length limit callers get when they pass none. */
  const DefaultMaxLength: int := 180

  /** What an empty or blank name becomes. */
  const Placeholder: string := "Unknown_Video"

  /** What the truncation starts from when the cleaned name has no words. */
  const NoWords: string := "Video"

  /** The characters `[<>:"/\\|?*]` deletes. */
  const ForbiddenChars: string := "<>:\"/\\|?*"

  /** The punctuation `[^\w\s\-_.()\[\]{}]` keeps besides word characters and whitespace. */
  const ExtraAllowed: string := "-_.()[]{}"

  /** A character that may appear in a sanitized name that is not a placeholder. */
  predicate AllowedChar(c: char, isWord: WordClass) {
    isWord(c) || c == ' ' || c in ExtraAllowed
  }

  // ---------------------------------------------------------------------
  // The rewrites
  // ---------------------------------------------------------------------

  /**
   * The length of the match of `<[^>]+>` at the start of `s`, or 0 when the
   * pattern does not match there: a '<', at least one character other than
   * '>', and the first '>' after them.
   */
  function TagLength(s: string): (n: nat)
    ensures n > 0 ==> 3 <= n <= |s| && s[0] == '<' && s[n - 1] == '>' && '>' !in s[1..n - 1]
    ensures n == 0 && |s| >= 3 && s[0] == '<' && s[1] != '>' ==> '>' !in s[1..]
  {
    if |s| < 3 || s[0] != '<' || s[1] == '>' || '>' !in s[1..] then 0
    else IndexOf(s[1..], '>') + 2
  }

  /** `re.sub(r'<[^>]+>', '', s)`: leftmost matches, scanned left to right, are deleted. */
  function StripTags(s: string): string
    decreases |s|
  {
    if s == [] then []
    else if TagLength(s) > 0 then StripTags(s[TagLength(s)..])
    else [s[0]] + StripTags(s[1..])
  }

  /** Without a `>` there is no tag: every `<` stays, and the text is unchanged. */
  lemma {:induction false} StripTagsWithoutClose(s: string)
    requires '>' !in s
    ensures StripTags(s) == s
    decreases |s|
  {
    if s != [] {
      assert '>' !in s[1..];
      StripTagsWithoutClose(s[1..]);
      assert s == [s[0]] + s[1..];
    }
  }

  /** `re.sub(r'[<>:"/\\|?*]', '', s)`. */
  function RemoveForbidden(s: string): string {
    if s == [] then []
    else if s[0] in ForbiddenChars then RemoveForbidden(s[1..])
    else [s[0]] + RemoveForbidden(s[1..])
  }

  /** The class `[\w\s\-_.()\[\]{}]`. */
  predicate InKeptClass(c: char, isWord: WordClass) {
    isWord(c) || IsSpace(c) || c in ExtraAllowed
  }

  /** `re.sub(r'[^\w\s\-_.()\[\]{}]', '', s)`. */
  function KeepAllowed(s: string, isWord: WordClass): string {
    if s == [] then []
    else if InKeptClass(s[0], isWord) then [s[0]] + KeepAllowed(s[1..], isWord)
    else KeepAllowed(s[1..], isWord)
  }

  /** The number of whitespace characters at the start of `s`. */
  function LeadingSpaces(s: string): (n: nat)
    ensures n <= |s| && (n == |s| || !IsSpace(s[n]))
  {
    if s != [] && IsSpace(s[0]) then 1 + LeadingSpaces(s[1..]) else 0
  }

  /** The number of whitespace characters at the end of `s`. */
  function TrailingSpaces(s: string): (n: nat)
    ensures n <= |s| && (n == |s| || !IsSpace(s[|s| - 1 - n]))
  {
    if s != [] && IsSpace(s[|s| - 1]) then 1 + TrailingSpaces(s[..|s| - 1]) else 0
  }

  /** The number of dots at the end of `s`. */
  function TrailingDots(s: string): (n: nat)
    ensures n <= |s| && (n == |s| || s[|s| - 1 - n] != '.')
  {
    if s != [] && s[|s| - 1] == '.' then 1 + TrailingDots(s[..|s| - 1]) else 0
  }

  /** `s.lstrip()`. */
  function LStrip(s: string): string {
    s[LeadingSpaces(s)..]
  }

  /** `s.rstrip()`. */
  function RStrip(s: string): string {
    s[..|s| - TrailingSpaces(s)]
  }

  /** `s.rstrip('.')`. */
  function RStripDots(s: string): string {
    s[..|s| - TrailingDots(s)]
  }

  /** `re.sub(r'\s+', ' ', s)`: every run of whitespace becomes one space. */
  function CollapseSpaces(s: string): string
    decreases |s|
  {
    if s == [] then []
    else if IsSpace(s[0]) then [' '] + CollapseSpaces(LStrip(s))
    else [s[0]] + CollapseSpaces(s[1..])
  }

  /** `s.strip()`. */
  function Strip(s: string): string {
    RStrip(LStrip(s))
  }

  /** The cleaning steps, before any truncation. */
  function Cleaned(s: string, isWord: WordClass): string {
    RStripDots(Strip(CollapseSpaces(KeepAllowed(RemoveForbidden(StripTags(s)), isWord))))
  }

  // ---------------------------------------------------------------------
  // Words and truncation
  // ---------------------------------------------------------------------

  /** The length of the run of non-whitespace characters at the start of `s`. */
  function WordLength(s: string): (n: nat)
    ensures n <= |s|
    ensures forall i :: 0 <= i < n ==> !IsSpace(s[i])
  {
    if s == [] || IsSpace(s[0]) then 0 else 1 + WordLength(s[1..])
  }

  /** `s.split()`: the maximal runs of non-whitespace characters. */
  function Words(s: string): seq<string>
    decreases |s|
  {
    var t := LStrip(s);
    if t == [] then []
    else
      var n := WordLength(t);
      [t[..n]] + Words(t[n..])
  }

  /** The joined length of the first `k` words. */
  function PrefixLength(words: seq<string>, k: nat): nat
    requires k <= |words|
  {
    |Join(words[..k], " ")|
  }

  /**
   * The number of words the truncation keeps, searched downwards from `k`:
   * the largest count, of at least one word, whose joined length is at most
   * `maxLength`.
   */
  function KeptWords(words: seq<string>, maxLength: int, k: nat): (n: nat)
    requires 1 <= k <= |words|
    ensures 1 <= n <= k
    ensures n == 1 || PrefixLength(words, n) <= maxLength
    ensures forall j :: n < j <= k ==> PrefixLength(words, j) > maxLength
  {
    if k == 1 || PrefixLength(words, k) <= maxLength then k
    else KeptWords(words, maxLength, k - 1)
  }

  /** The truncated name: the first word and as many whole following words as fit. */
  function Truncated(words: seq<string>, maxLength: int): string {
    if words == [] then NoWords
    else Join(words[..KeptWords(words, maxLength, |words|)], " ")
  }

  /** What `sanitize_filename` makes of a name once it is cleaned: truncation, then the fallback. */
  function Finished(cleaned: string, maxLength: int): string {
    var named := if |cleaned| > maxLength then Truncated(Words(cleaned), maxLength) else cleaned;
    if named == [] then Placeholder else named
  }

  /** `sanitize_filename(filename, max_length)`, as a value. */
  function Sanitized(filename: string, maxLength: int, isWord: WordClass): string {
    if Strip(filename) == [] then Placeholder else Finished(Cleaned(filename, isWord), maxLength)
  }

  // ---------------------------------------------------------------------
  // Lemmas for the truncation loop
  // ---------------------------------------------------------------------

  /** Appending a word to the joined prefix. */
  lemma {:induction false} JoinAppend(ws: seq<string>, w: string, sep: string)
    requires |ws| >= 1
    ensures Join(ws + [w], sep) == Join(ws, sep) + sep + w
    decreases |ws|
  {
    if |ws| > 1 {
      assert (ws + [w])[1..] == ws[1..] + [w];
      JoinAppend(ws[1..], w, sep);
    }
  }

  lemma PrefixLengthStep(words: seq<string>, k: nat)
    requires 1 <= k < |words|
    ensures Join(words[..k + 1], " ") == Join(words[..k], " ") + " " + words[k]
    ensures PrefixLength(words, k + 1) == PrefixLength(words, k) + 1 + |words[k]|
  {
    assert words[..k + 1] == words[..k] + [words[k]];
    JoinAppend(words[..k], words[k], " ");
  }

  /** Joined prefixes only grow as words are added. */
  lemma {:induction false} PrefixLengthMonotone(words: seq<string>, k: nat, j: nat)
    requires 1 <= k <= j <= |words|
    ensures PrefixLength(words, k) < PrefixLength(words, j) || k == j
    decreases j - k
  {
    if k < j {
      PrefixLengthStep(words, k);
      PrefixLengthMonotone(words, k + 1, j);
    }
  }

  // ---------------------------------------------------------------------
  // The operation
  // ---------------------------------------------------------------------

  /**
   * The loop of `sanitize_filename` that rebuilds an over-long name: start
   * from the first word and append `" " + word` while the result stays
   * within `maxLength`, stopping at the first word that does not fit.
   */
  method TruncateToWords(words: seq<string>, maxLength: int) returns (result: string)
    ensures result == Truncated(words, maxLength)
  {
    if words == [] {
      return NoWords;
    }
    result := words[0];
    var i := 1;
    assert words[..1] == [words[0]];
    while i < |words|
      invariant 1 <= i <= |words|
      invariant result == Join(words[..i], " ")
      invariant i == 1 || PrefixLength(words, i) <= maxLength
      decreases |words| - i
    {
      PrefixLengthStep(words, i);
      if |result + " " + words[i]| <= maxLength {
        result := result + " " + words[i];
        i := i + 1;
      } else {
        break;
      }
    }
    // Here either every word was taken or word i did not fit.
    forall j | i < j <= |words|
      ensures PrefixLength(words, j) > maxLength
    {
      PrefixLengthStep(words, i);
      PrefixLengthMonotone(words, i + 1, j);
    }
    assert KeptWords(words, maxLength, |words|) == i;
  }

  /** `sanitize_filename`: the rewrites in the source's order, then the truncation. */
  method SanitizeFilename(filename: string, maxLength: int, isWord: WordClass) returns (name: string)
    ensures name == Sanitized(filename, maxLength, isWord)
    ensures name != []
  {
    if Strip(filename) == [] {
      return Placeholder;
    }
    name := StripTags(filename);
    name := RemoveForbidden(name);
    name := KeepAllowed(name, isWord);
    name := CollapseSpaces(name);
    name := Strip(name);
    name := RStripDots(name);
    ghost var cleaned := name;
    assert cleaned == Cleaned(filename, isWord);
    if |name| > maxLength {
      name := TruncateToWords(Words(name), maxLength);
    }
    if name == [] {
      name := Placeholder;
    }
    assert name == Finished(cleaned, maxLength);
  }

  // ---------------------------------------------------------------------
  // What the sanitizer promises
  // ---------------------------------------------------------------------

  predicate AllAllowed(s: string, isWord: WordClass) {
    forall i :: 0 <= i < |s| ==> AllowedChar(s[i], isWord)
  }

  lemma {:induction false} KeepAllowedInClass(s: string, isWord: WordClass)
    ensures forall i :: 0 <= i < |KeepAllowed(s, isWord)| ==> InKeptClass(KeepAllowed(s, isWord)[i], isWord)
    decreases |s|
  {
    if s != [] {
      KeepAllowedInClass(s[1..], isWord);
    }
  }

  lemma {:induction false} CollapseAllowed(s: string, isWord: WordClass)
    requires forall i :: 0 <= i < |s| ==> InKeptClass(s[i], isWord)
    ensures AllAllowed(CollapseSpaces(s), isWord)
    decreases |s|
  {
    if s != [] {
      if IsSpace(s[0]) {
        var rest := LStrip(s);
        assert forall i :: 0 <= i < |rest| ==> rest[i] == s[|s| - |rest| + i];
        CollapseAllowed(rest, isWord);
      } else {
        CollapseAllowed(s[1..], isWord);
      }
    }
  }

  /** Every part of a string keeps the characters' property. */
  lemma SliceAllowed(s: string, lo: nat, hi: nat, isWord: WordClass)
    requires lo <= hi <= |s| && AllAllowed(s, isWord)
    ensures AllAllowed(s[lo..hi], isWord)
  {
    forall i | 0 <= i < hi - lo
      ensures AllowedChar(s[lo..hi][i], isWord)
    {
      assert s[lo..hi][i] == s[lo + i];
    }
  }

  lemma {:induction false} WordsAllowed(s: string, isWord: WordClass)
    requires AllAllowed(s, isWord)
    ensures forall k :: 0 <= k < |Words(s)| ==> AllAllowed(Words(s)[k], isWord)
    decreases |s|
  {
    var t := LStrip(s);
    SliceAllowed(s, |s| - |t|, |s|, isWord);
    if t != [] {
      var n := WordLength(t);
      SliceAllowed(t, n, |t|, isWord);
      SliceAllowed(t, 0, n, isWord);
      WordsAllowed(t[n..], isWord);
      var ws := Words(s);
      assert ws == [t[..n]] + Words(t[n..]);
      forall k | 0 <= k < |ws|
        ensures AllAllowed(ws[k], isWord)
      {
        if k > 0 {
          assert ws[k] == Words(t[n..])[k - 1];
        }
      }
    }
  }

  lemma {:induction false} JoinAllowed(ws: seq<string>, isWord: WordClass)
    requires forall k :: 0 <= k < |ws| ==> AllAllowed(ws[k], isWord)
    ensures AllAllowed(Join(ws, " "), isWord)
    decreases |ws|
  {
    if |ws| > 1 {
      JoinAllowed(ws[1..], isWord);
      var rest := Join(ws[1..], " ");
      var j := ws[0] + " " + rest;
      forall i | 0 <= i < |j|
        ensures AllowedChar(j[i], isWord)
      {
        if i > |ws[0]| {
          assert j[i] == rest[i - |ws[0]| - 1];
        }
      }
    }
  }

  /** Every character of the cleaned name is a word character, a space or allowed punctuation. */
  lemma CleanedAllowed(filename: string, isWord: WordClass)
    ensures AllAllowed(Cleaned(filename, isWord), isWord)
  {
    var kept := KeepAllowed(RemoveForbidden(StripTags(filename)), isWord);
    KeepAllowedInClass(RemoveForbidden(StripTags(filename)), isWord);
    var collapsed := CollapseSpaces(kept);
    CollapseAllowed(kept, isWord);
    var start := LStrip(collapsed);
    SliceAllowed(collapsed, |collapsed| - |start|, |collapsed|, isWord);
    var stripped := RStrip(start);
    SliceAllowed(start, 0, |stripped|, isWord);
    var cleaned := RStripDots(stripped);
    SliceAllowed(stripped, 0, |cleaned|, isWord);
    assert cleaned == Cleaned(filename, isWord);
  }

  /** The two fixed fallback names are made of allowed characters too. */
  lemma FallbacksAllowed(isWord: WordClass)
    ensures AllAllowed(Placeholder, isWord) && AllAllowed(NoWords, isWord)
  {
    forall i | 0 <= i < |Placeholder|
      ensures AllowedChar(Placeholder[i], isWord)
    {
      assert Placeholder[i] < '\U{0080}' && AsciiWord(Placeholder[i]);
    }
    forall i | 0 <= i < |NoWords|
      ensures AllowedChar(NoWords[i], isWord)
    {
      assert NoWords[i] < '\U{0080}' && AsciiWord(NoWords[i]);
    }
  }

  /** Truncation and the fallback keep a name made of allowed characters so. */
  lemma FinishedAllowed(cleaned: string, maxLength: int, isWord: WordClass)
    requires AllAllowed(cleaned, isWord)
    ensures AllAllowed(Finished(cleaned, maxLength), isWord)
  {
    FallbacksAllowed(isWord);
    var words := Words(cleaned);
    if |cleaned| > maxLength && words != [] {
      WordsAllowed(cleaned, isWord);
      var n := KeptWords(words, maxLength, |words|);
      assert forall k :: 0 <= k < n ==> words[..n][k] == words[k];
      JoinAllowed(words[..n], isWord);
    }
  }

  /**
   * A sanitized name consists only of word characters, spaces and the
   * punctuation `-_.()[]{}`.
   */
  lemma SanitizedAllowed(filename: string, maxLength: int, isWord: WordClass)
    ensures AllAllowed(Sanitized(filename, maxLength, isWord), isWord)
  {
    FallbacksAllowed(isWord);
    CleanedAllowed(filename, isWord);
    FinishedAllowed(Cleaned(filename, isWord), maxLength, isWord);
  }

  lemma NoForbiddenWhenAllowed(name: string, isWord: WordClass)
    requires AllAllowed(name, isWord)
    ensures forall i :: 0 <= i < |name| ==> name[i] !in ForbiddenChars
  {
    forall c | c in ForbiddenChars
      ensures !AllowedChar(c, isWord)
    {
      assert c < '\U{0080}' && !AsciiWord(c);
    }
  }

  /** None of `<>:"/\\|?*` ever appears in a sanitized name, and the name is never empty. */
  lemma SanitizedHasNoForbiddenChars(filename: string, maxLength: int, isWord: WordClass)
    ensures Sanitized(filename, maxLength, isWord) != []
    ensures forall i :: 0 <= i < |Sanitized(filename, maxLength, isWord)| ==> Sanitized(filename, maxLength, isWord)[i] !in ForbiddenChars
  {
    SanitizedAllowed(filename, maxLength, isWord);
    NoForbiddenWhenAllowed(Sanitized(filename, maxLength, isWord), isWord);
  }

  /** An empty or whitespace-only name becomes the placeholder. */
  lemma SanitizedBlank(filename: string, maxLength: int, isWord: WordClass)
    requires forall i :: 0 <= i < |filename| ==> IsSpace(filename[i])
    ensures Sanitized(filename, maxLength, isWord) == Placeholder
  {
    assert LStrip(filename) == [] by {
      LStripAllSpace(filename);
    }
  }

  lemma {:induction false} LStripAllSpace(s: string)
    requires forall i :: 0 <= i < |s| ==> IsSpace(s[i])
    ensures LStrip(s) == []
    decreases |s|
  {
    if s != [] {
      LStripAllSpace(s[1..]);
    }
  }

  /**
   * Nothing is truncated while the cleaned name fits: it is returned as it
   * is (or the placeholder when cleaning left nothing and `maxLength` is not
   * negative).
   */
  lemma SanitizedShortName(filename: string, maxLength: int, isWord: WordClass)
    requires Strip(filename) != []
    requires |Cleaned(filename, isWord)| <= maxLength
    ensures var cleaned := Cleaned(filename, isWord);
            Sanitized(filename, maxLength, isWord) == if cleaned == [] then Placeholder else cleaned
  {
  }

  lemma FinishedWithinLimit(cleaned: string, maxLength: int)
    requires cleaned != [] && (|cleaned| <= maxLength || (Words(cleaned) != [] && |Words(cleaned)[0]| <= maxLength))
    ensures |Finished(cleaned, maxLength)| <= maxLength
  {
    if |cleaned| > maxLength {
      var words := Words(cleaned);
      var n := KeptWords(words, maxLength, |words|);
      if n == 1 {
        assert words[..1] == [words[0]];
      }
    }
  }

  /**
   * The length bound holds whenever the cleaned name fits or its first word
   * does.
   */
  lemma SanitizedWithinLimit(filename: string, maxLength: int, isWord: WordClass)
    requires Strip(filename) != []
    requires Cleaned(filename, isWord) != []
    requires |Cleaned(filename, isWord)| <= maxLength
             || (Words(Cleaned(filename, isWord)) != [] && |Words(Cleaned(filename, isWord))[0]| <= maxLength)
    ensures |Sanitized(filename, maxLength, isWord)| <= maxLength
  {
    FinishedWithinLimit(Cleaned(filename, isWord), maxLength);
  }

  lemma FinishedOverlongFirstWord(cleaned: string, maxLength: int)
    requires |cleaned| > maxLength && Words(cleaned) != [] && |Words(cleaned)[0]| > maxLength
    ensures Finished(cleaned, maxLength) == Words(cleaned)[0]
  {
    var words := Words(cleaned);
    var n := KeptWords(words, maxLength, |words|);
    assert words[..1] == [words[0]];
    if n > 1 {
      PrefixLengthMonotone(words, 1, n);
    }
  }

  /**
   * A first word longer than `maxLength` is returned whole: the bound is not
   * enforced on it.
   */
  lemma SanitizedOverlongFirstWord(filename: string, maxLength: int, isWord: WordClass)
    requires Strip(filename) != []
    requires |Cleaned(filename, isWord)| > maxLength && Words(Cleaned(filename, isWord)) != []
    requires |Words(Cleaned(filename, isWord))[0]| > maxLength
    ensures Sanitized(filename, maxLength, isWord) == Words(Cleaned(filename, isWord))[0]
  {
    FinishedOverlongFirstWord(Cleaned(filename, isWord), maxLength);
  }

  /**
   * A tag is deleted together with the text inside it: `<b>` and
   * `<Cool>` vanish, they are not unwrapped.
   */
  lemma StripTagsDeletesTagText(t: string, rest: string)
    requires t != [] && '>' !in t
    ensures StripTags("<" + t + ">" + rest) == StripTags(rest)
  {
    var s := "<" + t + ">" + rest;
    var tail := s[1..];
    assert tail == t + ">" + rest;
    assert tail[|t|] == '>';
    var i := IndexOf(tail, '>');
    assert tail[..|t|] == t;
    assert i == |t|;
    assert TagLength(s) == |t| + 2;
    assert s[|t| + 2..] == rest;
  }
}
