/**
 * String vocabulary shared by the model: Python's substring test (`a in b`),
 * `str.lower()`, `sep.join(...)`, splitting on a separator character,
 * decimal rendering of integers, and the character classes `\s` and `\w`
 * of Python's `re` module.
 */
module Text {

  // ---------------------------------------------------------------------
  // Character classes
  // ---------------------------------------------------------------------

  predicate IsDigit(c: char) { '0' <= c <= '9' }

  predicate AllDigits(s: string) { forall i :: 0 <= i < |s| ==> IsDigit(s[i]) }

  function DigitValue(c: char): nat
    requires IsDigit(c)
  {
    c as int - '0' as int
  }

  function DigitChar(d: nat): (c: char)
    requires d < 10
    ensures IsDigit(c) && DigitValue(c) == d
  {
    ('0' as int + d) as char
  }

  /**
   * Python's whitespace (`str.isspace()`, which is also what `\s`, `strip()`
   * and `split()` use on `str`): the code points whose bidirectional type is
   * WS, B or S, or whose category is Zs.
   */
  predicate IsSpace(c: char) {
    || '\t' <= c <= '\r'
    || '\U{001C}' <= c <= ' '
    || c == '\U{0085}' || c == '\U{00A0}' || c == '\U{1680}'
    || '\U{2000}' <= c <= '\U{200A}'
    || c == '\U{2028}' || c == '\U{2029}' || c == '\U{202F}' || c == '\U{205F}'
    || c == '\U{3000}'
  }

  /** The ASCII part of `\w`: letters, digits and the underscore. */
  predicate AsciiWord(c: char) {
    'a' <= c <= 'z' || 'A' <= c <= 'Z' || IsDigit(c) || c == '_'
  }

  /**
   * Python's `\w` on `str` patterns is the Unicode class "alphanumeric or
   * underscore". Its non-ASCII part is a large table that the model does not
   * reproduce: a `WordClass` is any character predicate that agrees with
   * `\w` on ASCII, and every property below is proved for all of them.
   */
  type WordClass = f: char -> bool | forall c: char :: c < '\U{0080}' ==> f(c) == AsciiWord(c)
    witness AsciiWord

  // ---------------------------------------------------------------------
  // Substrings and case
  // ---------------------------------------------------------------------

  /** `needle` occurs in `hay` starting at index `i`. */
  predicate OccursAt(needle: string, hay: string, i: nat) {
    i + |needle| <= |hay| && hay[i..i + |needle|] == needle
  }

  /** Python's `needle in hay` on strings. */
  predicate Contains(hay: string, needle: string) {
    exists i: nat :: i <= |hay| && OccursAt(needle, hay, i)
  }

  /** A substring of a substring is a substring. */
  lemma ContainsTransitive(outer: string, middle: string, inner: string)
    requires Contains(outer, middle) && Contains(middle, inner)
    ensures Contains(outer, inner)
  {
    var i: nat :| i <= |outer| && OccursAt(middle, outer, i);
    var j: nat :| j <= |middle| && OccursAt(inner, middle, j);
    forall k | 0 <= k < |inner|
      ensures outer[i + j + k] == inner[k]
    {
      assert outer[i + j + k] == outer[i..i + |middle|][j + k];
      assert middle[j + k] == middle[j..j + |inner|][k];
    }
    assert outer[i + j..i + j + |inner|] == inner;
    assert OccursAt(inner, outer, i + j);
  }

  /** A string occurring at `i` in `s` occurs at `i + |p|` in `p + s`. */
  lemma ContainsAfterPrefix(p: string, s: string, needle: string)
    requires Contains(s, needle)
    ensures Contains(p + s, needle)
  {
    var i: nat :| i <= |s| && OccursAt(needle, s, i);
    assert (p + s)[|p| + i..|p| + i + |needle|] == s[i..i + |needle|];
    assert OccursAt(needle, p + s, |p| + i);
  }

  /** `str.lower()` on the ASCII letters; every other character is kept. */
  function LowerChar(c: char): char {
    if 'A' <= c <= 'Z' then (c as int + 32) as char else c
  }

  function Lower(s: string): string {
    seq(|s|, i requires 0 <= i < |s| => LowerChar(s[i]))
  }

  lemma LowerIdempotent(s: string)
    ensures Lower(Lower(s)) == Lower(s)
  {
  }

  // ---------------------------------------------------------------------
  // Joining and splitting
  // ---------------------------------------------------------------------

  /** Python's `sep.join(parts)`. */
  function Join(parts: seq<string>, sep: string): string
    decreases |parts|
  {
    if |parts| == 0 then ""
    else if |parts| == 1 then parts[0]
    else parts[0] + sep + Join(parts[1..], sep)
  }

  function IndexOf(s: string, c: char): (i: nat)
    requires c in s
    ensures i < |s| && s[i] == c && c !in s[..i]
  {
    if s[0] == c then 0 else 1 + IndexOf(s[1..], c)
  }

  /** Python's `s.split(sep)` for a one-character separator. */
  function SplitOn(s: string, sep: char): (parts: seq<string>)
    ensures |parts| >= 1
    decreases |s|
  {
    if sep !in s then [s]
    else
      var i := IndexOf(s, sep);
      [s[..i]] + SplitOn(s[i + 1..], sep)
  }

  /** Splitting what `Join` produced gives the parts back, provided no part holds the separator. */
  lemma {:induction false} SplitJoin(parts: seq<string>, sep: char)
    requires |parts| >= 1
    requires forall k :: 0 <= k < |parts| ==> sep !in parts[k]
    ensures SplitOn(Join(parts, [sep]), sep) == parts
    decreases |parts|
  {
    if |parts| > 1 {
      var rest := Join(parts[1..], [sep]);
      var s := parts[0] + [sep] + rest;
      assert Join(parts, [sep]) == s;
      assert s[|parts[0]|] == sep;
      assert sep in s;
      var i := IndexOf(s, sep);
      assert s[..|parts[0]|] == parts[0];
      assert i == |parts[0]|;
      assert s[i + 1..] == rest;
      SplitJoin(parts[1..], sep);
      assert SplitOn(s, sep) == [parts[0]] + parts[1..];
    }
  }

  /** Each part behind `gap`. */
  function Behind(gap: string, parts: seq<string>): (r: seq<string>)
    ensures |r| == |parts|
  {
    seq(|parts|, i requires 0 <= i < |parts| => gap + parts[i])
  }

  /**
   * Splitting on the first character of a longer separator gives the joined
   * parts back, each but the first behind the rest of the separator,
   * provided neither the parts, the rest of the separator nor the text
   * before the first part holds that character.
   */
  lemma {:induction false} SplitJoinPieces(prefix: string, parts: seq<string>, sep: char, gap: string)
    requires |parts| >= 1
    requires sep !in prefix && sep !in gap
    requires forall k :: 0 <= k < |parts| ==> sep !in parts[k]
    ensures SplitOn(prefix + Join(parts, [sep] + gap), sep) == [prefix + parts[0]] + Behind(gap, parts[1..])
    decreases |parts|
  {
    var s := prefix + Join(parts, [sep] + gap);
    if |parts| == 1 {
      assert s == prefix + parts[0];
      assert sep !in s;
    } else {
      var rest := Join(parts[1..], [sep] + gap);
      var head := prefix + parts[0];
      assert s == head + [sep] + (gap + rest);
      SplitAtFirst(head, sep, gap + rest);
      SplitJoinPieces(gap, parts[1..], sep, gap);
      BehindCons(gap, parts[1..]);
      assert parts[1..][1..] == parts[2..];
    }
  }

  /** Splitting at the first separator. */
  lemma SplitAtFirst(head: string, sep: char, tail: string)
    requires sep !in head
    ensures SplitOn(head + [sep] + tail, sep) == [head] + SplitOn(tail, sep)
  {
    var s := head + [sep] + tail;
    assert s[|head|] == sep;
    assert s[..|head|] == head;
    assert IndexOf(s, sep) == |head|;
    assert s[|head| + 1..] == tail;
  }

  lemma BehindCons(gap: string, parts: seq<string>)
    requires |parts| >= 1
    ensures Behind(gap, parts) == [gap + parts[0]] + Behind(gap, parts[1..])
  {
  }

  // ---------------------------------------------------------------------
  // Decimal numbers
  // ---------------------------------------------------------------------

  /** Python's `str(n)` for a natural number. */
  function NatToString(n: nat): (s: string)
    ensures |s| >= 1 && AllDigits(s)
  {
    if n < 10 then [DigitChar(n)] else NatToString(n / 10) + [DigitChar(n % 10)]
  }

  /** Python's `str(i)` for any integer. */
  function IntToString(i: int): string {
    if i < 0 then "-" + NatToString(-i) else NatToString(i)
  }

  /** Python's `int(s)` on a string of decimal digits. */
  function ParseNat(s: string): nat
    requires AllDigits(s)
  {
    if |s| == 0 then 0 else ParseNat(s[..|s| - 1]) * 10 + DigitValue(s[|s| - 1])
  }

  lemma {:induction false} ParseNatToString(n: nat)
    ensures ParseNat(NatToString(n)) == n
  {
    if n >= 10 {
      var s := NatToString(n);
      assert s[..|s| - 1] == NatToString(n / 10);
      ParseNatToString(n / 10);
    }
  }

  /** A leading zero does not change the value of a decimal string. */
  lemma {:induction false} ParseNatLeadingZero(s: string)
    requires AllDigits(s)
    ensures AllDigits("0" + s) && ParseNat("0" + s) == ParseNat(s)
    decreases |s|
  {
    if |s| > 0 {
      var t := "0" + s;
      assert t[..|t| - 1] == "0" + s[..|s| - 1];
      ParseNatLeadingZero(s[..|s| - 1]);
    }
  }
}
