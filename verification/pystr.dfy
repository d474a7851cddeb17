/**
  The few Python `str` operations the loop controller relies on: `strip()`, `split()` with no
  separator, `" ".join(...)`, `startswith`, the `in` substring test and `str(int)`.
  Strings are sequences of Unicode code points, as in Python 3.
 */
module PyStr {

  /** The characters for which Python's `str.isspace()` holds. */
  const Whitespace: set<char> := {
    ' ', '\t', '\n', '\r', '\U{0B}', '\U{0C}', '\U{1C}', '\U{1D}', '\U{1E}', '\U{1F}',
    '\U{85}', '\U{A0}', '\U{1680}',
    '\U{2000}', '\U{2001}', '\U{2002}', '\U{2003}', '\U{2004}', '\U{2005}', '\U{2006}',
    '\U{2007}', '\U{2008}', '\U{2009}', '\U{200A}',
    '\U{2028}', '\U{2029}', '\U{202F}', '\U{205F}', '\U{3000}'
  }

  /** Python's `str.isspace()` for one character. */
  predicate IsSpace(c: char) {
    c in Whitespace
  }

  predicate AllSpace(s: string) {
    forall i :: 0 <= i < |s| ==> IsSpace(s[i])
  }

  /** A word of `split()`: non-empty and free of whitespace. */
  predicate IsWord(w: string) {
    w != [] && forall i :: 0 <= i < |w| ==> !IsSpace(w[i])
  }

  predicate StartsWith(s: string, prefix: string) {
    |prefix| <= |s| && s[..|prefix|] == prefix
  }

  predicate EndsWith(s: string, suffix: string) {
    |suffix| <= |s| && s[|s| - |suffix|..] == suffix
  }

  /** Python's `needle in s`. */
  predicate OccursAt(s: string, needle: string, i: int) {
    0 <= i && i + |needle| <= |s| && s[i..i + |needle|] == needle
  }

  predicate Contains(s: string, needle: string)
    decreases |s|
  {
    StartsWith(s, needle) || (|needle| < |s| && Contains(s[1..], needle))
  }

  /** `needle in s` holds exactly when `needle` occurs at some position of `s`. */
  lemma {:induction false} ContainsAt(s: string, needle: string)
    ensures Contains(s, needle) <==> exists i :: OccursAt(s, needle, i)
    decreases |s|
  {
    if StartsWith(s, needle) {
      assert OccursAt(s, needle, 0);
    } else if |needle| < |s| {
      ContainsAt(s[1..], needle);
      if exists i :: OccursAt(s, needle, i) {
        var i :| OccursAt(s, needle, i);
        assert i != 0;
        assert OccursAt(s[1..], needle, i - 1) by {
          assert s[1..][i - 1..i - 1 + |needle|] == s[i..i + |needle|];
        }
      }
      if Contains(s[1..], needle) {
        var j :| OccursAt(s[1..], needle, j);
        assert OccursAt(s, needle, j + 1) by {
          assert s[j + 1..j + 1 + |needle|] == s[1..][j..j + |needle|];
        }
      }
    }
  }

  /** A needle occurs in any text it is embedded in, whatever surrounds it. */
  lemma ContainsInfix(before: string, needle: string, after: string)
    ensures Contains(before + needle + after, needle)
  {
    var s := before + needle + after;
    assert OccursAt(s, needle, |before|);
    ContainsAt(s, needle);
  }

  /** A needle whose first character never appears in `s` does not occur in `s`. */
  lemma {:induction false} NotContainsFirstChar(s: string, needle: string)
    requires needle != []
    requires forall i :: 0 <= i < |s| ==> s[i] != needle[0]
    ensures !Contains(s, needle)
    decreases |s|
  {
    if |needle| <= |s| {
      assert s[..|needle|][0] == s[0];
    }
    if |needle| < |s| {
      NotContainsFirstChar(s[1..], needle);
    }
  }

  /** Nothing but the empty string occurs in the empty string. */
  lemma ContainsEmpty(needle: string)
    ensures Contains("", needle) <==> needle == ""
  {
  }

  /** The number of whitespace characters `s` starts with. */
  function LeadingSpace(s: string): (n: nat)
    ensures n <= |s|
    decreases |s|
  {
    if s != [] && IsSpace(s[0]) then 1 + LeadingSpace(s[1..]) else 0
  }

  /** `LeadingSpace` counts whitespace only, and stops at the first character that is not. */
  lemma {:induction false} LeadingSpaceSpec(s: string)
    ensures forall i :: 0 <= i < LeadingSpace(s) ==> IsSpace(s[i])
    ensures LeadingSpace(s) < |s| ==> !IsSpace(s[LeadingSpace(s)])
    decreases |s|
  {
    if s != [] && IsSpace(s[0]) {
      LeadingSpaceSpec(s[1..]);
      forall i | 1 <= i < LeadingSpace(s)
        ensures IsSpace(s[i])
      {
        assert s[i] == s[1..][i - 1];
      }
    }
  }

  /** The length of `s` without its trailing whitespace. */
  function ContentEnd(s: string): (n: nat)
    ensures n <= |s|
    decreases |s|
  {
    if s != [] && IsSpace(s[|s| - 1]) then ContentEnd(s[..|s| - 1]) else |s|
  }

  /** Everything from `ContentEnd` on is whitespace, and the character before it is not. */
  lemma {:induction false} ContentEndSpec(s: string)
    ensures forall i :: ContentEnd(s) <= i < |s| ==> IsSpace(s[i])
    ensures ContentEnd(s) > 0 ==> !IsSpace(s[ContentEnd(s) - 1])
    decreases |s|
  {
    if s != [] && IsSpace(s[|s| - 1]) {
      var p := s[..|s| - 1];
      ContentEndSpec(p);
      forall i | ContentEnd(s) <= i < |s| - 1
        ensures IsSpace(s[i])
      {
        assert s[i] == p[i];
      }
      if ContentEnd(s) > 0 {
        assert s[ContentEnd(s) - 1] == p[ContentEnd(s) - 1];
      }
    }
  }

  /** Python's `str.lstrip()`. */
  function LStrip(s: string): string {
    s[LeadingSpace(s)..]
  }

  /** `lstrip()` leaves a text that does not start with whitespace, and is empty only for all-whitespace text. */
  lemma LStripSpec(s: string)
    ensures LStrip(s) != [] ==> !IsSpace(LStrip(s)[0])
    ensures LStrip(s) == [] <==> AllSpace(s)
  {
    LeadingSpaceSpec(s);
    if LStrip(s) != [] {
      assert LStrip(s)[0] == s[LeadingSpace(s)];
    }
  }

  /** Python's `str.strip()`. */
  function Strip(s: string): string {
    var t := LStrip(s);
    t[..ContentEnd(t)]
  }

  /** Neither end of what `strip()` returns is whitespace, and nothing but whitespace strips to "". */
  lemma StripSpec(s: string)
    ensures Strip(s) != [] ==> !IsSpace(Strip(s)[0]) && !IsSpace(Strip(s)[|Strip(s)| - 1])
    ensures Strip(s) == [] <==> AllSpace(s)
  {
    var t := LStrip(s);
    LStripSpec(s);
    ContentEndSpec(t);
    var e := ContentEnd(t);
    if e > 0 {
      assert Strip(s)[0] == t[0] && Strip(s)[e - 1] == t[e - 1];
    }
  }

  /** `strip()` keeps a contiguous part of the text: what follows its leading whitespace. */
  lemma StripIsInfix(s: string)
    ensures var k := LeadingSpace(s); var r := Strip(s);
            k + |r| <= |s| && s[k..k + |r|] == r
  {
    var k := LeadingSpace(s);
    var t := LStrip(s);
    var e := ContentEnd(t);
    assert t == s[k..] && Strip(s) == t[..e];
    assert t[..e] == s[k..k + e];
  }

  /** `strip()` removes only whitespace, and only at the two ends. */
  lemma StripRemovesSpace(s: string)
    ensures var k := LeadingSpace(s); var r := Strip(s);
            k + |r| <= |s| && AllSpace(s[..k]) && AllSpace(s[k + |r|..])
  {
    var k := LeadingSpace(s);
    var t := LStrip(s);
    var e := ContentEnd(t);
    assert |Strip(s)| == e;
    assert s[k + e..] == t[e..];
    LeadingAllSpace(s);
    TrailingAllSpace(t);
  }

  lemma LeadingAllSpace(s: string)
    ensures AllSpace(s[..LeadingSpace(s)])
  {
    LeadingSpaceSpec(s);
    forall i | 0 <= i < LeadingSpace(s)
      ensures IsSpace(s[..LeadingSpace(s)][i])
    {
      assert s[..LeadingSpace(s)][i] == s[i];
    }
  }

  lemma TrailingAllSpace(t: string)
    ensures AllSpace(t[ContentEnd(t)..])
  {
    ContentEndSpec(t);
    var e := ContentEnd(t);
    forall i | 0 <= i < |t[e..]|
      ensures IsSpace(t[e..][i])
    {
      assert t[e..][i] == t[e + i];
    }
  }

  /** A text that neither starts nor ends with whitespace is its own `strip()`. */
  lemma StripUnpadded(s: string)
    requires s != [] && !IsSpace(s[0]) && !IsSpace(s[|s| - 1])
    ensures Strip(s) == s
  {
    assert LeadingSpace(s) == 0;
    assert ContentEnd(s) == |s|;
  }

  /** The longest whitespace-free prefix of `s`. */
  function TakeWord(s: string): (w: string)
    ensures |w| <= |s|
    decreases |s|
  {
    if s != [] && !IsSpace(s[0]) then [s[0]] + TakeWord(s[1..]) else []
  }

  /** `TakeWord` returns a prefix free of whitespace, cut at the first whitespace character. */
  lemma {:induction false} TakeWordSpec(s: string)
    ensures TakeWord(s) == s[..|TakeWord(s)|]
    ensures forall i :: 0 <= i < |TakeWord(s)| ==> !IsSpace(TakeWord(s)[i])
    ensures |TakeWord(s)| < |s| ==> IsSpace(s[|TakeWord(s)|])
    decreases |s|
  {
    if s != [] && !IsSpace(s[0]) {
      var w := TakeWord(s[1..]);
      TakeWordSpec(s[1..]);
      assert TakeWord(s) == [s[0]] + w;
      assert s[..1 + |w|] == [s[0]] + s[1..][..|w|];
      forall i | 1 <= i < 1 + |w|
        ensures !IsSpace(TakeWord(s)[i])
      {
        assert TakeWord(s)[i] == w[i - 1];
      }
      if 1 + |w| < |s| {
        assert s[1 + |w|] == s[1..][|w|];
      }
    }
  }

  /** Python's `str.split()` with no separator: the maximal runs of non-whitespace, in order. */
  function Split(s: string): seq<string>
    decreases |s|
  {
    var t := LStrip(s);
    if t == [] then [] else
      LStripSpec(s);
      var w := TakeWord(t);
      [w] + Split(t[|w|..])
  }

  /** `split()` yields non-empty, whitespace-free words, and yields none exactly for all-whitespace text. */
  lemma SplitSpec(s: string)
    ensures forall k :: 0 <= k < |Split(s)| ==> IsWord(Split(s)[k])
    ensures Split(s) == [] <==> AllSpace(s)
  {
    SplitWords(s);
    LStripSpec(s);
  }

  /** Every word of `split()` is a word. */
  lemma {:induction false} SplitWords(s: string)
    ensures forall k :: 0 <= k < |Split(s)| ==> IsWord(Split(s)[k])
    decreases |s|
  {
    var t := LStrip(s);
    if t != [] {
      var w := TakeWord(t);
      SplitCons(s);
      SplitWords(t[|w|..]);
      WordsCons(w, Split(t[|w|..]));
    }
  }

  /** Past leading whitespace, `split()` yields the first word and then splits what follows it. */
  lemma SplitCons(s: string)
    requires LStrip(s) != []
    ensures var t := LStrip(s); var w := TakeWord(t);
            IsWord(w) && |t[|w|..]| < |s| && Split(s) == [w] + Split(t[|w|..])
  {
    var t := LStrip(s);
    LStripSpec(s);
    TakeWordSpec(t);
  }

  lemma WordsCons(w: string, words: seq<string>)
    requires IsWord(w) && forall k :: 0 <= k < |words| ==> IsWord(words[k])
    ensures forall k :: 0 <= k < |[w] + words| ==> IsWord(([w] + words)[k])
  {
    forall k | 1 <= k < |[w] + words|
      ensures IsWord(([w] + words)[k])
    {
      assert ([w] + words)[k] == words[k - 1];
    }
  }

  /** Python's `sep.join(words)`. */
  function Join(words: seq<string>, sep: string): string
  {
    if words == [] then ""
    else if |words| == 1 then words[0]
    else words[0] + sep + Join(words[1..], sep)
  }

  /** A text that contains a word-bearing needle has at least one `split()` word. */
  lemma ContainsWordSplits(s: string, needle: string)
    requires Contains(s, needle)
    requires !AllSpace(needle)
    ensures Split(s) != []
  {
    ContainsAt(s, needle);
    SplitSpec(s);
    var i :| OccursAt(s, needle, i);
    var j :| 0 <= j < |needle| && !IsSpace(needle[j]);
    assert s[i + j] == needle[j];
  }

  lemma LStripOfWordStart(s: string)
    requires s != [] && !IsSpace(s[0])
    ensures LStrip(s) == s
  {
  }

  lemma LStripSpace(c: char, s: string)
    requires IsSpace(c)
    ensures LStrip([c] + s) == LStrip(s)
  {
    assert ([c] + s)[1..] == s;
    assert ([c] + s)[1 + LeadingSpace(s)..] == s[LeadingSpace(s)..];
  }

  lemma {:induction false} TakeWordBeforeSpace(w: string, c: char, rest: string)
    requires forall i :: 0 <= i < |w| ==> !IsSpace(w[i])
    requires IsSpace(c)
    ensures TakeWord(w + [c] + rest) == w
    decreases |w|
  {
    if w == [] {
      assert (w + [c] + rest)[0] == c;
    } else {
      assert (w + [c] + rest)[1..] == w[1..] + [c] + rest;
      TakeWordBeforeSpace(w[1..], c, rest);
    }
  }

  lemma {:induction false} TakeWordWhole(w: string)
    requires forall i :: 0 <= i < |w| ==> !IsSpace(w[i])
    ensures TakeWord(w) == w
    decreases |w|
  {
    if w != [] {
      TakeWordWhole(w[1..]);
    }
  }

  /**
    A word followed by any whitespace character (a space, a tab, a newline, ...) is the first
    word of `split()`, and the rest splits as before: words are never glued across whitespace.
   */
  lemma SplitWordThen(w: string, c: char, rest: string)
    requires IsWord(w) && IsSpace(c)
    ensures Split(w + [c] + rest) == [w] + Split(rest)
  {
    var s := w + [c] + rest;
    assert s[0] == w[0];
    LStripOfWordStart(s);
    TakeWordBeforeSpace(w, c, rest);
    assert s[|w|..] == [c] + rest;
    SplitSpace(c, rest);
  }

  /** A leading whitespace character of any kind does not change `split()`: runs of whitespace separate like one. */
  lemma SplitSpace(c: char, s: string)
    requires IsSpace(c)
    ensures Split([c] + s) == Split(s)
  {
    LStripSpace(c, s);
  }

  /** A single word splits to itself. */
  lemma SplitWord(w: string)
    requires IsWord(w)
    ensures Split(w) == [w]
  {
    assert LeadingSpace(w) == 0 by { assert !IsSpace(w[0]); }
    assert LStrip(w) == w;
    TakeWordWhole(w);
    assert w[|w|..] == "";
  }

  /** `split()` undoes `" ".join(...)` on words: rejoining words by single spaces loses nothing. */
  lemma {:induction false} SplitJoin(words: seq<string>)
    requires forall k :: 0 <= k < |words| ==> IsWord(words[k])
    ensures Split(Join(words, " ")) == words
    decreases |words|
  {
    if |words| == 1 {
      SplitWord(words[0]);
    } else if |words| > 1 {
      WordsTail(words);
      SplitJoin(words[1..]);
      SplitJoinStep(words);
    }
  }

  lemma SplitJoinStep(words: seq<string>)
    requires |words| > 1 && IsWord(words[0]) && Split(Join(words[1..], " ")) == words[1..]
    ensures Split(Join(words, " ")) == words
  {
    var tail := words[1..];
    JoinCons(words, " ");
    SplitConsJoin(words[0], Join(tail, " "), tail);
    assert [words[0]] + tail == words;
  }

  lemma WordsTail(words: seq<string>)
    requires words != [] && forall k :: 0 <= k < |words| ==> IsWord(words[k])
    ensures IsWord(words[0]) && forall k :: 0 <= k < |words[1..]| ==> IsWord(words[1..][k])
  {
  }

  lemma JoinCons(words: seq<string>, sep: string)
    requires |words| > 1
    ensures Join(words, sep) == words[0] + sep + Join(words[1..], sep)
  {
  }

  lemma SplitConsJoin(w: string, rest: string, tail: seq<string>)
    requires IsWord(w) && Split(rest) == tail
    ensures Split(w + " " + rest) == [w] + tail
  {
    SplitWordThen(w, ' ', rest);
  }

  /** The decimal digit for `d`. */
  function DigitChar(d: nat): (c: char)
    requires d < 10
    ensures '0' <= c <= '9' && c as int - '0' as int == d
  {
    (d + '0' as int) as char
  }

  predicate IsDigits(s: string) {
    s != [] && forall i :: 0 <= i < |s| ==> '0' <= s[i] <= '9'
  }

  /** Python's `str(n)` for a non-negative integer: its decimal digits, without leading zeros. */
  function NatToString(n: nat): string
    decreases n
  {
    if n < 10 then [DigitChar(n)] else NatToString(n / 10) + [DigitChar(n % 10)]
  }

  /** `str(n)` is all decimal digits, and has no leading zero unless it is `"0"`. */
  lemma {:induction false} NatToStringDigits(n: nat)
    ensures IsDigits(NatToString(n))
    ensures |NatToString(n)| > 1 ==> NatToString(n)[0] != '0'
    decreases n
  {
    if n >= 10 {
      var p := NatToString(n / 10);
      NatToStringDigits(n / 10);
      var s := NatToString(n);
      assert s == p + [DigitChar(n % 10)];
      assert s[0] == p[0];
      if |p| == 1 {
        if n / 10 >= 10 {
          NatToStringDigits(n / 10 / 10);
          assert |p| > 1;
        }
      }
      forall i | 0 <= i < |s|
        ensures '0' <= s[i] <= '9'
      {
        if i < |p| {
          assert s[i] == p[i];
        }
      }
    }
  }

  /** The value of a string of decimal digits. */
  function DigitsValue(s: string): nat
    requires IsDigits(s)
    decreases |s|
  {
    var d := s[|s| - 1] as int - '0' as int;
    if |s| == 1 then d else DigitsValue(s[..|s| - 1]) * 10 + d
  }

  /** Reading the digits of `str(n)` gives back `n`. */
  lemma {:induction false} NatToStringRoundTrip(n: nat)
    ensures IsDigits(NatToString(n)) && DigitsValue(NatToString(n)) == n
    decreases n
  {
    NatToStringDigits(n);
    if n >= 10 {
      var s := NatToString(n);
      assert s[..|s| - 1] == NatToString(n / 10);
      NatToStringRoundTrip(n / 10);
    }
  }

  /** Python's `str(n)` (and `f"{n}"`) for any integer. */
  function IntToString(n: int): string {
    if n < 0 then "-" + NatToString(-n) else NatToString(n)
  }

  /** `str(n)` is the digits of `|n|`, read back as `|n|`, with a leading minus sign exactly for a negative `n`. */
  lemma IntToStringSpec(n: int)
    ensures n >= 0 ==> IsDigits(IntToString(n))
    ensures n < 0 ==> |IntToString(n)| > 1 && IntToString(n)[0] == '-' && IsDigits(IntToString(n)[1..])
    ensures n >= 0 ==> DigitsValue(IntToString(n)) == n
    ensures n < 0 ==> DigitsValue(IntToString(n)[1..]) == -n
  {
    if n < 0 {
      var t := NatToString(-n);
      NatToStringRoundTrip(-n);
      assert IntToString(n) == "-" + t;
      assert IntToString(n)[1..] == t;
    } else {
      NatToStringRoundTrip(n);
    }
  }
}
