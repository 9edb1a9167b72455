/**
 * The small part of Python's string library the backend relies on:
 * `str.split()`, `str.strip()`, `str.strip(chars)`, `str.lower()`,
 * `in` on strings, `startswith`, `endswith`, `str.join` and `str.replace`.
 * Whitespace is the set Python's `str.isspace` accepts; lower-casing is
 * ASCII lower-casing.
 */
module Text {

  /**
   * The characters `str.split()` and `str.strip()` treat as whitespace:
   * tab to carriage return, the four information separators and space,
   * next line, no-break space, and the Unicode space and line separators.
   */
  predicate IsSpace(c: char) {
    ('\t' <= c <= '\r') || ('\U{001C}' <= c <= ' ') || c == '\U{0085}' || c == '\U{00A0}' ||
    c == '\U{1680}' || ('\U{2000}' <= c <= '\U{200A}') || c == '\U{2028}' || c == '\U{2029}' ||
    c == '\U{202F}' || c == '\U{205F}' || c == '\U{3000}'
  }

  predicate NoSpace(s: string) {
    forall i :: 0 <= i < |s| ==> !IsSpace(s[i])
  }

  predicate AllSpace(s: string) {
    forall i :: 0 <= i < |s| ==> IsSpace(s[i])
  }

  /** The longest prefix of `s` without whitespace. */
  function TakeWord(s: string): (w: string)
    ensures |w| <= |s| && w == s[..|w|]
    ensures NoSpace(w)
    ensures |w| < |s| ==> IsSpace(s[|w|])
  {
    if |s| == 0 || IsSpace(s[0]) then [] else [s[0]] + TakeWord(s[1..])
  }

  /** `s.split()`: the maximal runs of non-whitespace characters, in order. */
  function Split(s: string): (words: seq<string>)
    ensures forall k :: 0 <= k < |words| ==> words[k] != [] && NoSpace(words[k])
    decreases |s|
  {
    if |s| == 0 then []
    else if IsSpace(s[0]) then Split(s[1..])
    else
      var w := TakeWord(s);
      [w] + Split(s[|w|..])
  }

  /** A word without whitespace takes the whole of a text without whitespace. */
  lemma {:induction false} TakeWordAll(s: string)
    requires NoSpace(s)
    ensures TakeWord(s) == s
    decreases |s|
  {
    if |s| > 0 {
      assert NoSpace(s[1..]) by {
        forall i | 0 <= i < |s[1..]| ensures !IsSpace(s[1..][i]) {
          assert s[1..][i] == s[i + 1];
        }
      }
      TakeWordAll(s[1..]);
    }
  }

  /** A word stops at the first whitespace character. */
  lemma {:induction false} TakeWordStops(a: string, c: char, b: string)
    requires IsSpace(c)
    ensures TakeWord(a + [c] + b) == TakeWord(a)
    decreases |a|
  {
    var s := a + [c] + b;
    if |a| == 0 {
      assert s[0] == c;
    } else {
      assert s[0] == a[0];
      if !IsSpace(a[0]) {
        assert s[1..] == a[1..] + [c] + b;
        TakeWordStops(a[1..], c, b);
      }
    }
  }

  /** A non-empty text without whitespace is one word. */
  lemma SplitSingle(s: string)
    requires |s| > 0 && NoSpace(s)
    ensures Split(s) == [s]
  {
    TakeWordAll(s);
    assert s[|s|..] == [];
  }

  /**
   * Whitespace separates: the words of `a`, a whitespace character and `b`
   * are the words of `a` followed by those of `b`.  With `Split("") == []`
   * and `SplitSingle` this determines `Split` on every text.
   */
  lemma {:induction false} SplitAtSpace(a: string, c: char, b: string)
    requires IsSpace(c)
    ensures Split(a + [c] + b) == Split(a) + Split(b)
    decreases |a|
  {
    var s := a + [c] + b;
    if |a| == 0 {
      assert s[1..] == b;
    } else if IsSpace(a[0]) {
      assert s[0] == a[0];
      assert s[1..] == a[1..] + [c] + b;
      SplitAtSpace(a[1..], c, b);
    } else {
      assert s[0] == a[0];
      var w := TakeWord(a);
      TakeWordStops(a, c, b);
      assert s[|w|..] == a[|w|..] + [c] + b;
      SplitAtSpace(a[|w|..], c, b);
    }
  }

  /** `s.split()` is empty exactly when `s` is blank. */
  lemma {:induction false} SplitEmptyIffBlank(s: string)
    ensures Split(s) == [] <==> AllSpace(s)
    decreases |s|
  {
    if |s| > 0 && IsSpace(s[0]) {
      SplitEmptyIffBlank(s[1..]);
      assert AllSpace(s) <==> AllSpace(s[1..]) by {
        if AllSpace(s[1..]) {
          forall i | 0 <= i < |s| ensures IsSpace(s[i]) {
            if i > 0 { assert s[i] == s[1..][i - 1]; }
          }
        }
      }
    }
  }

  /** Drops the leading characters for which `drop` holds. */
  function TrimStart(s: string, drop: char -> bool): (r: string)
    ensures |r| <= |s| && r == s[|s| - |r|..]
    ensures r != [] ==> !drop(r[0])
    ensures forall i :: 0 <= i < |s| - |r| ==> drop(s[i])
  {
    if |s| > 0 && drop(s[0]) then
      var r := TrimStart(s[1..], drop);
      assert forall i :: 1 <= i < |s| - |r| ==> s[i] == s[1..][i - 1];
      r
    else s
  }

  /** Drops the trailing characters for which `drop` holds. */
  function TrimEnd(s: string, drop: char -> bool): (r: string)
    ensures |r| <= |s| && r == s[..|r|]
    ensures r != [] ==> !drop(r[|r| - 1])
    ensures forall i :: |r| <= i < |s| ==> drop(s[i])
  {
    if |s| > 0 && drop(s[|s| - 1]) then
      var r := TrimEnd(s[..|s| - 1], drop);
      assert forall i :: |r| <= i < |s| - 1 ==> s[i] == s[..|s| - 1][i];
      r
    else s
  }

  /**
   * `s.strip(chars)` with the character set given as a predicate: the
   * slice left after cutting dropped characters from both ends, and no more.
   */
  function StripWith(s: string, drop: char -> bool): (r: string)
    ensures r != [] ==> !drop(r[0]) && !drop(r[|r| - 1])
    ensures exists i, j :: StrippedSlice(s, drop, i, j) && r == s[i..j]
  {
    var a := TrimStart(s, drop);
    var r := TrimEnd(a, drop);
    var i := |s| - |a|;
    var j := i + |r|;
    assert r == s[i..j];
    forall k | j <= k < |s| ensures drop(s[k]) {
      assert s[k] == a[k - i];
    }
    assert StrippedSlice(s, drop, i, j);
    r
  }

  /** `s[i..j]` is what is left after cutting only dropped characters from both ends. */
  predicate StrippedSlice(s: string, drop: char -> bool, i: int, j: int) {
    0 <= i <= j <= |s| &&
    (forall k :: 0 <= k < i ==> drop(s[k])) &&
    (forall k :: j <= k < |s| ==> drop(s[k]))
  }

  /** `s.strip()`. */
  function Strip(s: string): string {
    StripWith(s, IsSpace)
  }

  /** `s.strip()` is empty exactly when `s` is blank. */
  lemma StripEmptyIffBlank(s: string)
    ensures Strip(s) == [] <==> AllSpace(s)
  {
  }

  predicate IsPunctuation(c: char) {
    c == '.' || c == ',' || c == '!' || c == '?' || c == ';' || c == ':'
  }

  /** `s.strip('.,!?;:')`. */
  function StripPunctuation(s: string): string {
    StripWith(s, IsPunctuation)
  }

  function LowerChar(c: char): char {
    if 'A' <= c <= 'Z' then (c as int + 32) as char else c
  }

  /** `s.lower()` on ASCII letters; every other character is kept. */
  function Lower(s: string): (r: string)
    ensures |r| == |s|
    ensures forall i :: 0 <= i < |s| ==> r[i] == LowerChar(s[i])
  {
    seq(|s|, i requires 0 <= i < |s| => LowerChar(s[i]))
  }

  /** Stripping leaves alone a text whose ends are not dropped. */
  lemma StripWithKeeps(s: string, drop: char -> bool)
    requires s != [] ==> !drop(s[0]) && !drop(s[|s| - 1])
    ensures StripWith(s, drop) == s
  {
    var r := StripWith(s, drop);
    var i, j :| StrippedSlice(s, drop, i, j) && r == s[i..j];
    if s != [] {
      assert i == 0 && j == |s|;
    }
  }

  /** No character of `s` has property `p`. */
  predicate NoneIn(s: string, p: char -> bool) {
    forall k :: 0 <= k < |s| ==> !p(s[k])
  }

  /** Stripping keeps a property that no character had absent. */
  lemma StripWithKeepsNone(s: string, drop: char -> bool, p: char -> bool)
    requires NoneIn(s, p)
    ensures NoneIn(StripWith(s, drop), p)
  {
    var r := StripWith(s, drop);
    var i, j :| StrippedSlice(s, drop, i, j) && r == s[i..j];
    forall k | 0 <= k < |r| ensures !p(r[k]) {
      assert r[k] == s[i + k];
    }
  }

  predicate IsUpper(c: char) {
    'A' <= c <= 'Z'
  }

  /**
   * Lower-casing leaves no capital, moves each capital 32 code points down
   * to its small letter, keeps every other character, and changes nothing
   * a second time.
   */
  lemma LowerFacts(s: string)
    ensures forall i :: 0 <= i < |s| ==> !IsUpper(Lower(s)[i])
    ensures forall i :: 0 <= i < |s| ==> IsUpper(s[i]) ==> Lower(s)[i] as int == s[i] as int + 32
    ensures forall i :: 0 <= i < |s| ==> !IsUpper(s[i]) ==> Lower(s)[i] == s[i]
    ensures Lower(Lower(s)) == Lower(s)
  {
  }

  /** A text without capitals is its own lower-case form. */
  lemma LowerNoUpper(s: string)
    requires forall i :: 0 <= i < |s| ==> !IsUpper(s[i])
    ensures Lower(s) == s
  {
  }

  /** Lower-casing adds no whitespace. */
  lemma LowerNoSpace(s: string)
    requires NoSpace(s)
    ensures NoneIn(Lower(s), IsSpace)
  {
    forall i | 0 <= i < |s| ensures !IsSpace(Lower(s)[i]) {
      assert !IsSpace(s[i]);
    }
  }

  predicate StartsWith(s: string, prefix: string) {
    |prefix| <= |s| && s[..|prefix|] == prefix
  }

  predicate EndsWith(s: string, suffix: string) {
    |suffix| <= |s| && s[|s| - |suffix|..] == suffix
  }

  /** `sub in s`. */
  predicate Contains(s: string, sub: string)
    decreases |s|
  {
    StartsWith(s, sub) || (|s| > 0 && Contains(s[1..], sub))
  }

  /** `sep.join(words)`. */
  function Join(words: seq<string>, sep: string): string
    decreases |words|
  {
    if |words| == 0 then ""
    else if |words| == 1 then words[0]
    else words[0] + sep + Join(words[1..], sep)
  }

  /** `s.replace(pat, rep)`: every non-overlapping occurrence, left to right. */
  function ReplaceAll(s: string, pat: string, rep: string): string
    requires pat != []
    decreases |s|
  {
    if |s| < |pat| then s
    else if s[..|pat|] == pat then rep + ReplaceAll(s[|pat|..], pat, rep)
    else [s[0]] + ReplaceAll(s[1..], pat, rep)
  }

  /**
   * `s.replace(pat, rep)` leaves no `c` behind when `c` is not in `rep`
   * and either was not in `s` or is the whole pattern.
   */
  lemma {:induction false} ReplaceAllNoChar(s: string, pat: string, rep: string, c: char)
    requires |pat| > 0 && c !in rep
    requires c !in s || pat == [c]
    ensures c !in ReplaceAll(s, pat, rep)
    decreases |s|
  {
    if |s| < |pat| {
    } else if s[..|pat|] == pat {
      assert c !in s ==> c !in s[|pat|..] by {
        if c in s[|pat|..] {
          var i :| 0 <= i < |s[|pat|..]| && s[|pat|..][i] == c;
          assert s[|pat| + i] == c;
        }
      }
      ReplaceAllNoChar(s[|pat|..], pat, rep, c);
    } else {
      assert c !in s ==> c !in s[1..] by {
        if c in s[1..] {
          var i :| 0 <= i < |s[1..]| && s[1..][i] == c;
          assert s[1 + i] == c;
        }
      }
      ReplaceAllNoChar(s[1..], pat, rep, c);
    }
  }

  /** Joining one more word adds the separator and the word at the end. */
  lemma {:induction false} JoinAppend(words: seq<string>, w: string, sep: string)
    requires |words| > 0
    ensures Join(words + [w], sep) == Join(words, sep) + sep + w
    decreases |words|
  {
    if |words| == 1 {
      assert words + [w] == [words[0], w];
    } else {
      assert (words + [w])[1..] == words[1..] + [w];
      JoinAppend(words[1..], w, sep);
    }
  }

  /** A non-space character after a non-space end extends the last word. */
  lemma {:induction false} TakeWordAppend(s: string, c: char)
    requires !IsSpace(c)
    ensures |TakeWord(s)| < |s| ==> TakeWord(s + [c]) == TakeWord(s)
    ensures |TakeWord(s)| == |s| ==> TakeWord(s + [c]) == s + [c]
    decreases |s|
  {
    if |s| > 0 && !IsSpace(s[0]) {
      assert (s + [c])[1..] == s[1..] + [c];
      TakeWordAppend(s[1..], c);
    }
  }

  /** Appending a non-space character to text that ends in one keeps the number of words. */
  lemma {:induction false} SplitAppendNonSpace(s: string, c: char)
    requires |s| > 0 && !IsSpace(s[|s| - 1]) && !IsSpace(c)
    ensures |Split(s + [c])| == |Split(s)|
    decreases |s|
  {
    var t := s + [c];
    if IsSpace(s[0]) {
      assert t[1..] == s[1..] + [c];
      SplitAppendNonSpace(s[1..], c);
    } else {
      var w := TakeWord(s);
      TakeWordAppend(s, c);
      if |w| < |s| {
        assert t[|w|..] == s[|w|..] + [c];
        SplitAppendNonSpace(s[|w|..], c);
      } else {
        assert TakeWord(t) == t;
        assert t[|t|..] == [];
        assert s[|s|..] == [];
      }
    }
  }

  /** The number a string of decimal digits denotes. */
  function DigitsValue(s: string): int
    decreases |s|
  {
    if |s| == 0 then 0 else 10 * DigitsValue(s[..|s| - 1]) + (s[|s| - 1] as int - '0' as int)
  }

  /**
   * Decimal digits of a natural number, as `str(n)` writes them: they
   * denote `n`, and only zero itself starts with the digit zero.
   */
  function NatToString(n: nat): (r: string)
    ensures r != []
    ensures forall i :: 0 <= i < |r| ==> '0' <= r[i] <= '9'
    ensures DigitsValue(r) == n
    ensures r[0] == '0' <==> n == 0
  {
    if n < 10 then [DigitChar(n)]
    else
      var r := NatToString(n / 10) + [DigitChar(n % 10)];
      assert r[..|r| - 1] == NatToString(n / 10);
      r
  }

  function DigitChar(d: nat): (c: char)
    requires d < 10
    ensures '0' <= c <= '9' && c as int - '0' as int == d
  {
    ('0' as int + d) as char
  }
}
