/**
 * The string operations of Python's `str` that the backup manager relies on:
 * `isspace`, `lower`, `strip`, `split()` with no separator, `str(int)` and `int(str)`.
 */
module Text {
  import opened Wrappers

  /** Python's `str.isspace` for a single character (the Unicode whitespace set of CPython). */
  predicate IsSpace(c: char) {
    var n := c as int;
    || (9 <= n <= 13) || (28 <= n <= 32) || n == 0x85 || n == 0xA0 || n == 0x1680
    || (0x2000 <= n <= 0x200A) || n == 0x2028 || n == 0x2029 || n == 0x202F || n == 0x205F
    || n == 0x3000
  }

  /** A non-empty run of characters none of which is whitespace: one token of `str.split()`. */
  predicate IsWord(w: string) {
    w != [] && forall i :: 0 <= i < |w| ==> !IsSpace(w[i])
  }

  predicate IsUpperAscii(c: char) {
    'A' <= c <= 'Z'
  }

  function LowerChar(c: char): char {
    if IsUpperAscii(c) then (c as int + 32) as char else c
  }

  /** `str.lower()` restricted to ASCII letters. */
  function Lower(s: string): string {
    seq(|s|, i requires 0 <= i < |s| => LowerChar(s[i]))
  }

  /** Lower-casing twice is lower-casing once, so a normalised label never changes again. */
  lemma LowerIdempotent(s: string)
    ensures Lower(Lower(s)) == Lower(s)
    ensures forall i :: 0 <= i < |Lower(s)| ==> !IsUpperAscii(Lower(s)[i])
  {
  }

  /**
   * The whitespace `int()` skips around a number: ASCII ' ' and `\t`..`\r` (`Py_ISSPACE`), and the
   * non-ASCII characters of `str.isspace`, which `int` first turns into ' '. Unlike `str.strip()`, it
   * keeps the separators U+001C..U+001F.
   */
  predicate IsIntSpace(c: char) {
    IsSpace(c) && !(28 <= c as int <= 31)
  }

  /** Number of characters at the start of `s` that `space` accepts. */
  function LeadingSpaces(s: string, space: char -> bool): (n: nat)
    ensures n <= |s|
    ensures forall i :: 0 <= i < n ==> space(s[i])
    ensures n < |s| ==> !space(s[n])
  {
    if s == [] || !space(s[0]) then 0 else 1 + LeadingSpaces(s[1..], space)
  }

  /** Number of characters at the end of `s` that `space` accepts. */
  function TrailingSpaces(s: string, space: char -> bool): (n: nat)
    ensures n <= |s|
    ensures forall i :: |s| - n <= i < |s| ==> space(s[i])
    ensures n < |s| ==> !space(s[|s| - 1 - n])
  {
    if s == [] || !space(s[|s| - 1]) then 0 else 1 + TrailingSpaces(s[..|s| - 1], space)
  }

  /**
   * The text between the leading and the trailing characters that `space` accepts: `str.strip()`
   * with `IsSpace`, the trimming of `int()` with `IsIntSpace`.
   */
  function Strip(s: string, space: char -> bool): (r: string)
    ensures r == [] <==> forall i :: 0 <= i < |s| ==> space(s[i])
    ensures r != [] ==> !space(r[0]) && !space(r[|r| - 1])
    ensures |r| <= |s|
    ensures s != [] && !space(s[0]) && !space(s[|s| - 1]) ==> r == s
    ensures r != [] ==> var a := LeadingSpaces(s, space);
      && a + |r| <= |s| && r == s[a..a + |r|]
      && forall i :: a + |r| <= i < |s| ==> space(s[i])
  {
    var a := LeadingSpaces(s, space);
    if a == |s| then []
    else
      var b := TrailingSpaces(s, space);
      assert a < |s| - b;
      s[a..|s| - b]
  }

  /** Length of the token that starts `s`: the characters up to the first whitespace. */
  function TokenLength(s: string): (n: nat)
    ensures n <= |s|
    ensures forall i :: 0 <= i < n ==> !IsSpace(s[i])
    ensures n < |s| ==> IsSpace(s[n])
  {
    if s == [] || IsSpace(s[0]) then 0 else 1 + TokenLength(s[1..])
  }

  /** `str.split()` with no separator: the maximal whitespace-free runs of `s`, in order. */
  function Split(s: string): (words: seq<string>)
    ensures forall i :: 0 <= i < |words| ==> IsWord(words[i])
    decreases |s|
  {
    if s == [] then []
    else if IsSpace(s[0]) then Split(s[1..])
    else
      var n := TokenLength(s);
      [s[..n]] + Split(s[n..])
  }

  /** The words joined by single spaces (`' '.join(words)`). */
  function Unwords(words: seq<string>): string {
    if words == [] then []
    else if |words| == 1 then words[0]
    else words[0] + " " + Unwords(words[1..])
  }

  lemma {:induction false} TokenLengthOfWord(w: string, rest: string)
    requires IsWord(w)
    requires rest == [] || IsSpace(rest[0])
    ensures TokenLength(w + rest) == |w|
    decreases |w|
  {
    if |w| > 1 {
      assert (w + rest)[1..] == w[1..] + rest;
      TokenLengthOfWord(w[1..], rest);
    } else {
      assert (w + rest)[1..] == rest;
    }
  }

  /** Splitting words that were joined by spaces gives the words back: no token is lost, merged or split. */
  lemma {:induction false} SplitUnwords(words: seq<string>)
    requires forall i :: 0 <= i < |words| ==> IsWord(words[i])
    ensures Split(Unwords(words)) == words
    decreases |words|
  {
    if words == [] {
    } else if |words| == 1 {
      var w := words[0];
      TokenLengthOfWord(w, []);
      assert w + [] == w;
      assert w[|w|..] == [];
    } else {
      var w := words[0];
      var rest := Unwords(words[1..]);
      var s := w + " " + rest;
      assert s == w + (" " + rest);
      TokenLengthOfWord(w, " " + rest);
      assert s[..|w|] == w;
      assert s[|w|..] == " " + rest;
      assert (" " + rest)[1..] == rest;
      SplitUnwords(words[1..]);
    }
  }

  /**
   * The text with every run of whitespace collapsed to one space and the whitespace at both ends
   * dropped, scanned left to right: `started` once a non-whitespace character was emitted, `gap`
   * when whitespace followed it and one space is owed before the next one.
   */
  function Squeezed(s: string, started: bool, gap: bool): string
    decreases |s|
  {
    if s == [] then []
    else if IsSpace(s[0]) then Squeezed(s[1..], started, started)
    else (if gap then [' ', s[0]] else [s[0]]) + Squeezed(s[1..], true, false)
  }

  function Squeeze(s: string): string {
    Squeezed(s, false, false)
  }

  /** Scanning a whole token, inside a word, emits it unchanged. */
  lemma {:induction false} SqueezedToken(s: string)
    requires s != [] && !IsSpace(s[0])
    ensures var n := TokenLength(s);
      Squeezed(s, true, false) == s[..n] + Squeezed(s[n..], true, false)
    decreases |s|
  {
    var t := s[1..];
    if t == [] || IsSpace(t[0]) {
      assert TokenLength(s) == 1;
      assert s[..1] == [s[0]] && s[1..] == t;
    } else {
      var m := TokenLength(t);
      assert TokenLength(s) == 1 + m;
      SqueezedToken(t);
      assert s[..1 + m] == [s[0]] + t[..m] && s[1 + m..] == t[m..];
      var rest := Squeezed(t[m..], true, false);
      calc {
        Squeezed(s, true, false);
        [s[0]] + (t[..m] + rest);
        ([s[0]] + t[..m]) + rest;
      }
    }
  }


  /** Joining a word in front of other words. */
  lemma UnwordsCons(w: string, ws: seq<string>)
    ensures Unwords([w] + ws) == if ws == [] then w else w + " " + Unwords(ws)
  {
    assert ([w] + ws)[1..] == ws;
  }

  /**
   * The words of `split()` joined by single spaces are the squeezed text, and after whitespace
   * that followed a word the squeezed rest begins with the owed space.
   */
  lemma {:induction false} SqueezedSplit(s: string)
    ensures Squeezed(s, false, false) == Unwords(Split(s))
    ensures Squeezed(s, true, true) == if Split(s) == [] then [] else " " + Unwords(Split(s))
    decreases |s|
  {
    if s == [] {
    } else if IsSpace(s[0]) {
      SqueezedSplit(s[1..]);
    } else {
      var rest := s[TokenLength(s)..];
      if rest != [] {
        SqueezedSplit(rest[1..]);
      }
      SqueezedSplitToken(s);
    }
  }

  /** The token case of `SqueezedSplit`, given its facts for the text after the token's first gap. */
  lemma SqueezedSplitToken(s: string)
    requires s != [] && !IsSpace(s[0])
    requires var rest := s[TokenLength(s)..];
      rest != [] ==>
        Squeezed(rest[1..], true, true) == if Split(rest[1..]) == [] then [] else " " + Unwords(Split(rest[1..]))
    ensures Squeezed(s, false, false) == Unwords(Split(s))
    ensures Squeezed(s, true, true) == if Split(s) == [] then [] else " " + Unwords(Split(s))
  {
    var n := TokenLength(s);
    var w, rest := s[..n], s[n..];
    SqueezedAfterToken(s);
    SplitToken(s);
    JoinTail(w, Split(rest), Squeezed(rest, true, false));
    SqueezedToken(s);
    SqueezedWordStart(s);
  }

  /** `split()` of text that starts with a token: that token, then the words of the rest. */
  lemma SplitToken(s: string)
    requires s != [] && !IsSpace(s[0])
    ensures Split(s) == [s[..TokenLength(s)]] + Split(s[TokenLength(s)..])
  {
  }

  /** At a non-whitespace character, the scan emits the same from every state but the owed space. */
  lemma SqueezedWordStart(s: string)
    requires s != [] && !IsSpace(s[0])
    ensures Squeezed(s, false, false) == Squeezed(s, true, false)
    ensures Squeezed(s, true, true) == " " + Squeezed(s, true, false)
  {
  }

  /** After a token, the squeezed rest is the owed space and the remaining words, if any. */
  lemma SqueezedAfterToken(s: string)
    requires s != [] && !IsSpace(s[0])
    requires var rest := s[TokenLength(s)..];
      rest != [] ==>
        Squeezed(rest[1..], true, true) == if Split(rest[1..]) == [] then [] else " " + Unwords(Split(rest[1..]))
    ensures var rest := s[TokenLength(s)..];
      Squeezed(rest, true, false) == if Split(rest) == [] then [] else " " + Unwords(Split(rest))
  {
    var rest := s[TokenLength(s)..];
    if rest != [] {
      assert IsSpace(rest[0]);
      assert Split(rest) == Split(rest[1..]);
      assert Squeezed(rest, true, false) == Squeezed(rest[1..], true, true);
    }
  }

  /** A word followed by the spaced rest of a list is the joined list. */
  lemma JoinTail(w: string, ws: seq<string>, tail: string)
    requires tail == if ws == [] then [] else " " + Unwords(ws)
    ensures w + tail == Unwords([w] + ws)
  {
    UnwordsCons(w, ws);
    if ws == [] {
      assert w + tail == w;
    } else {
      assert w + tail == w + " " + Unwords(ws);
    }
  }

  /**
   * `str.split()` in full: its words, joined by single spaces, are the text with each whitespace
   * run collapsed and the ends dropped. As every word is non-empty and has no whitespace, this
   * fixes the result.
   */
  lemma SplitSqueezed(s: string)
    ensures Unwords(Split(s)) == Squeeze(s)
  {
    SqueezedSplit(s);
  }

  predicate IsDigit(c: char) {
    '0' <= c <= '9'
  }

  predicate AllDigits(s: string) {
    forall i :: 0 <= i < |s| ==> IsDigit(s[i])
  }

  function DigitChar(d: nat): (c: char)
    requires d < 10
    ensures IsDigit(c)
  {
    ('0' as int + d) as char
  }

  function DigitValue(c: char): (d: nat)
    requires IsDigit(c)
    ensures d < 10
  {
    c as int - '0' as int
  }

  /** Decimal digits of a natural number, most significant first, without leading zeros. */
  function NatToDigits(n: nat): (s: string)
    ensures s != [] && AllDigits(s)
  {
    if n < 10 then [DigitChar(n)] else NatToDigits(n / 10) + [DigitChar(n % 10)]
  }

  /** The number a string of decimal digits denotes. */
  function DigitsValue(s: string): nat
    requires AllDigits(s)
  {
    if s == [] then 0 else 10 * DigitsValue(s[..|s| - 1]) + DigitValue(s[|s| - 1])
  }

  lemma {:induction false} DigitsRoundTrip(n: nat)
    ensures DigitsValue(NatToDigits(n)) == n
  {
    if n >= 10 {
      var s := NatToDigits(n);
      assert s[..|s| - 1] == NatToDigits(n / 10);
      DigitsRoundTrip(n / 10);
    }
  }

  /** `str(n)` for a Python int. */
  function IntToString(n: int): string {
    if n < 0 then "-" + NatToDigits(-n) else NatToDigits(n)
  }

  /**
   * `int(s)` for a Python str: surrounding `IsIntSpace` whitespace is ignored, an optional sign,
   * then decimal digits. `None` is the `ValueError` that `int` raises.
   */
  function ParseInt(s: string): (r: Option<int>)
    ensures r.Some? <==> var t := Strip(s, IsIntSpace);
      && t != []
      && (IsDigit(t[0]) || ((t[0] == '+' || t[0] == '-') && |t| > 1))
      && forall i :: 0 < i < |t| ==> IsDigit(t[i])
    ensures r.Some? && IsDigit(Strip(s, IsIntSpace)[0]) ==> r.value == DigitsValue(Strip(s, IsIntSpace))
    ensures r.Some? && !IsDigit(Strip(s, IsIntSpace)[0]) ==>
      r.value == (if Strip(s, IsIntSpace)[0] == '-' then -1 else 1) * DigitsValue(Strip(s, IsIntSpace)[1..])
  {
    var t := Strip(s, IsIntSpace);
    if t == [] then None
    else if t[0] == '-' || t[0] == '+' then
      var digits := t[1..];
      if digits != [] && AllDigits(digits) then
        var v: int := DigitsValue(digits);
        Some(if t[0] == '-' then -v else v)
      else None
    else if AllDigits(t) then Some(DigitsValue(t))
    else None
  }

  /** Reading back the text of an integer gives the integer (the label value `str(port)` parses). */
  lemma ParseIntRoundTrip(n: int)
    ensures ParseInt(IntToString(n)) == Some(n)
  {
    var s := IntToString(n);
    var m: nat := if n < 0 then -n else n;
    var digits := NatToDigits(m);
    DigitsRoundTrip(m);
    assert IsDigit(digits[0]) && IsDigit(digits[|digits| - 1]);
    if n < 0 {
      assert s[1..] == digits && s[0] == '-' && s[|s| - 1] == digits[|digits| - 1];
    }
    assert Strip(s, IsIntSpace) == s;
  }

  /**
   * `int()` and `str.strip()` disagree on the separators U+001C..U+001F: `int("\x1c5")` raises,
   * while `"\x1c5".strip()` is `"5"`.
   */
  lemma IntKeepsSeparators()
    ensures ParseInt("\U{1c}5") == None
    ensures Strip("\U{1c}5", IsSpace) == "5"
  {
    assert !IsIntSpace('\U{1c}') && IsSpace('\U{1c}');
    assert LeadingSpaces("\U{1c}5", IsSpace) == 1;
  }
}
