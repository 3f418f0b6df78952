/**
 Strings as Go has them: a sequence of bytes, each `char` of a Dafny string standing for one byte.
 White space is recognised by its UTF-8 encoding, as `strings.TrimSpace` does.
 */
module GoText {
  predicate AsciiSpace(c: char) {
    '\t' <= c <= '\r' || c == ' '
  }

  /** The byte strings that encode one Unicode white-space character. */
  predicate IsSpace(w: string) {
    || (|w| == 1 && AsciiSpace(w[0]))
    || (|w| == 2 && w[0] as int == 0xC2 && w[1] as int in {0x85, 0xA0})
    || (|w| == 3 && w[0] as int == 0xE1 && w[1] as int == 0x9A && w[2] as int == 0x80)
    || (|w| == 3 && w[0] as int == 0xE2 && w[1] as int == 0x80
        && (0x80 <= w[2] as int <= 0x8A || w[2] as int in {0xA8, 0xA9, 0xAF}))
    || (|w| == 3 && w[0] as int == 0xE2 && w[1] as int == 0x81 && w[2] as int == 0x9F)
    || (|w| == 3 && w[0] as int == 0xE3 && w[1] as int == 0x80 && w[2] as int == 0x80)
  }

  /** The code points of Unicode's White_Space property. */
  const WHITE_SPACE: set<int> := {
    0x09, 0x0A, 0x0B, 0x0C, 0x0D, 0x20, 0x85, 0xA0, 0x1680,
    0x2000, 0x2001, 0x2002, 0x2003, 0x2004, 0x2005, 0x2006, 0x2007, 0x2008, 0x2009, 0x200A,
    0x2028, 0x2029, 0x202F, 0x205F, 0x3000}

  /** w is the UTF-8 form of code point cp, below 0x10000 (section 3 of RFC 3629). */
  predicate Encodes(w: string, cp: int) {
    || (|w| == 1 && 0 <= cp < 0x80 && w[0] as int == cp)
    || (|w| == 2 && 0x80 <= cp < 0x800 && w[0] as int == 0xC0 + cp / 64 && w[1] as int == 0x80 + cp % 64)
    || (|w| == 3 && 0x800 <= cp < 0x10000 && w[0] as int == 0xE0 + cp / 4096
        && w[1] as int == 0x80 + cp / 64 % 64 && w[2] as int == 0x80 + cp % 64)
  }

  /** The white space recognised is exactly the encodings of Unicode's white-space characters. */
  lemma IsSpaceIffWhiteSpace(w: string)
    ensures IsSpace(w) <==> exists cp :: cp in WHITE_SPACE && Encodes(w, cp)
  {
    if IsSpace(w) {
      var cp := if |w| == 1 then w[0] as int
                else if |w| == 2 then (w[0] as int - 0xC0) * 64 + (w[1] as int - 0x80)
                else (w[0] as int - 0xE0) * 4096 + (w[1] as int - 0x80) * 64 + (w[2] as int - 0x80);
      assert cp in WHITE_SPACE && Encodes(w, cp);
    }
  }

  /** The number of bytes of the white-space character that s begins with, or zero. */
  function LeadingSpace(s: string): (n: nat)
    ensures n <= |s|
    ensures n > 0 ==> IsSpace(s[..n])
  {
    if |s| >= 1 && IsSpace(s[..1]) then 1
    else if |s| >= 2 && IsSpace(s[..2]) then 2
    else if |s| >= 3 && IsSpace(s[..3]) then 3
    else 0
  }

  function TrailingSpace(s: string): (n: nat)
    ensures n <= |s|
    ensures n > 0 ==> IsSpace(s[|s| - n..])
  {
    if |s| >= 1 && IsSpace(s[|s| - 1..]) then 1
    else if |s| >= 2 && IsSpace(s[|s| - 2..]) then 2
    else if |s| >= 3 && IsSpace(s[|s| - 3..]) then 3
    else 0
  }

  function TrimLeft(s: string): string {
    if LeadingSpace(s) == 0 then s else TrimLeft(s[LeadingSpace(s)..])
  }

  function TrimRight(s: string): string {
    if TrailingSpace(s) == 0 then s else TrimRight(s[..|s| - TrailingSpace(s)])
  }

  function TrimSpace(s: string): string {
    TrimRight(TrimLeft(s))
  }

  /** White space from beginning to end. */
  predicate IsBlank(s: string) {
    s == "" || (LeadingSpace(s) > 0 && IsBlank(s[LeadingSpace(s)..]))
  }

  function LowerByte(c: char): char {
    if 'A' <= c <= 'Z' then c - 'A' + 'a' else c
  }

  function FoldAscii(s: string): (r: string)
    ensures |r| == |s|
    ensures forall i :: 0 <= i < |s| ==> r[i] == LowerByte(s[i])
  {
    if s == "" then "" else [LowerByte(s[0])] + FoldAscii(s[1..])
  }

  /** U+0130, a capital i with a dot above, in UTF-8. */
  predicate IsDottedI(w: string) {
    |w| == 2 && w[0] as int == 0xC4 && w[1] as int == 0xB0
  }

  /** U+212A, the Kelvin sign, in UTF-8. */
  predicate IsKelvin(w: string) {
    |w| == 3 && w[0] as int == 0xE2 && w[1] as int == 0x84 && w[2] as int == 0xAA
  }

  /**
   `strings.ToLower`, exact for comparison with an ASCII text. Two characters outside ASCII have
   a lower case in it; all others stay outside it and are left as they are.
   */
  function ToLower(s: string): string {
    if s == "" then ""
    else if |s| >= 2 && IsDottedI(s[..2]) then "i" + ToLower(s[2..])
    else if |s| >= 3 && IsKelvin(s[..3]) then "k" + ToLower(s[3..])
    else [LowerByte(s[0])] + ToLower(s[1..])
  }

  /** On ASCII text the two agree; a dotted capital i anywhere after such text becomes an `i`. */
  lemma {:induction false} ToLowerOfAscii(s: string, dotted: string, t: string)
    requires (forall i :: 0 <= i < |s| ==> s[i] as int < 0x80) && IsDottedI(dotted)
    ensures ToLower(s) == FoldAscii(s)
    ensures ToLower(s + dotted + t) == FoldAscii(s) + "i" + ToLower(t)
  {
    var all := s + dotted + t;
    if s == "" {
      assert all[..2] == dotted && all[2..] == t;
    } else {
      assert all[0] == s[0] && all[1..] == s[1..] + dotted + t;
      ToLowerOfAscii(s[1..], dotted, t);
    }
  }

  /**
   `strings.EqualFold`. Byte-wise ASCII folding is exact when one side is "paid": no character
   outside ASCII folds to any of its letters.
   */
  predicate EqualFold(s: string, t: string) {
    FoldAscii(s) == FoldAscii(t)
  }

  /** Two texts are the same up to case exactly when they are so letter by letter. */
  lemma EqualFoldIffSameLetters(s: string, t: string)
    ensures EqualFold(s, t) <==>
              |s| == |t| && forall i :: 0 <= i < |s| ==>
                s[i] == t[i] || ('A' <= s[i] <= 'Z' && t[i] as int == s[i] as int + 32)
                || ('a' <= s[i] <= 'z' && t[i] as int == s[i] as int - 32)
  {
    if EqualFold(s, t) {
      assert |FoldAscii(s)| == |FoldAscii(t)|;
      forall i | 0 <= i < |s|
        ensures s[i] == t[i] || ('A' <= s[i] <= 'Z' && t[i] as int == s[i] as int + 32)
                || ('a' <= s[i] <= 'z' && t[i] as int == s[i] as int - 32)
      {
        assert LowerByte(s[i]) == FoldAscii(s)[i] == FoldAscii(t)[i] == LowerByte(t[i]);
      }
    }
  }

  predicate Printable(c: char) {
    c as int < 0x80 && !AsciiSpace(c)
  }

  lemma {:induction false} TrimLeftOpensWithoutSpace(s: string)
    ensures LeadingSpace(TrimLeft(s)) == 0
    ensures TrimLeft(s) == "" <==> IsBlank(s)
  {
    if LeadingSpace(s) > 0 {
      TrimLeftOpensWithoutSpace(s[LeadingSpace(s)..]);
    }
  }

  /** What trimming on the right removes altogether opens with white space. */
  lemma {:induction false} AllTrimmedOpensWithSpace(s: string)
    requires s != "" && TrimRight(s) == ""
    ensures LeadingSpace(s) > 0
  {
    var m := |s| - TrailingSpace(s);
    if m == 0 {
      assert s == s[m..] && IsSpace(s);
      OpensWithSpace(s, |s|);
    } else {
      AllTrimmedOpensWithSpace(s[..m]);
      OpensWithSpace(s, LeadingSpace(s[..m]));
    }
  }

  lemma OpensWithSpace(s: string, n: nat)
    requires 0 < n <= |s| && IsSpace(s[..n])
    ensures LeadingSpace(s) > 0
  {
  }

  lemma {:induction false} TrimLeftParts(s: string) returns (a: string)
    ensures s == a + TrimLeft(s) && IsBlank(a)
  {
    hide IsSpace, LeadingSpace;
    var n := LeadingSpace(s);
    if n == 0 {
      a := "";
    } else {
      var rest := TrimLeftParts(s[n..]);
      a := s[..n] + rest;
      BlankAfterSpace(s[..n], rest);
    }
  }

  lemma BlankAfterSpace(w: string, rest: string)
    requires IsSpace(w) && IsBlank(rest)
    ensures IsBlank(w + rest)
  {
    var s := w + rest;
    assert s[..|w|] == w && s[|w|..] == rest;
    assert LeadingSpace(s) == |w| by {
      assert |w| > 1 ==> s[..1] == w[..1];
      assert |w| > 2 ==> s[..2] == w[..2];
    }
  }

  lemma TrimRightStep(s: string)
    ensures TrailingSpace(s) == 0 ==> TrimRight(s) == s
    ensures TrimRight(s) == TrimRight(s[..|s| - TrailingSpace(s)])
    ensures TrimRight("") == ""
  {
    hide IsSpace, TrailingSpace;
    assert s[..|s|] == s;
    assert TrailingSpace("") == 0;
  }

  lemma {:induction false} TrimRightParts(s: string) returns (b: string)
    ensures s == TrimRight(s) + b && TrimRight(b) == "" && TrailingSpace(TrimRight(s)) == 0
  {
    hide IsSpace, TrailingSpace, TrimRight;
    TrimRightStep(s);
    var k := |s| - TrailingSpace(s);
    if k == |s| {
      b := "";
    } else {
      var rest := TrimRightParts(s[..k]);
      b := rest + s[k..];
      TrimmedBeforeSpace(rest, s[k..]);
      assert s == s[..k] + s[k..];
      assert TrimRight(s[..k]) + rest + s[k..] == TrimRight(s[..k]) + b;
    }
  }

  lemma EndsWithSpace(front: string, w: string)
    requires IsSpace(w)
    ensures TrailingSpace(front + w) == |w|
  {
    var s := front + w;
    assert s[|s| - |w|..] == w;
    assert |w| > 1 ==> s[|s| - 1..] == w[|w| - 1..];
    assert |w| > 2 ==> s[|s| - 2..] == w[|w| - 2..];
  }

  lemma TrimmedBeforeSpace(front: string, w: string)
    requires IsSpace(w) && TrimRight(front) == ""
    ensures TrimRight(front + w) == ""
  {
    hide TrailingSpace;
    EndsWithSpace(front, w);
    var s := front + w;
    assert |w| > 0 && s[..|s| - |w|] == front;
  }

  /** Trimming takes white space off both ends, all of it and nothing else. */
  lemma TrimSpaceParts(s: string) returns (a: string, b: string)
    ensures s == a + TrimSpace(s) + b && IsBlank(a) && TrimRight(b) == ""
    ensures LeadingSpace(TrimSpace(s)) == 0 && TrailingSpace(TrimSpace(s)) == 0
  {
    hide IsSpace, LeadingSpace, TrailingSpace, TrimLeft, TrimRight, IsBlank;
    a := TrimLeftParts(s);
    b := TrimRightParts(TrimLeft(s));
    TrimLeftOpensWithoutSpace(s);
    var t, r := TrimLeft(s), TrimSpace(s);
    var n := LeadingSpace(r);
    if n > 0 {
      assert r[..n] == t[..n];
      OpensWithSpace(t, n);
    }
  }

  /** The validator's test, `strings.TrimSpace(s) == ""`, is met exactly by white space. */
  lemma TrimmedEmptyIffBlank(s: string)
    ensures TrimSpace(s) == "" <==> IsBlank(s)
  {
    TrimLeftOpensWithoutSpace(s);
    if TrimLeft(s) != "" && TrimSpace(s) == "" {
      AllTrimmedOpensWithSpace(TrimLeft(s));
    }
  }

  /** No printable ASCII byte is part of white space. */
  lemma {:induction false} TextIsNotBlank(s: string, c: char)
    requires c in s && Printable(c)
    ensures !IsBlank(s)
  {
    var n := LeadingSpace(s);
    if n > 0 {
      assert s == s[..n] + s[n..];
      TextIsNotBlank(s[n..], c);
    }
  }

  /** A string that opens with a printable ASCII byte is not blank. */
  lemma OpensWithTextNotBlank(s: string)
    requires |s| > 0 && Printable(s[0])
    ensures !IsBlank(s)
  {
    TextIsNotBlank(s, s[0]);
  }
}
