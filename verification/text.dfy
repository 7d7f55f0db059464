/** The three JavaScript string operations the console relies on:
    `toLowerCase` (ASCII letters only), `includes` and `trim`. */
module Text {

  /** `toLowerCase` on one character, restricted to the ASCII letters. */
  function LowerChar(c: char): char {
    if 'A' <= c <= 'Z' then (c as int + 32) as char else c
  }

  /** `s.toLowerCase()`, ASCII letters only: every other character is kept. */
  function Lower(s: string): (r: string)
    ensures |r| == |s|
    ensures forall i :: 0 <= i < |s| ==> r[i] == LowerChar(s[i])
  {
    seq(|s|, i requires 0 <= i < |s| => LowerChar(s[i]))
  }

  /** Lower-casing leaves no ASCII capital behind, so doing it twice is doing it once. */
  lemma LowerIdempotent(s: string)
    ensures Lower(Lower(s)) == Lower(s)
    ensures forall i :: 0 <= i < |s| ==> !('A' <= Lower(s)[i] <= 'Z')
  {
  }

  /** `needle` sits in `hay` starting at offset `i`. */
  predicate OccursAt(hay: string, needle: string, i: int) {
    0 <= i && i + |needle| <= |hay| && hay[i..i + |needle|] == needle
  }

  lemma OccursAtShift(hay: string, needle: string, i: int)
    requires |hay| > 0 && 0 <= i
    ensures OccursAt(hay[1..], needle, i) <==> OccursAt(hay, needle, i + 1)
  {
    if 0 <= i && i + |needle| <= |hay| - 1 {
      assert hay[1..][i..i + |needle|] == hay[i + 1..i + 1 + |needle|];
    }
  }

  /** `hay.includes(needle)`: some offset of `hay` starts a copy of `needle`;
      the empty needle occurs everywhere. */
  function Includes(hay: string, needle: string): (b: bool)
    ensures b <==> exists i :: OccursAt(hay, needle, i)
    decreases |hay|
  {
    if needle <= hay then
      assert OccursAt(hay, needle, 0);
      true
    else if |hay| == 0 then
      assert forall i :: !OccursAt(hay, needle, i);
      false
    else
      var b := Includes(hay[1..], needle);
      assert b ==> exists i :: OccursAt(hay, needle, i) by {
        if b {
          var i :| OccursAt(hay[1..], needle, i);
          OccursAtShift(hay, needle, i);
        }
      }
      assert (exists i :: OccursAt(hay, needle, i)) ==> b by {
        if exists i :: OccursAt(hay, needle, i) {
          var i :| OccursAt(hay, needle, i);
          assert i != 0;
          OccursAtShift(hay, needle, i - 1);
        }
      }
      b
  }

  /** The empty needle is found in every string (`"x".includes("") === true`). */
  lemma IncludesEmpty(hay: string)
    ensures Includes(hay, "")
  {
    assert OccursAt(hay, "", 0);
  }

  /** ECMAScript WhiteSpace and LineTerminator code points, which `trim` removes: tab,
      line feed, vertical tab, form feed, carriage return, space, no-break space, the
      Ogham space mark, the en quad to hair space block, the line and paragraph
      separators, the narrow no-break space, the medium mathematical space, the
      ideographic space and the byte order mark. */
  predicate IsWhitespace(c: char) {
    || '\t' <= c <= '\r' || c == ' ' || c == '\U{00A0}' || c == '\U{1680}'
    || '\U{2000}' <= c <= '\U{200A}' || c == '\U{2028}' || c == '\U{2029}'
    || c == '\U{202F}' || c == '\U{205F}' || c == '\U{3000}' || c == '\U{FEFF}'
  }

  predicate AllWhitespace(s: string) {
    forall i :: 0 <= i < |s| ==> IsWhitespace(s[i])
  }

  /** `s.trimStart()`: the longest suffix of `s` not starting with whitespace. */
  function TrimStart(s: string): (r: string)
    ensures |r| <= |s| && r == s[|s| - |r|..]
    ensures AllWhitespace(s[..|s| - |r|])
    ensures r == [] || !IsWhitespace(r[0])
  {
    if |s| > 0 && IsWhitespace(s[0]) then
      var r := TrimStart(s[1..]);
      var p := s[..|s| - |r|];
      assert p[1..] == s[1..][..|s| - 1 - |r|];
      AllWhitespaceSplit(p, 1);
      r
    else s
  }

  /** `s.trimEnd()`: the longest prefix of `s` not ending with whitespace. */
  function TrimEnd(s: string): (r: string)
    ensures |r| <= |s| && r == s[..|r|]
    ensures AllWhitespace(s[|r|..])
    ensures r == [] || !IsWhitespace(r[|r| - 1])
  {
    if |s| > 0 && IsWhitespace(s[|s| - 1]) then
      var r := TrimEnd(s[..|s| - 1]);
      var p := s[|r|..];
      assert p[..|p| - 1] == s[..|s| - 1][|r|..];
      AllWhitespaceSplit(p, |p| - 1);
      r
    else s
  }

  /** `r` is `s` with whitespace runs of lengths `i` and `|s| - i - |r|` cut from its two ends. */
  ghost predicate StrippedAt(s: string, r: string, i: int) {
    0 <= i && i + |r| <= |s| && s[i..i + |r|] == r
    && AllWhitespace(s[..i]) && AllWhitespace(s[i + |r|..])
  }

  /** Cutting a whitespace prefix and then a whitespace suffix strips both ends. */
  lemma StripBothEnds(s: string, t: string, r: string)
    requires |t| <= |s| && t == s[|s| - |t|..] && AllWhitespace(s[..|s| - |t|])
    requires |r| <= |t| && r == t[..|r|] && AllWhitespace(t[|r|..])
    ensures StrippedAt(s, r, |s| - |t|)
  {
    var i := |s| - |t|;
    assert s[i..i + |r|] == t[..|r|];
    assert s[i + |r|..] == t[|r|..];
  }

  lemma TrimParts(s: string)
    ensures StrippedAt(s, TrimEnd(TrimStart(s)), |s| - |TrimStart(s)|)
  {
    StripBothEnds(s, TrimStart(s), TrimEnd(TrimStart(s)));
  }

  lemma AllWhitespaceSplit(s: string, i: int)
    requires 0 <= i <= |s|
    ensures AllWhitespace(s) <==> AllWhitespace(s[..i]) && AllWhitespace(s[i..])
  {
    if AllWhitespace(s[..i]) && AllWhitespace(s[i..]) {
      forall k | 0 <= k < |s| ensures IsWhitespace(s[k]) {
        if k < i { assert s[k] == s[..i][k]; } else { assert s[k] == s[i..][k - i]; }
      }
    }
    if AllWhitespace(s) {
      assert forall k :: 0 <= k < i ==> s[..i][k] == s[k];
      assert forall k :: 0 <= k < |s| - i ==> s[i..][k] == s[i + k];
    }
  }

  lemma TrimEmptyIffBlank(s: string)
    ensures TrimEnd(TrimStart(s)) == [] <==> AllWhitespace(s)
  {
    var t := TrimStart(s);
    var r := TrimEnd(t);
    var i := |s| - |t|;
    AllWhitespaceSplit(s, i);
    assert s[i..] == t;
    if r == [] {
      assert t[|r|..] == t;
    } else {
      assert t[0] == r[0];
      assert s[i] == t[0] && !IsWhitespace(s[i]);
    }
  }

  /** `s.trim()`: `s` with all leading and trailing whitespace removed. */
  function Trim(s: string): (r: string)
    ensures exists i :: StrippedAt(s, r, i)
    ensures r == [] || (!IsWhitespace(r[0]) && !IsWhitespace(r[|r| - 1]))
    ensures r == [] <==> AllWhitespace(s)
  {
    TrimParts(s);
    TrimEmptyIffBlank(s);
    TrimEnd(TrimStart(s))
  }

  /** Trimming a trimmed string changes nothing. */
  lemma TrimIdempotent(s: string)
    ensures Trim(Trim(s)) == Trim(s)
  {
    var r := Trim(s);
    assert TrimStart(r) == r;
    assert TrimEnd(r) == r;
  }
}
