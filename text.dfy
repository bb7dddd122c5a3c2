/**
 The two Python string operations the recommender's decisions rest on:
 the substring test `needle in hay` and `str.strip()` with no argument.
 */
module Text {

  /** Python's `needle in hay` on strings: some slice of `hay` equals `needle`.
      As in Python, the empty string is contained in every string. */
  predicate Contains(hay: string, needle: string)
  {
    exists i | 0 <= i <= |hay| - |needle| :: OccursAt(hay, needle, i)
  }

  /** `needle` occurs in `hay` starting at position `i`. */
  predicate OccursAt(hay: string, needle: string, i: int)
  {
    0 <= i <= |hay| - |needle| && hay[i..i + |needle|] == needle
  }

  /** The characters for which Python's `str.isspace()` holds; `str.strip()` removes exactly these. */
  predicate IsSpace(c: char)
  {
    ('\t' <= c <= '\r') || ('\U{1C}' <= c <= '\U{1F}') || c == ' ' || c == '\U{85}' || c == '\U{A0}'
    || c == '\U{1680}' || ('\U{2000}' <= c <= '\U{200A}') || c == '\U{2028}' || c == '\U{2029}'
    || c == '\U{202F}' || c == '\U{205F}' || c == '\U{3000}'
  }

  /** The number of whitespace characters at the front of `s`. */
  function LeadingSpaces(s: string): (n: nat)
    ensures n <= |s|
    ensures forall k :: 0 <= k < n ==> IsSpace(s[k])
    ensures n < |s| ==> !IsSpace(s[n])
  {
    if |s| > 0 && IsSpace(s[0]) then 1 + LeadingSpaces(s[1..]) else 0
  }

  /** The number of whitespace characters at the back of `s`. */
  function TrailingSpaces(s: string): (n: nat)
    ensures n <= |s|
    ensures forall k :: |s| - n <= k < |s| ==> IsSpace(s[k])
    ensures n < |s| ==> !IsSpace(s[|s| - 1 - n])
  {
    if |s| > 0 && IsSpace(s[|s| - 1]) then 1 + TrailingSpaces(s[..|s| - 1]) else 0
  }

  /** `r` is the slice of `s` that starts at `lo`, and everything of `s` outside that
      slice, before it or after it, is whitespace. */
  predicate BlankAround(s: string, r: string, lo: int)
  {
    && 0 <= lo <= |s| - |r|
    && s[lo..lo + |r|] == r
    && (forall k :: 0 <= k < lo ==> IsSpace(s[k]))
    && (forall k :: lo + |r| <= k < |s| ==> IsSpace(s[k]))
  }

  /** Python's `s.strip()`: `s` without its leading and trailing whitespace. */
  function Strip(s: string): (r: string)
    ensures |r| <= |s|
    ensures r == [] || (!IsSpace(r[0]) && !IsSpace(r[|r| - 1]))
    ensures Contains(s, r)
    ensures |s| > 0 && !IsSpace(s[0]) && !IsSpace(s[|s| - 1]) ==> r == s
  {
    var lead := LeadingSpaces(s);
    if lead == |s| then
      assert OccursAt(s, "", 0);
      ""
    else
      var trail := TrailingSpaces(s);
      BlankEndsDoNotOverlap(s);
      assert OccursAt(s, s[lead..|s| - trail], lead);
      s[lead..|s| - trail]
  }

  /** `strip()` cuts only whitespace, and only from the two ends of `s`. Together with the
      result having no whitespace at its own ends, this fixes the result of `s.strip()`. */
  lemma StripCutsOnlyBlankEnds(s: string)
    ensures exists lo :: BlankAround(s, Strip(s), lo)
  {
    var lead := LeadingSpaces(s);
    if lead == |s| {
      assert BlankAround(s, Strip(s), 0);
    } else {
      BlankEndsDoNotOverlap(s);
      assert BlankAround(s, Strip(s), lead);
    }
  }

  /** Only one slice of `s` has whitespace alone around it and no whitespace at its own
      ends, so any such slice is `s.strip()`. */
  lemma StripIsTheOnlyBlankFreeTrim(s: string, r: string, lo: int)
    requires BlankAround(s, r, lo)
    requires r == [] || (!IsSpace(r[0]) && !IsSpace(r[|r| - 1]))
    ensures r == Strip(s)
  {
    var lead, trail := LeadingSpaces(s), TrailingSpaces(s);
    if r == [] {
      assert forall k :: 0 <= k < |s| ==> IsSpace(s[k]) by {
        forall k | 0 <= k < |s| ensures IsSpace(s[k]) {
          assert k < lo || lo + |r| <= k;
        }
      }
    } else {
      assert s[lo] == r[0] && s[lo + |r| - 1] == r[|r| - 1];
      assert lead == lo;
      assert |s| - trail == lo + |r|;
    }
  }

  /** When `s` is not all whitespace, its leading and trailing blanks leave a non-empty middle. */
  lemma BlankEndsDoNotOverlap(s: string)
    requires LeadingSpaces(s) < |s|
    ensures LeadingSpaces(s) < |s| - TrailingSpaces(s)
  {
    assert !IsSpace(s[LeadingSpaces(s)]);
  }

  /** An occurrence of a text with non-blank ends lies inside the part of `s` that `strip()` keeps. */
  lemma OccurrenceInsideStrip(s: string, t: string, i: int)
    requires |t| > 0 && !IsSpace(t[0]) && !IsSpace(t[|t| - 1])
    requires OccursAt(s, t, i)
    ensures LeadingSpaces(s) <= i
    ensures i + |t| <= |s| - TrailingSpaces(s)
  {
    assert s[i] == t[0];
    assert s[i + |t| - 1] == t[|t| - 1];
  }

  /** An occurrence inside the slice `s[lo..hi]` is an occurrence in `s`, shifted by `lo`. */
  lemma OccurrenceLeavesSlice(s: string, lo: int, hi: int, t: string, i: int)
    requires 0 <= lo <= hi <= |s|
    requires OccursAt(s[lo..hi], t, i)
    ensures OccursAt(s, t, lo + i)
  {
    var outer := s[lo + i..lo + i + |t|];
    assert forall k :: 0 <= k < |t| ==> outer[k] == s[lo..hi][i + k];
    assert outer == s[lo..hi][i..i + |t|];
  }

  /** An occurrence in `s` that lies inside `s[lo..hi]` is an occurrence in that slice. */
  lemma OccurrenceEntersSlice(s: string, lo: int, hi: int, t: string, j: int)
    requires 0 <= lo <= j && j + |t| <= hi <= |s|
    requires OccursAt(s, t, j)
    ensures OccursAt(s[lo..hi], t, j - lo)
  {
    var inner := s[lo..hi][j - lo..j - lo + |t|];
    assert forall k :: 0 <= k < |t| ==> inner[k] == s[j + k];
    assert inner == s[j..j + |t|];
  }

  /** An occurrence in a slice of `s` is an occurrence in `s`. */
  lemma SliceContainsInWhole(s: string, lo: int, hi: int, t: string)
    requires 0 <= lo <= hi <= |s|
    ensures Contains(s[lo..hi], t) ==> Contains(s, t)
  {
    if Contains(s[lo..hi], t) {
      var i :| OccursAt(s[lo..hi], t, i);
      OccurrenceLeavesSlice(s, lo, hi, t, i);
    }
  }

  /** Every occurrence in `s` of a text with non-blank ends is an occurrence in the part of
      `s` between its leading and trailing whitespace. */
  lemma MiddleContainsAll(s: string, t: string, lead: nat, hi: nat)
    requires |t| > 0 && !IsSpace(t[0]) && !IsSpace(t[|t| - 1])
    requires lead == LeadingSpaces(s) && hi == |s| - TrailingSpaces(s) && lead <= hi
    ensures Contains(s, t) ==> Contains(s[lead..hi], t)
  {
    if Contains(s, t) {
      var j :| OccursAt(s, t, j);
      OccurrenceInsideStrip(s, t, j);
      OccurrenceEntersSlice(s, lead, hi, t, j);
    }
  }

  /** Stripping does not change whether a text with non-blank ends occurs in `s`. */
  lemma StripKeepsContains(s: string, t: string)
    requires |t| > 0 && !IsSpace(t[0]) && !IsSpace(t[|t| - 1])
    ensures Contains(Strip(s), t) <==> Contains(s, t)
  {
    var lead := LeadingSpaces(s);
    if lead < |s| {
      BlankEndsDoNotOverlap(s);
      var hi := |s| - TrailingSpaces(s);
      assert Strip(s) == s[lead..hi];
      SliceContainsInWhole(s, lead, hi, t);
      MiddleContainsAll(s, t, lead, hi);
    } else {
      forall j | 0 <= j <= |s| - |t| ensures !OccursAt(s, t, j) {
        assert IsSpace(s[j]);
      }
    }
  }
}
