/**
 * String helpers shared by the components: JavaScript's `||` on strings,
 * substring search (`String.prototype.includes`), ASCII lower-casing and
 * `String.prototype.trim`.
 */
module Text {
  import opened Wrappers

  /** JavaScript truthiness of a string that may be null: present and non-empty. */
  predicate Present(s: Option<string>) {
    s.Some? && s.value != ""
  }

  /** JavaScript `a || b` for two strings: the empty string is falsy. */
  function OrElse(a: string, b: string): string {
    if a != "" then a else b
  }

  // ---------------------------------------------------------------- substrings

  /** `needle` occurs in `hay` starting at index `i`. */
  ghost predicate OccursAt(needle: string, hay: string, i: int) {
    0 <= i && i + |needle| <= |hay| && hay[i..i + |needle|] == needle
  }

  ghost predicate IsSubstring(needle: string, hay: string) {
    exists i :: OccursAt(needle, hay, i)
  }

  lemma OccursAtShift(needle: string, hay: string, i: int)
    requires |hay| > 0 && 0 <= i
    ensures OccursAt(needle, hay[1..], i) <==> OccursAt(needle, hay, i + 1)
  {
    if 0 <= i && i + |needle| <= |hay| - 1 {
      assert hay[1..][i..i + |needle|] == hay[i + 1..i + 1 + |needle|];
    }
  }

  /** `hay.includes(needle)`, scanning from the left. */
  function Contains(hay: string, needle: string): (b: bool)
    ensures b <==> IsSubstring(needle, hay)
    decreases |hay|
  {
    if |hay| < |needle| then
      assert forall i :: !OccursAt(needle, hay, i);
      false
    else if needle <= hay then
      assert OccursAt(needle, hay, 0);
      true
    else
      var b := Contains(hay[1..], needle);
      assert b <==> IsSubstring(needle, hay) by {
        if b {
          var i :| OccursAt(needle, hay[1..], i);
          OccursAtShift(needle, hay, i);
        } else if IsSubstring(needle, hay) {
          var i :| OccursAt(needle, hay, i);
          assert i != 0;
          OccursAtShift(needle, hay, i - 1);
        }
      }
      b
  }

  /** A needle holding a character the haystack lacks cannot occur in it. */
  lemma MissingCharNotSubstring(needle: string, hay: string, c: char)
    requires c in needle && c !in hay
    ensures !IsSubstring(needle, hay)
  {
    forall i ensures !OccursAt(needle, hay, i) {
      if 0 <= i && i + |needle| <= |hay| {
        var k :| 0 <= k < |needle| && needle[k] == c;
        assert hay[i..i + |needle|][k] != needle[k];
      }
    }
  }

  /** The same, with the position of the missing character in `needle` given. */
  lemma MissingCharAtNotSubstring(needle: string, hay: string, k: int)
    requires 0 <= k < |needle| && needle[k] !in hay
    ensures !IsSubstring(needle, hay)
  {
    MissingCharNotSubstring(needle, hay, needle[k]);
  }

  /** Substring is transitive: whatever occurs in `a` occurs in every string containing `a`. */
  lemma {:induction false} SubstringTransitive(n: string, a: string, b: string)
    requires IsSubstring(n, a) && IsSubstring(a, b)
    ensures IsSubstring(n, b)
  {
    var i :| OccursAt(n, a, i);
    var j :| OccursAt(a, b, j);
    forall k | 0 <= k < |n| ensures b[j + i + k] == n[k] {
      assert a[i..i + |n|][k] == n[k];
      assert b[j..j + |a|][i + k] == a[i + k];
    }
    assert b[j + i..j + i + |n|] == n;
    assert OccursAt(n, b, j + i);
  }

  // ---------------------------------------------------------------- case

  /** ASCII lower-casing of one character. */
  function LowerChar(c: char): char {
    if 'A' <= c <= 'Z' then (c as int + 32) as char else c
  }

  /** `toLowerCase`, restricted to ASCII letters. */
  function Lower(s: string): string {
    seq(|s|, i requires 0 <= i < |s| => LowerChar(s[i]))
  }

  /**
   * The lower-cased string is in normal form: no upper-case ASCII letter is
   * left, lower-casing again is idle, and only strings without upper-case
   * letters are their own lower-case form.
   */
  lemma LowerNormalises(s: string)
    ensures forall i :: 0 <= i < |s| ==> !('A' <= Lower(s)[i] <= 'Z')
    ensures Lower(Lower(s)) == Lower(s)
    ensures Lower(s) == s <==> forall i :: 0 <= i < |s| ==> !('A' <= s[i] <= 'Z')
  {
    if Lower(s) == s {
      forall i | 0 <= i < |s| ensures !('A' <= s[i] <= 'Z') {
        assert Lower(s)[i] == s[i];
      }
    }
  }

  /** Lower-casing commutes with slicing. */
  lemma LowerSlice(s: string, i: int, j: int)
    requires 0 <= i <= j <= |s|
    ensures Lower(s)[i..j] == Lower(s[i..j])
  {
  }

  // ---------------------------------------------------------------- trim

  /** The characters `String.prototype.trim` removes: white space and line terminators. */
  predicate IsTrimmable(c: char) {
    || c == '\t' || c == '\n' || c == '\U{000B}' || c == '\U{000C}' || c == '\r' || c == ' '
    || c == '\U{00A0}' || c == '\U{1680}' || ('\U{2000}' <= c <= '\U{200A}')
    || c == '\U{2028}' || c == '\U{2029}' || c == '\U{202F}' || c == '\U{205F}'
    || c == '\U{3000}' || c == '\U{FEFF}'
  }

  function TrimStart(s: string): (r: string)
    ensures |r| <= |s| && r == s[|s| - |r|..]
    ensures forall k :: 0 <= k < |s| - |r| ==> IsTrimmable(s[k])
    ensures |r| == 0 || !IsTrimmable(r[0])
  {
    if |s| > 0 && IsTrimmable(s[0]) then TrimStart(s[1..]) else s
  }

  function TrimEnd(s: string): (r: string)
    ensures |r| <= |s| && r == s[..|r|]
    ensures forall k :: |r| <= k < |s| ==> IsTrimmable(s[k])
    ensures |r| == 0 || !IsTrimmable(r[|r| - 1])
  {
    if |s| > 0 && IsTrimmable(s[|s| - 1]) then TrimEnd(s[..|s| - 1]) else s
  }

  /** `r` is `s` with every leading and trailing trimmable character removed. */
  ghost predicate IsTrimOf(r: string, s: string) {
    exists i :: TrimmedAt(r, s, i)
  }

  /** `r` is the slice of `s` starting at `i`, with only trimmable characters around it. */
  ghost predicate TrimmedAt(r: string, s: string, i: int) {
      && 0 <= i <= |s| - |r|
      && s[i..i + |r|] == r
      && (forall k :: 0 <= k < i ==> IsTrimmable(s[k]))
      && (forall k :: i + |r| <= k < |s| ==> IsTrimmable(s[k]))
      && (|r| == 0 || (!IsTrimmable(r[0]) && !IsTrimmable(r[|r| - 1])))
  }

  /** Trimming the end of the start-trimmed string leaves a trimmed slice of `s`. */
  lemma TrimBothEnds(s: string, a: string, r: string)
    requires |a| <= |s| && a == s[|s| - |a|..]
    requires forall k :: 0 <= k < |s| - |a| ==> IsTrimmable(s[k])
    requires |a| == 0 || !IsTrimmable(a[0])
    requires |r| <= |a| && r == a[..|r|]
    requires forall k :: |r| <= k < |a| ==> IsTrimmable(a[k])
    requires |r| == 0 || !IsTrimmable(r[|r| - 1])
    ensures TrimmedAt(r, s, |s| - |a|)
  {
    var i := |s| - |a|;
    assert s[i..i + |r|] == r by {
      forall k | 0 <= k < |r| ensures s[i..i + |r|][k] == r[k] {
        assert s[i + k] == a[k];
      }
    }
    forall k | i + |r| <= k < |s| ensures IsTrimmable(s[k]) {
      assert s[k] == a[k - i];
    }
    if |r| > 0 {
      assert r[0] == a[0];
    }
  }

  function Trim(s: string): (r: string)
    ensures IsTrimOf(r, s)
  {
    var a := TrimStart(s);
    var r := TrimEnd(a);
    TrimBothEnds(s, a, r);
    r
  }
}
