/**
 * The few ECMAScript string operations the core relies on:
 * `String.prototype.trim`, the regular-expression class `\s`
 * and `String.prototype.toLowerCase`.
 */
module Text {

  /**
   * The ECMAScript WhiteSpace and LineTerminator code points. `trim`
   * strips exactly these, and `\s` in a regular expression matches
   * exactly these.
   */
  const WhitespaceCodePoints: set<int> :=
    {0x09, 0x0A, 0x0B, 0x0C, 0x0D, 0x20, 0xA0, 0x1680,
     0x2000, 0x2001, 0x2002, 0x2003, 0x2004, 0x2005, 0x2006, 0x2007, 0x2008, 0x2009, 0x200A,
     0x2028, 0x2029, 0x202F, 0x205F, 0x3000, 0xFEFF}

  predicate IsWhitespace(c: char) {
    c as int in WhitespaceCodePoints
  }

  predicate AllWhitespace(s: string) {
    forall i :: 0 <= i < |s| ==> IsWhitespace(s[i])
  }

  /** The first index at or after `i` whose character is not whitespace, or `|s|`. */
  function TrimStartIndex(s: string, i: nat): (lo: nat)
    requires i <= |s|
    ensures i <= lo <= |s|
    ensures forall j :: i <= j < lo ==> IsWhitespace(s[j])
    ensures lo < |s| ==> !IsWhitespace(s[lo])
    decreases |s| - i
  {
    if i < |s| && IsWhitespace(s[i]) then TrimStartIndex(s, i + 1) else i
  }

  /** The end of the last character before `hi` and at or after `lo` that is not whitespace, or `lo`. */
  function TrimEndIndex(s: string, lo: nat, hi: nat): (e: nat)
    requires lo <= hi <= |s|
    ensures lo <= e <= hi
    ensures forall j :: e <= j < hi ==> IsWhitespace(s[j])
    ensures lo < e ==> !IsWhitespace(s[e - 1])
    decreases hi - lo
  {
    if lo < hi && IsWhitespace(s[hi - 1]) then TrimEndIndex(s, lo, hi - 1) else hi
  }

  /** `String.prototype.trim`: leading and trailing whitespace removed. */
  function Trim(s: string): (r: string)
    ensures |r| <= |s|
    ensures r != [] ==> !IsWhitespace(r[0]) && !IsWhitespace(r[|r| - 1])
  {
    var lo := TrimStartIndex(s, 0);
    s[lo..TrimEndIndex(s, lo, |s|)]
  }

  /** The trimmed string is a slice of the original with only whitespace cut from either end. */
  lemma TrimIsInnerSlice(s: string) returns (lo: nat, hi: nat)
    ensures lo <= hi <= |s| && Trim(s) == s[lo..hi]
    ensures AllWhitespace(s[..lo]) && AllWhitespace(s[hi..])
  {
    lo := TrimStartIndex(s, 0);
    hi := TrimEndIndex(s, lo, |s|);
    assert forall j :: 0 <= j < lo ==> s[..lo][j] == s[j];
    assert forall j :: 0 <= j < |s| - hi ==> s[hi..][j] == s[hi + j];
  }

  /** Trimming leaves nothing exactly when the string is all whitespace. */
  lemma TrimEmptyIff(s: string)
    ensures Trim(s) == [] <==> AllWhitespace(s)
  {
    var lo := TrimStartIndex(s, 0);
    var hi := TrimEndIndex(s, lo, |s|);
    if Trim(s) == [] {
      assert hi == lo;
      assert lo == |s|;
    }
  }

  /**
   * `String.prototype.substring(start)`: the suffix from `start`, with
   * `start` clamped into `0..|s|`.
   */
  function SubstringFrom(s: string, start: int): (r: string)
    ensures 0 <= start <= |s| ==> r == s[start..]
    ensures start > |s| ==> r == ""
  {
    if start <= 0 then s else if start >= |s| then "" else s[start..]
  }

  /**
   * The string's `length` in JavaScript: the number of UTF-16 code units,
   * two for a code point beyond the Basic Multilingual Plane and one for
   * every other.
   */
  function Utf16Length(s: string): (n: nat)
    ensures |s| <= n <= 2 * |s|
    ensures n == 0 <==> s == []
  {
    if s == [] then 0 else (if s[0] as int >= 0x1_0000 then 2 else 1) + Utf16Length(s[1..])
  }

  /** On text inside the Basic Multilingual Plane the JavaScript length is the number of characters. */
  lemma {:induction false} Utf16LengthBmp(s: string)
    requires forall i :: 0 <= i < |s| ==> s[i] as int < 0x1_0000
    ensures Utf16Length(s) == |s|
  {
    if s != [] {
      assert s[0] as int < 0x1_0000;
      Utf16LengthBmp(s[1..]);
    }
  }

  /** Every code point beyond the Basic Multilingual Plane adds a second code unit. */
  lemma {:induction false} Utf16LengthAppend(s: string, t: string)
    ensures Utf16Length(s + t) == Utf16Length(s) + Utf16Length(t)
  {
    if s != [] {
      assert (s + t)[0] == s[0] && (s + t)[1..] == s[1..] + t;
      Utf16LengthAppend(s[1..], t);
    } else {
      assert s + t == t;
    }
  }

  /** Lower-cases one character: `A`..`Z` map to `a`..`z`, everything else is kept. */
  function LowerChar(c: char): char {
    if 'A' <= c <= 'Z' then (c as int + 32) as char else c
  }

  /** `String.prototype.toLowerCase`, on the ASCII letters. */
  function ToLower(s: string): (r: string)
    ensures |r| == |s|
    ensures forall i :: 0 <= i < |s| ==> !('A' <= r[i] <= 'Z')
    ensures forall i :: 0 <= i < |s| && !('A' <= s[i] <= 'Z') ==> r[i] == s[i]
    ensures forall i :: 0 <= i < |s| && 'A' <= s[i] <= 'Z' ==> r[i] as int == s[i] as int + 32
  {
    seq(|s|, i requires 0 <= i < |s| => LowerChar(s[i]))
  }

  /**
   * Case-insensitive comparison with a lower-case letter: a key lower-cases
   * to the one-letter string `[letter]` exactly when it is that letter or
   * its upper-case form.
   */
  lemma ToLowerIsLetter(key: string, letter: char)
    requires 'a' <= letter <= 'z'
    ensures ToLower(key) == [letter] <==> key == [letter] || key == [(letter as int - 32) as char]
  {
    var upper := (letter as int - 32) as char;
    if ToLower(key) == [letter] {
      assert |key| == 1 && ToLower(key)[0] == LowerChar(key[0]);
      var c := key[0];
      if 'A' <= c <= 'Z' {
        assert (c as int + 32) as char == letter;
        assert c as int == letter as int - 32;
        assert c == upper;
      }
      assert key == [c];
    }
  }
}
