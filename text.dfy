/**
 * The Java string primitives the services rely on: Character.isWhitespace,
 * String.isBlank, String.trim, String.contains, String.startsWith,
 * toLowerCase / toUpperCase, equalsIgnoreCase, and the regex classes \s and \d.
 */
module Text {

  /** Character.isWhitespace: Unicode space, line and paragraph separators except
    * the no-break spaces, plus the ASCII controls 0x09-0x0D and 0x1C-0x1F. */
  predicate IsWhitespace(c: char) {
    ('\U{0009}' <= c <= '\U{000D}') || ('\U{001C}' <= c <= ' ')
    || c == '\U{1680}' || ('\U{2000}' <= c <= '\U{2006}') || ('\U{2008}' <= c <= '\U{200A}')
    || c == '\U{2028}' || c == '\U{2029}' || c == '\U{205F}' || c == '\U{3000}'
  }

  /** String.isBlank: empty or whitespace only. */
  predicate IsBlank(s: string) {
    forall i :: 0 <= i < |s| ==> IsWhitespace(s[i])
  }

  /** The regex class \s without UNICODE_CHARACTER_CLASS: [ \t\n\x0B\f\r]. */
  predicate IsRegexSpace(c: char) {
    c == ' ' || ('\U{0009}' <= c <= '\U{000D}')
  }

  /** The regex class \d without UNICODE_CHARACTER_CLASS: [0-9]. */
  predicate IsDigit(c: char) {
    '0' <= c <= '9'
  }

  /** The characters at which the regex `.` stops (UNIX_LINES off). */
  predicate IsLineTerminator(c: char) {
    c == '\n' || c == '\r' || c == '\U{0085}' || c == '\U{2028}' || c == '\U{2029}'
  }

  predicate HasDigit(s: string) {
    exists i :: 0 <= i < |s| && IsDigit(s[i])
  }

  /** s.matches(".*\\d+.*"): some digit, and no line terminator for `.` to stop at. */
  predicate MatchesDigitPattern(s: string) {
    HasDigit(s) && forall i :: 0 <= i < |s| ==> !IsLineTerminator(s[i])
  }

  /** s.matches("\\d+"). */
  predicate AllDigits(s: string) {
    |s| > 0 && forall i :: 0 <= i < |s| ==> IsDigit(s[i])
  }

  // ---------------------------------------------------------------------------
  // String.trim: strips every char <= U+0020 from both ends.

  /** First index at or after i whose char is above U+0020 (or |s|). */
  function TrimStartFrom(s: string, i: nat): (r: nat)
    requires i <= |s|
    ensures i <= r <= |s|
    ensures forall k :: i <= k < r ==> s[k] <= ' '
    ensures r == |s| || s[r] > ' '
    decreases |s| - i
  {
    if i < |s| && s[i] <= ' ' then TrimStartFrom(s, i + 1) else i
  }

  /** One past the last index below j and at or after lo whose char is above U+0020 (or lo). */
  function TrimEndTo(s: string, lo: nat, j: nat): (r: nat)
    requires lo <= j <= |s|
    ensures lo <= r <= j
    ensures forall k :: r <= k < j ==> s[k] <= ' '
    ensures r == lo || s[r - 1] > ' '
    decreases j
  {
    if j > lo && s[j - 1] <= ' ' then TrimEndTo(s, lo, j - 1) else j
  }

  function TrimStart(s: string): nat { TrimStartFrom(s, 0) }

  function TrimEnd(s: string): nat { TrimEndTo(s, TrimStart(s), |s|) }

  /** String.trim: the slice between the first and the last char above U+0020. */
  function Trim(s: string): (r: string)
    ensures TrimStart(s) <= TrimEnd(s) <= |s| && r == s[TrimStart(s)..TrimEnd(s)]
    ensures forall k :: 0 <= k < TrimStart(s) || TrimEnd(s) <= k < |s| ==> s[k] <= ' '
    ensures r == [] || (r[0] > ' ' && r[|r| - 1] > ' ')
  {
    s[TrimStart(s)..TrimEnd(s)]
  }

  /** Two strings of the same length with chars <= U+0020 at the same places. */
  predicate SameSpaceShape(a: string, b: string) {
    |a| == |b| && forall k :: 0 <= k < |a| ==> (a[k] <= ' ' <==> b[k] <= ' ')
  }

  lemma {:induction false} TrimStartAgrees(a: string, b: string, i: nat)
    requires SameSpaceShape(a, b) && i <= |a|
    ensures TrimStartFrom(a, i) == TrimStartFrom(b, i)
    decreases |a| - i
  {
    if i < |a| && a[i] <= ' ' {
      TrimStartAgrees(a, b, i + 1);
    }
  }

  lemma {:induction false} TrimEndAgrees(a: string, b: string, lo: nat, j: nat)
    requires SameSpaceShape(a, b) && lo <= j <= |a|
    ensures TrimEndTo(a, lo, j) == TrimEndTo(b, lo, j)
    decreases j
  {
    if j > lo && a[j - 1] <= ' ' {
      TrimEndAgrees(a, b, lo, j - 1);
    }
  }

  /** trim cuts two strings of the same space shape at the same places. */
  lemma TrimCutsAgree(a: string, b: string)
    requires SameSpaceShape(a, b)
    ensures TrimStart(a) == TrimStart(b) && TrimEnd(a) == TrimEnd(b)
  {
    TrimStartAgrees(a, b, 0);
    TrimEndAgrees(a, b, TrimStart(a), |a|);
  }

  /** trim is idempotent. */
  lemma TrimIdempotent(s: string)
    ensures Trim(Trim(s)) == Trim(s)
  {
    TrimUnpadded(Trim(s));
  }

  /** trim leaves a string alone whose ends are above U+0020. */
  lemma TrimUnpadded(s: string)
    requires s == [] || (s[0] > ' ' && s[|s| - 1] > ' ')
    ensures Trim(s) == s
  {
    assert TrimStart(s) == 0;
    assert TrimEnd(s) == |s|;
  }

  // ---------------------------------------------------------------------------
  // Substring tests.

  /** String.startsWith. */
  predicate StartsWith(s: string, prefix: string) {
    |prefix| <= |s| && s[..|prefix|] == prefix
  }

  /** String.contains: t occurs in s at some offset. */
  predicate Contains(s: string, t: string)
    decreases |s|
  {
    StartsWith(s, t) || (|s| > 0 && Contains(s[1..], t))
  }

  /** t occurs in s at offset i. */
  predicate OccursAt(s: string, t: string, i: int) {
    0 <= i <= |s| - |t| && s[i..i + |t|] == t
  }

  /** contains means: t occurs in s at some offset. */
  lemma {:induction false} ContainsAt(s: string, t: string)
    ensures Contains(s, t) <==> exists i :: OccursAt(s, t, i)
    decreases |s|
  {
    if StartsWith(s, t) {
      assert OccursAt(s, t, 0);
    }
    if |s| > 0 {
      ContainsAt(s[1..], t);
      if exists i :: OccursAt(s, t, i) {
        var i :| OccursAt(s, t, i);
        if i > 0 {
          assert OccursAt(s[1..], t, i - 1);
        }
      }
      if Contains(s[1..], t) {
        var i :| OccursAt(s[1..], t, i);
        assert OccursAt(s, t, i + 1);
      }
    }
  }

  /** What a part contains, the whole contains. */
  lemma ContainsInAppend(a: string, b: string, t: string)
    ensures Contains(a, t) ==> Contains(a + b, t)
    ensures Contains(b, t) ==> Contains(a + b, t)
  {
    ContainsAt(a, t);
    ContainsAt(b, t);
    ContainsAt(a + b, t);
    if Contains(a, t) {
      var i :| OccursAt(a, t, i);
      assert (a + b)[i..i + |t|] == a[i..i + |t|];
      assert OccursAt(a + b, t, i);
    }
    if Contains(b, t) {
      var i :| OccursAt(b, t, i);
      assert (a + b)[|a| + i..|a| + i + |t|] == b[i..i + |t|];
      assert OccursAt(a + b, t, |a| + i);
    }
  }

  /** Every char of a contained string occurs in the containing one. */
  lemma {:induction false} ContainsCharOf(s: string, t: string, c: char)
    requires Contains(s, t) && c in t
    ensures c in s
    decreases |s|
  {
    if StartsWith(s, t) {
      assert c in s[..|t|];
    } else {
      ContainsCharOf(s[1..], t, c);
    }
  }

  // ---------------------------------------------------------------------------
  // Case mapping. Java's Character.toLowerCase/toUpperCase are modelled on the
  // letters the system's text uses: ASCII, Latin-1, the Latin Extended capitals
  // of Vietnamese (Ă Đ Ĩ Ũ Ơ Ư) and the Vietnamese block U+1EA0..U+1EF9, where
  // an even code point is the capital of the next one.

  function LowerChar(c: char): (r: char)
    ensures c <= ' ' <==> r <= ' '
  {
    if 'A' <= c <= 'Z' then (c as int + 32) as char
    else if 'À' <= c <= 'Þ' && c != '×' then (c as int + 32) as char
    else if c == 'Ă' || c == 'Đ' || c == 'Ĩ' || c == 'Ũ' || c == 'Ơ' || c == 'Ư'
    then (c as int + 1) as char
    else if 'Ạ' <= c <= 'ỹ' && c as int % 2 == 0 then (c as int + 1) as char
    else c
  }

  function UpperChar(c: char): (r: char)
    ensures c <= ' ' <==> r <= ' '
  {
    if 'a' <= c <= 'z' then (c as int - 32) as char
    else if 'à' <= c <= 'þ' && c != '÷' then (c as int - 32) as char
    else if c == 'ă' || c == 'đ' || c == 'ĩ' || c == 'ũ' || c == 'ơ' || c == 'ư'
    then (c as int - 1) as char
    else if 'ạ' <= c <= 'ỹ' && c as int % 2 == 1 then (c as int - 1) as char
    else c
  }

  /** Lower-casing a lower-case char changes nothing. */
  lemma LowerCharIdempotent(c: char)
    ensures LowerChar(LowerChar(c)) == LowerChar(c)
  {
  }

  /** Upper-casing an upper-case char changes nothing. */
  lemma UpperCharIdempotent(c: char)
    ensures UpperChar(UpperChar(c)) == UpperChar(c)
  {
  }

  /** Upper- and lower-casing see through each other on the modelled letters. */
  lemma CaseRoundTrip(c: char)
    ensures LowerChar(UpperChar(c)) == LowerChar(c)
    ensures UpperChar(LowerChar(c)) == UpperChar(c)
  {
  }

  /** String.toLowerCase: char by char, length preserving. */
  function Lower(s: string): (r: string)
    ensures |r| == |s| && forall i :: 0 <= i < |s| ==> r[i] == LowerChar(s[i])
  {
    seq(|s|, i requires 0 <= i < |s| => LowerChar(s[i]))
  }

  /** String.toUpperCase: char by char, length preserving. */
  function Upper(s: string): (r: string)
    ensures |r| == |s| && forall i :: 0 <= i < |s| ==> r[i] == UpperChar(s[i])
  {
    seq(|s|, i requires 0 <= i < |s| => UpperChar(s[i]))
  }

  /** Lower-casing works piece by piece. */
  lemma LowerAppend(a: string, b: string)
    ensures Lower(a + b) == Lower(a) + Lower(b)
  {
  }

  /** Upper-casing works piece by piece. */
  lemma UpperAppend(a: string, b: string)
    ensures Upper(a + b) == Upper(a) + Upper(b)
  {
  }

  /** String.equalsIgnoreCase: same length and, char by char, equal, equal upper
    * case, or equal lower case of the upper case. */
  predicate EqualsIgnoreCase(a: string, b: string) {
    |a| == |b| && forall i :: 0 <= i < |a| ==>
      a[i] == b[i] || UpperChar(a[i]) == UpperChar(b[i])
      || LowerChar(UpperChar(a[i])) == LowerChar(UpperChar(b[i]))
  }

  /** equalsIgnoreCase is comparing the lower-cased strings. */
  lemma EqualsIgnoreCaseIsLowerEquality(a: string, b: string)
    ensures EqualsIgnoreCase(a, b) <==> Lower(a) == Lower(b)
  {
    if |a| == |b| {
      forall i | 0 <= i < |a|
        ensures (a[i] == b[i] || UpperChar(a[i]) == UpperChar(b[i])
                 || LowerChar(UpperChar(a[i])) == LowerChar(UpperChar(b[i])))
                <==> Lower(a)[i] == Lower(b)[i]
      {
        CaseRoundTrip(a[i]);
        CaseRoundTrip(b[i]);
      }
    }
    if Lower(a) == Lower(b) {
      assert forall i :: 0 <= i < |a| ==> Lower(a)[i] == Lower(b)[i];
    }
  }
}
