/**
 * The two patterns of OrderExtractionHelper, matched the way java.util.regex
 * matches them: CASE_INSENSITIVE without UNICODE_CASE (so only ASCII letters
 * match in either case), `.` stopping at line terminators, `$` also matching
 * before a final line terminator, and backtracking in the order the engine
 * tries the alternatives.
 *
 *   phrase:  (?:cho\s+tôi|tôi\s+muốn|lấy|mua|đặt)\s*(\d+)\s+(.+?)(?:\s+và|\s+,|$)
 *   bare:    (\d+)\s+(.+?)(?:\s+và|\s+,|$)
 */
module OrderPattern {
  import opened Wrappers
  import opened Text

  datatype Pattern = Phrase | Bare

  /** One match: group 1 is s[qtyStart..qtyEnd], group 2 is s[textStart..textEnd],
    * and the whole match is s[start..end]. */
  datatype Match = Match(start: nat, qtyStart: nat, qtyEnd: nat, textStart: nat, textEnd: nat, end: nat)

  /** The shape every match has: a digit run, then \s chars, then a non-empty
    * span without line terminators, all inside the input. */
  predicate WellFormed(s: string, m: Match) {
    m.start <= m.qtyStart < m.qtyEnd < m.textStart < m.textEnd <= m.end <= |s|
    && (forall i :: m.qtyStart <= i < m.qtyEnd ==> IsDigit(s[i]))
    && (forall i :: m.qtyEnd <= i < m.textStart ==> IsRegexSpace(s[i]))
    && (forall i :: m.textStart <= i < m.textEnd ==> !IsLineTerminator(s[i]))
  }

  /** A pattern char against an input char: an ASCII letter in either case,
    * any other char exactly. */
  predicate CharMatches(p: char, c: char) {
    c == p || ('a' <= p <= 'z' && c as int == p as int - 32)
  }

  /** The literal lit occurs at position k, up to ASCII case. */
  predicate LiteralAt(s: string, k: nat, lit: string) {
    k + |lit| <= |s| && forall i :: 0 <= i < |lit| ==> CharMatches(lit[i], s[k + i])
  }

  /** End of the longest run of \s chars starting at i. */
  function SpaceRunEnd(s: string, i: nat): (r: nat)
    requires i <= |s|
    ensures i <= r <= |s|
    ensures forall k :: i <= k < r ==> IsRegexSpace(s[k])
    ensures r == |s| || !IsRegexSpace(s[r])
    decreases |s| - i
  {
    if i == |s| || !IsRegexSpace(s[i]) then i else SpaceRunEnd(s, i + 1)
  }

  /** End of the longest run of \d chars starting at i. */
  function DigitRunEnd(s: string, i: nat): (r: nat)
    requires i <= |s|
    ensures i <= r <= |s|
    ensures forall k :: i <= k < r ==> IsDigit(s[k])
    ensures r == |s| || !IsDigit(s[r])
    decreases |s| - i
  {
    if i == |s| || !IsDigit(s[i]) then i else DigitRunEnd(s, i + 1)
  }

  /** first\s+second at k: where it ends. The \s+ never gives chars back, since
    * the next pattern char is a letter. */
  function TwoWordsAt(s: string, k: nat, first: string, second: string): (r: Option<nat>)
    requires k <= |s| && first != [] && second != []
    ensures r.Some? ==> k < r.value <= |s|
  {
    if LiteralAt(s, k, first) && k + |first| < |s| && IsRegexSpace(s[k + |first|]) then
      var gapEnd := SpaceRunEnd(s, k + |first|);
      if LiteralAt(s, gapEnd, second) then Some(gapEnd + |second|) else None
    else None
  }

  /** The ordering phrase (?:cho\s+tôi|tôi\s+muốn|lấy|mua|đặt) at k, alternatives
    * tried in order: where it ends. */
  function KeywordEnd(s: string, k: nat): (r: Option<nat>)
    requires k <= |s|
    ensures r.Some? ==> k < r.value <= |s|
  {
    var choToi := TwoWordsAt(s, k, "cho", "tôi");
    var toiMuon := TwoWordsAt(s, k, "tôi", "muốn");
    if choToi.Some? then choToi
    else if toiMuon.Some? then toiMuon
    else if LiteralAt(s, k, "lấy") || LiteralAt(s, k, "mua") || LiteralAt(s, k, "đặt") then Some(k + 3)
    else None
  }

  /** `$` without MULTILINE: at the end of the input, or before a line terminator
    * that ends it (a final \r\n counts as one, and there is no match between
    * its two chars). */
  predicate EndAnchorAt(s: string, e: nat) {
    e == |s|
    || (e + 1 == |s| && (s[e] == '\r' || s[e] == '\U{0085}' || s[e] == '\U{2028}' || s[e] == '\U{2029}'
                         || (s[e] == '\n' && !(e > 0 && s[e - 1] == '\r'))))
    || (e + 2 == |s| && s[e] == '\r' && s[e + 1] == '\n')
  }

  /** The closing group (?:\s+và|\s+,|$) at e, alternatives tried in order:
    * where the whole match ends. */
  function CloseEnd(s: string, e: nat): (r: Option<nat>)
    requires e <= |s|
    ensures r.Some? ==> e <= r.value <= |s|
  {
    var gapEnd := if e < |s| && IsRegexSpace(s[e]) then SpaceRunEnd(s, e) else e;
    if gapEnd > e && LiteralAt(s, gapEnd, "và") then Some(gapEnd + 2)
    else if gapEnd > e && LiteralAt(s, gapEnd, ",") then Some(gapEnd + 1)
    else if EndAnchorAt(s, e) then Some(e)
    else None
  }

  /** The lazy (.+?) once it covers up to e: the first end at or after e where the
    * closing group matches, and where the whole match then ends. */
  function LazyEnd(s: string, e: nat): (r: Option<(nat, nat)>)
    requires e <= |s|
    ensures r.Some? ==> e <= r.value.0 <= r.value.1 <= |s|
    ensures r.Some? ==> forall k :: e <= k < r.value.0 ==> !IsLineTerminator(s[k])
    ensures r.Some? ==> CloseEnd(s, r.value.0) == Some(r.value.1)
    decreases |s| - e
  {
    var close := CloseEnd(s, e);
    if close.Some? then Some((e, close.value))
    else if e < |s| && !IsLineTerminator(s[e]) then LazyEnd(s, e + 1)
    else None
  }

  /** (.+?)(?:\s+và|\s+,|$) at w: the span takes at least one char. */
  function SpanFrom(s: string, w: nat): (r: Option<(nat, nat)>)
    requires w <= |s|
    ensures r.Some? ==> w < r.value.0 <= r.value.1 <= |s|
    ensures r.Some? ==> forall k :: w <= k < r.value.0 ==> !IsLineTerminator(s[k])
  {
    if w < |s| && !IsLineTerminator(s[w]) then LazyEnd(s, w + 1) else None
  }

  /** \s+ then the span, after a digit run ending at d: \s+ first takes every
    * \s char up to w, then gives them back one at a time. */
  function GapAndSpan(s: string, d: nat, w: nat): (r: Option<(nat, nat, nat)>)
    requires d <= w <= |s|
    requires forall k :: d <= k < w ==> IsRegexSpace(s[k])
    ensures r.Some? ==> d < r.value.0 < r.value.1 <= r.value.2 <= |s|
    ensures r.Some? ==> forall k :: d <= k < r.value.0 ==> IsRegexSpace(s[k])
    ensures r.Some? ==> forall k :: r.value.0 <= k < r.value.1 ==> !IsLineTerminator(s[k])
    decreases w
  {
    if w == d then None
    else
      var span := SpanFrom(s, w);
      if span.Some? then Some((w, span.value.0, span.value.1)) else GapAndSpan(s, d, w - 1)
  }

  /** (\d+)\s+(.+?)(?:\s+và|\s+,|$) with the digits starting at q, for a match
    * that started at k. Giving back digits cannot help, since \s+ would then
    * face a digit. */
  function DigitsAndSpan(s: string, k: nat, q: nat): (r: Option<Match>)
    requires k <= q <= |s|
    ensures r.Some? ==> WellFormed(s, r.value) && r.value.start == k && r.value.qtyStart == q
  {
    var qe := DigitRunEnd(s, q);
    if qe == q then None
    else
      var rest := GapAndSpan(s, qe, SpaceRunEnd(s, qe));
      if rest.None? then None
      else Some(Match(k, q, qe, rest.value.0, rest.value.1, rest.value.2))
  }

  /** The match of a pattern that starts exactly at k, if any. */
  function MatchAt(s: string, k: nat, pattern: Pattern): (r: Option<Match>)
    requires k <= |s|
    ensures r.Some? ==> WellFormed(s, r.value) && r.value.start == k
    ensures r.Some? && pattern == Bare ==> r.value.qtyStart == k
    ensures r.Some? && pattern == Phrase ==> KeywordEnd(s, k).Some?
  {
    match pattern
    case Phrase =>
      var kw := KeywordEnd(s, k);
      if kw.None? then None else DigitsAndSpan(s, k, SpaceRunEnd(s, kw.value))
    case Bare => DigitsAndSpan(s, k, k)
  }

  /** Matcher.find from position p: the match at the first position that has one. */
  function FindFrom(s: string, p: nat, pattern: Pattern): (r: Option<Match>)
    requires p <= |s|
    ensures r.Some? ==> WellFormed(s, r.value) && p <= r.value.start
    ensures r.Some? ==> MatchAt(s, r.value.start, pattern) == r
    decreases |s| - p
  {
    var m := MatchAt(s, p, pattern);
    if m.Some? then m
    else if p == |s| then None
    else FindFrom(s, p + 1, pattern)
  }

  /** find skips no match: no position between p and the match found (or the
    * end of the input, when none is found) has a match of its own. */
  lemma {:induction false} FindFromIsFirst(s: string, p: nat, pattern: Pattern, k: nat)
    requires p <= k <= |s|
    requires FindFrom(s, p, pattern).None? || k < FindFrom(s, p, pattern).value.start
    ensures MatchAt(s, k, pattern).None?
    decreases k - p
  {
    var here := MatchAt(s, p, pattern);
    if k > p {
      assert here.None?;
      assert FindFrom(s, p, pattern) == FindFrom(s, p + 1, pattern);
      FindFromIsFirst(s, p + 1, pattern, k);
    }
  }
}
