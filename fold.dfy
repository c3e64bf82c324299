/**
 * The Vietnamese diacritic fold that OrderIntentAdvisor, OrderExtractionHelper
 * and ProductMatchingService each define as a private `normalize`: lower-case,
 * map every marked vowel to its base letter and đ to d, then trim.
 * ProductMatchingService additionally deletes every \s run before trimming.
 */
module Folding {
  import opened Text

  /** The character classes of the replaceAll chain: [àá…] -> a, and so on. */
  const MarkedA: set<char> := {'à', 'á', 'ạ', 'ả', 'ã', 'â', 'ầ', 'ấ', 'ậ', 'ẩ', 'ẫ', 'ă', 'ằ', 'ắ', 'ặ', 'ẳ', 'ẵ'}
  const MarkedE: set<char> := {'è', 'é', 'ẹ', 'ẻ', 'ẽ', 'ê', 'ề', 'ế', 'ệ', 'ể', 'ễ'}
  const MarkedI: set<char> := {'ì', 'í', 'ị', 'ỉ', 'ĩ'}
  const MarkedO: set<char> := {'ò', 'ó', 'ọ', 'ỏ', 'õ', 'ô', 'ồ', 'ố', 'ộ', 'ổ', 'ỗ', 'ơ', 'ờ', 'ớ', 'ợ', 'ở', 'ỡ'}
  const MarkedU: set<char> := {'ù', 'ú', 'ụ', 'ủ', 'ũ', 'ư', 'ừ', 'ứ', 'ự', 'ử', 'ữ'}
  const MarkedY: set<char> := {'ỳ', 'ý', 'ỵ', 'ỷ', 'ỹ'}

  /** The lower-case letters the fold replaces. */
  predicate IsMarked(c: char) {
    c in MarkedA || c in MarkedE || c in MarkedI || c in MarkedO
    || c in MarkedU || c in MarkedY || c == 'đ'
  }

  /** The replaceAll chain, one char at a time (the classes are disjoint). */
  function FoldChar(c: char): (r: char)
    ensures !IsMarked(r)
    ensures !IsMarked(c) ==> r == c
  {
    if c in MarkedA then 'a'
    else if c in MarkedE then 'e'
    else if c in MarkedI then 'i'
    else if c in MarkedO then 'o'
    else if c in MarkedU then 'u'
    else if c in MarkedY then 'y'
    else if c == 'đ' then 'd'
    else c
  }

  /** Lower-case, then fold: the char-wise part of normalize. */
  function FoldLetter(c: char): (r: char)
    ensures c <= ' ' <==> r <= ' '
    ensures LowerChar(r) == r && !IsMarked(r)
    ensures IsWhitespace(c) ==> r == c
    ensures c <= ' ' ==> r == c
  {
    FoldChar(LowerChar(c))
  }

  /** Plain lower-case ASCII letters are left alone by the fold. */
  lemma PlainLetterFolds(c: char)
    requires 'a' <= c <= 'z'
    ensures FoldLetter(c) == c
  {
  }

  /** A string in folded form: lower case and no marked letter. */
  predicate IsFolded(s: string) {
    forall i :: 0 <= i < |s| ==> LowerChar(s[i]) == s[i] && !IsMarked(s[i])
  }

  function FoldChars(s: string): (r: string)
    ensures |r| == |s| && forall i :: 0 <= i < |s| ==> r[i] == FoldLetter(s[i])
    ensures IsFolded(r)
  {
    seq(|s|, i requires 0 <= i < |s| => FoldLetter(s[i]))
  }

  lemma FoldCharsAppend(a: string, b: string)
    ensures FoldChars(a + b) == FoldChars(a) + FoldChars(b)
  {
  }

  /** normalize of OrderIntentAdvisor and OrderExtractionHelper. */
  function Fold(s: string): (r: string)
    ensures IsFolded(r)
    ensures |r| <= |s|
  {
    Trim(FoldChars(s))
  }

  /** Trim and the char-wise fold commute, because the fold keeps every char's
    * side of U+0020. */
  lemma TrimFoldCommute(s: string)
    ensures Trim(FoldChars(s)) == FoldChars(Trim(s))
  {
    TrimCutsAgree(s, FoldChars(s));
  }

  /** The char-wise fold leaves a folded string alone. */
  lemma FoldCharsOfFolded(t: string)
    requires IsFolded(t)
    ensures FoldChars(t) == t
  {
    forall i | 0 <= i < |t| ensures FoldChars(t)[i] == t[i] {
      assert LowerChar(t[i]) == t[i];
    }
  }

  /** Folding a folded string changes nothing. */
  lemma FoldIdempotent(s: string)
    ensures Fold(Fold(s)) == Fold(s)
  {
    var f := FoldChars(s);
    calc {
      Fold(Fold(s));
      Trim(FoldChars(Trim(f)));
      { TrimFoldCommute(Trim(f)); }
      FoldChars(Trim(Trim(f)));
      { TrimIdempotent(f); }
      FoldChars(Trim(f));
      { FoldCharsOfFolded(Trim(f)); }
      Trim(f);
    }
  }

  /** A blank message folds to whitespace only. */
  lemma FoldOfBlank(s: string)
    requires IsBlank(s)
    ensures IsBlank(Fold(s))
  {
    var f := FoldChars(s);
    assert forall i :: 0 <= i < |f| ==> IsWhitespace(f[i]);
  }

  /** Deletes every \s char: replaceAll("\\s+", ""). */
  function RemoveRegexSpaces(s: string): (r: string)
    ensures |r| <= |s|
    ensures forall i :: 0 <= i < |r| ==> !IsRegexSpace(r[i])
    ensures IsFolded(s) ==> IsFolded(r)
  {
    if s == [] then []
    else (if IsRegexSpace(s[0]) then [] else [s[0]]) + RemoveRegexSpaces(s[1..])
  }

  /** normalize of ProductMatchingService: folded, with no \s anywhere. */
  function Compact(s: string): (r: string)
    ensures IsFolded(r)
    ensures forall i :: 0 <= i < |r| ==> !IsRegexSpace(r[i])
  {
    Trim(RemoveRegexSpaces(FoldChars(s)))
  }
}
