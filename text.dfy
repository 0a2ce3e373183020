/** The string handling the pages share: JavaScript's `trim()`, the `\s`
    character class, `split(/\s+/)`, the word count built from them, preview
    truncation and decimal rendering of counts. */
module Text {

  /** A character that JavaScript's `trim()` strips and `\s` matches: the
      WhiteSpace and LineTerminator code points of ECMAScript. */
  predicate IsSpace(c: char) {
    c == '\t' || c == '\n' || c == '\U{000B}' || c == '\U{000C}' || c == '\r' || c == ' '
    || c == '\U{00A0}' || c == '\U{1680}' || ('\U{2000}' <= c <= '\U{200A}')
    || c == '\U{2028}' || c == '\U{2029}' || c == '\U{202F}' || c == '\U{205F}'
    || c == '\U{3000}' || c == '\U{FEFF}'
  }

  predicate AllSpace(s: string) {
    forall i :: 0 <= i < |s| ==> IsSpace(s[i])
  }

  predicate NoSpace(s: string) {
    forall i :: 0 <= i < |s| ==> !IsSpace(s[i])
  }

  // ---------------------------------------------------------------- trim

  /** Drops the leading white space: the result is the suffix that starts at
      the first non-space character. */
  function TrimStart(s: string): (r: string)
    ensures |r| <= |s| && r == s[|s| - |r|..]
    ensures AllSpace(s[..|s| - |r|])
    ensures r == [] || !IsSpace(r[0])
  {
    if s != [] && IsSpace(s[0]) then TrimStart(s[1..]) else s
  }

  /** Drops the trailing white space: the result is the prefix that ends at
      the last non-space character. */
  function TrimEnd(s: string): (r: string)
    ensures |r| <= |s| && r == s[..|r|]
    ensures AllSpace(s[|r|..])
    ensures r == [] || !IsSpace(r[|r| - 1])
  {
    if s != [] && IsSpace(s[|s| - 1]) then TrimEnd(s[..|s| - 1]) else s
  }

  /** `s.trim()`. It is empty exactly for all-white-space input; otherwise it
      begins and ends with a non-space character. */
  function Trim(s: string): (r: string)
    ensures r == [] <==> AllSpace(s)
    ensures r != [] ==> !IsSpace(r[0]) && !IsSpace(r[|r| - 1])
    ensures |r| <= |s|
  {
    var t := TrimStart(s);
    var r := TrimEnd(t);
    assert r != [] ==> r[0] == t[0];
    assert r == [] ==> AllSpace(s) by {
      if r == [] {
        assert s == s[..|s| - |t|] + t;
        assert t == t[|r|..];
      }
    }
    r
  }

  lemma {:induction false} TrimStartSplit(s: string) returns (lead: string)
    ensures s == lead + TrimStart(s) && AllSpace(lead)
  {
    lead := s[..|s| - |TrimStart(s)|];
    assert s == lead + s[|s| - |TrimStart(s)|..];
  }

  lemma {:induction false} TrimEndSplit(t: string) returns (trail: string)
    ensures t == TrimEnd(t) + trail && AllSpace(trail)
  {
    trail := t[|TrimEnd(t)|..];
    assert t == t[..|TrimEnd(t)|] + trail;
  }

  /** The pieces around Trim: white space, the trimmed text, white space. */
  lemma {:induction false} TrimSplits(s: string) returns (lead: string, trail: string)
    ensures s == lead + (Trim(s) + trail)
    ensures AllSpace(lead) && AllSpace(trail)
  {
    lead := TrimStartSplit(s);
    trail := TrimEndSplit(TrimStart(s));
  }

  /** Text that neither starts nor ends with white space is its own trim. */
  lemma TrimUnchanged(s: string)
    requires s != [] && !IsSpace(s[0]) && !IsSpace(s[|s| - 1])
    ensures Trim(s) == s
  {
    assert TrimStart(s) == s;
    assert TrimEnd(s) == s;
  }

  // ---------------------------------------------------------------- split(/\s+/)

  /** Index of the first white-space character at or after `from`, or |s|. */
  function FirstSpace(s: string, from: nat): (i: nat)
    requires from <= |s|
    ensures from <= i <= |s|
    ensures forall k :: from <= k < i ==> !IsSpace(s[k])
    ensures i < |s| ==> IsSpace(s[i])
    decreases |s| - from
  {
    if from == |s| || IsSpace(s[from]) then from else FirstSpace(s, from + 1)
  }

  /** Index just past the run of white space that starts at `from`. */
  function SpaceRunEnd(s: string, from: nat): (j: nat)
    requires from <= |s|
    ensures from <= j <= |s|
    ensures forall k :: from <= k < j ==> IsSpace(s[k])
    ensures j < |s| ==> !IsSpace(s[j])
    decreases |s| - from
  {
    if from == |s| || !IsSpace(s[from]) then from else SpaceRunEnd(s, from + 1)
  }

  /** `s.split(/\s+/)`: the pieces between the maximal runs of white space.
      A leading or trailing run yields an empty first or last piece, and the
      empty string splits into one empty piece, as in JavaScript. */
  function SplitWs(s: string): (pieces: seq<string>)
    ensures |pieces| >= 1
    ensures forall k :: 0 <= k < |pieces| ==> NoSpace(pieces[k])
    decreases |s|
  {
    var i := FirstSpace(s, 0);
    if i == |s| then
      [s]
    else
      var j := SpaceRunEnd(s, i);
      assert j > i;
      [s[..i]] + SplitWs(s[j..])
  }

  // ---------------------------------------------------------------- word count

  /** `text.trim() ? text.trim().split(/\s+/).length : 0`, the word count of
      both pages' editors and of the stored `wordCount` fields. It is zero
      exactly when the text is all white space. */
  function WordCount(text: string): (n: nat)
    ensures n == 0 <==> AllSpace(text)
  {
    var t := Trim(text);
    if t == [] then 0 else |SplitWs(t)|
  }

  /** Number of words as a reference definition independent of `split`: the
      positions where a non-space character follows white space or the start
      of the text. `afterSpace` tells whether the text before s ended in white
      space (or was empty). */
  function CountStarts(s: string, afterSpace: bool): nat
    decreases |s|
  {
    if s == [] then 0
    else (if afterSpace && !IsSpace(s[0]) then 1 else 0) + CountStarts(s[1..], IsSpace(s[0]))
  }

  function TokenCount(s: string): nat {
    CountStarts(s, true)
  }

  lemma {:induction false} CountStartsWord(w: string, x: string, b: bool)
    requires |w| > 0 && NoSpace(w)
    ensures CountStarts(w + x, b) == (if b then 1 else 0) + CountStarts(x, false)
    decreases |w|
  {
    assert (w + x)[0] == w[0];
    assert (w + x)[1..] == w[1..] + x;
    if |w| > 1 {
      CountStartsWord(w[1..], x, false);
    }
  }

  lemma {:induction false} CountStartsSpacePrefix(ws: string, x: string, b: bool)
    requires AllSpace(ws)
    ensures CountStarts(ws + x, b) == if ws == [] then CountStarts(x, b) else CountStarts(x, true)
    decreases |ws|
  {
    if ws == [] {
      assert ws + x == x;
    } else {
      assert (ws + x)[0] == ws[0];
      assert (ws + x)[1..] == ws[1..] + x;
      CountStartsSpacePrefix(ws[1..], x, true);
    }
  }

  lemma {:induction false} CountStartsSpaceSuffix(x: string, ws: string, b: bool)
    requires AllSpace(ws)
    ensures CountStarts(x + ws, b) == CountStarts(x, b)
    decreases |x|
  {
    if x == [] {
      assert x + ws == ws + [];
      CountStartsSpacePrefix(ws, [], b);
    } else {
      assert (x + ws)[0] == x[0];
      assert (x + ws)[1..] == x[1..] + ws;
      CountStartsSpaceSuffix(x[1..], ws, IsSpace(x[0]));
    }
  }

  /** split(/\s+/) on text that does not start with white space yields one
      piece per word, plus one empty piece when the text ends in white space
      (or is empty). */
  lemma {:induction false} SplitCount(s: string)
    requires s == [] || !IsSpace(s[0])
    ensures |SplitWs(s)| == CountStarts(s, true) + (if s == [] || IsSpace(s[|s| - 1]) then 1 else 0)
    decreases |s|
  {
    var i := FirstSpace(s, 0);
    if i == |s| {
      if s != [] {
        assert s + [] == s;
        CountStartsWord(s, [], true);
      }
    } else {
      var j := SpaceRunEnd(s, i);
      var w, ws, rest := s[..i], s[i..j], s[j..];
      assert s == w + s[i..] && s[i..] == ws + rest;
      CountStartsWord(w, s[i..], true);
      CountStartsSpacePrefix(ws, rest, false);
      SplitCount(rest);
      assert rest != [] ==> rest[|rest| - 1] == s[|s| - 1];
    }
  }

  /** Trimming does not change the number of words. */
  lemma {:induction false} TokenCountTrim(text: string)
    ensures TokenCount(Trim(text)) == TokenCount(text)
  {
    var t := Trim(text);
    assert TokenCount(text) == CountStarts(t, true) by {
      var lead, trail := TrimSplits(text);
      CountStartsSpacePrefix(lead, t + trail, true);
      CountStartsSpaceSuffix(t, trail, true);
    }
    assert TokenCount(t) == CountStarts(t, true);
  }

  /** The word count is the number of maximal runs of non-space characters. */
  lemma {:induction false} WordCountIsTokenCount(text: string)
    ensures WordCount(text) == TokenCount(text)
  {
    TokenCountTrim(text);
    var t := Trim(text);
    if t != [] {
      SplitCount(t);
    }
  }

  /** Every piece of the split of trimmed, non-empty text is a whole word:
      non-empty and free of white space. */
  lemma {:induction false} SplitPiecesAreWords(s: string)
    requires s != [] && !IsSpace(s[0]) && !IsSpace(s[|s| - 1])
    ensures forall k :: 0 <= k < |SplitWs(s)| ==> |SplitWs(s)[k]| > 0
    decreases |s|
  {
    var i := FirstSpace(s, 0);
    if i < |s| {
      var j := SpaceRunEnd(s, i);
      assert j < |s|;
      SplitPiecesAreWords(s[j..]);
    }
  }

  /** The journal's stored count `content.split(/\s+/).length` on the trimmed
      content agrees with the editor's word count of the raw text. */
  lemma {:induction false} TrimmedSplitCount(text: string)
    requires Trim(text) != []
    ensures |SplitWs(Trim(text))| == WordCount(text) >= 1
  {
  }

  // ---------------------------------------------------------------- previews

  /** `s.length > limit ? s.substring(0, limit) + '...' : s`. */
  function Preview(s: string, limit: nat): (r: string)
    ensures |r| <= limit + 3
    ensures |s| <= limit ==> r == s
    ensures |s| > limit ==> |r| == limit + 3 && r[..limit] == s[..limit] && r[limit..] == "..."
  {
    if |s| > limit then s[..limit] + "..." else s
  }

  // ---------------------------------------------------------------- numbers

  function Digit(d: nat): (c: char)
    requires d < 10
    ensures '0' <= c <= '9'
  {
    ['0', '1', '2', '3', '4', '5', '6', '7', '8', '9'][d]
  }

  function DigitValue(c: char): nat {
    if '0' <= c <= '9' then (c as int - '0' as int) as nat else 0
  }

  predicate AllDigits(s: string) {
    forall i :: 0 <= i < |s| ==> '0' <= s[i] <= '9'
  }

  /** The decimal text JavaScript gives a non-negative integer: one or more
      digits, without leading zeros. */
  function NatToString(n: nat): (s: string)
    ensures |s| >= 1 && AllDigits(s)
    ensures |s| > 1 ==> s[0] != '0'
    decreases n
  {
    if n < 10 then [Digit(n)] else NatToString(n / 10) + [Digit(n % 10)]
  }

  /** Reads a string of decimal digits back as a number. */
  function ParseNat(s: string): nat
    decreases |s|
  {
    if s == [] then 0 else ParseNat(s[..|s| - 1]) * 10 + DigitValue(s[|s| - 1])
  }

  lemma {:induction false} ParseNatToString(n: nat)
    ensures ParseNat(NatToString(n)) == n
    decreases n
  {
    var s := NatToString(n);
    if n < 10 {
      assert s[..0] == [];
      assert DigitValue(s[0]) == n by {
        assert s[0] == Digit(n);
      }
    } else {
      ParseNatToString(n / 10);
      assert s[..|s| - 1] == NatToString(n / 10);
      assert DigitValue(s[|s| - 1]) == n % 10 by {
        assert s[|s| - 1] == Digit(n % 10);
      }
    }
  }
}
