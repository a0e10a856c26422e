/**
 * `col_n` (excel_model_test_1.py:4-10): the spreadsheet column label of a
 * 1-based column number, written in bijective base 26 (A..Z, AA, AB, ...).
 */
module ColumnLetters {

  /** The characters a column label is made of. */
  predicate IsLetter(c: char) {
    'A' <= c <= 'Z'
  }

  predicate IsLabel(s: string) {
    forall i :: 0 <= i < |s| ==> IsLetter(s[i])
  }

  /** `ord(c) - 64`: the digit value of a letter, A = 1, ..., Z = 26. */
  function LetterValue(c: char): (v: int)
    ensures IsLetter(c) ==> 1 <= v <= 26
  {
    c as int - 64
  }

  /** `chr(65 + remainder)`: the letter for a remainder 0..25. */
  function LetterOf(remainder: int): (c: char)
    requires 0 <= remainder < 26
    ensures IsLetter(c) && LetterValue(c) == remainder + 1
  {
    (65 + remainder) as char
  }

  /**
   * The label `col_n(n)` returns. Every step takes `divmod(n - 1, 26)`; as
   * n - 1 is never negative there, Python's floor division and Dafny's
   * Euclidean division agree. A non-positive n gives the empty label.
   */
  function ColumnLabel(n: int): (s: string)
    ensures IsLabel(s)
    ensures s != [] <==> n > 0
    decreases n
  {
    if n <= 0 then "" else ColumnLabel((n - 1) / 26) + [LetterOf((n - 1) % 26)]
  }

  /**
   * Decoder: a label read as a bijective base-26 numeral with A = 1, ...,
   * Z = 26. It is defined on every string so that a reader can apply it to
   * whatever run of letters it finds; LabelValueSign states its range on labels.
   */
  function LabelValue(s: string): int {
    if s == [] then 0 else 26 * LabelValue(s[..|s| - 1]) + LetterValue(s[|s| - 1])
  }

  /** On a label the value is never negative, and it is zero only for the empty label. */
  lemma {:induction false} LabelValueSign(s: string)
    requires IsLabel(s)
    ensures LabelValue(s) >= 0
    ensures LabelValue(s) == 0 <==> s == []
  {
    if s != [] {
      LabelValueSign(s[..|s| - 1]);
    }
  }

  /** `col_n` itself: the loop that peels one letter off per step and prepends it. */
  method ColN(n: int) returns (result: string)
    ensures result == ColumnLabel(n)
    ensures IsLabel(result)
    ensures result != [] <==> n > 0
    ensures n > 0 ==> LabelValue(result) == n
  {
    result := "";
    var m := n;
    while m > 0
      invariant ColumnLabel(m) + result == ColumnLabel(n)
      decreases m
    {
      var q, remainder := (m - 1) / 26, (m - 1) % 26;
      assert ColumnLabel(m) == ColumnLabel(q) + [LetterOf(remainder)];
      result := [(65 + remainder) as char] + result;
      m := q;
    }
    if n > 0 {
      DecodeEncode(n);
    }
  }

  /** Round trip one way: decoding the label of n gives n back, for every n >= 0. */
  lemma {:induction false} DecodeEncode(n: int)
    requires n >= 0
    ensures LabelValue(ColumnLabel(n)) == n
  {
    if n > 0 {
      var q := (n - 1) / 26;
      DecodeEncode(q);
      var s := ColumnLabel(n);
      assert s[..|s| - 1] == ColumnLabel(q);
    }
  }

  /** Round trip the other way: every string of letters is the label of its value. */
  lemma {:induction false} EncodeDecode(s: string)
    requires IsLabel(s)
    ensures ColumnLabel(LabelValue(s)) == s
  {
    if s != [] {
      var p := s[..|s| - 1];
      var v, d := LabelValue(p), LetterValue(s[|s| - 1]);
      EncodeDecode(p);
      LabelValueSign(p);
      var n := LabelValue(s);
      assert n - 1 == 26 * v + (d - 1);
      assert (n - 1) / 26 == v && (n - 1) % 26 == d - 1;
      assert s == p + [s[|s| - 1]];
    }
  }

  /** Distinct column numbers get distinct labels. */
  lemma LabelInjective(n: int, m: int)
    requires n > 0 && m > 0
    requires ColumnLabel(n) == ColumnLabel(m)
    ensures n == m
  {
    DecodeEncode(n);
    DecodeEncode(m);
  }

  /** Every non-empty string of letters is the label of exactly one positive column number. */
  lemma LabelSurjective(s: string)
    requires IsLabel(s) && s != []
    ensures LabelValue(s) > 0 && ColumnLabel(LabelValue(s)) == s
  {
    EncodeDecode(s);
  }

  /** The column number of "AA...A" (k letters); labels of width k run from it to 26 times it ("ZZ...Z"). */
  function MinOfWidth(k: nat): nat {
    if k == 0 then 0 else 26 * MinOfWidth(k - 1) + 1
  }

  lemma {:induction false} LabelWidthBounds(n: int)
    requires n > 0
    ensures MinOfWidth(|ColumnLabel(n)|) <= n <= 26 * MinOfWidth(|ColumnLabel(n)|)
  {
    var q := (n - 1) / 26;
    if q > 0 {
      LabelWidthBounds(q);
    }
  }

  lemma {:induction false} MinOfWidthGrows(j: nat, k: nat)
    requires j < k
    ensures 26 * MinOfWidth(j) < MinOfWidth(k)
  {
    if j + 1 < k {
      MinOfWidthGrows(j, k - 1);
    }
  }

  /** The width of a label: n has a k-letter label exactly when it lies in [MinOfWidth(k), 26 * MinOfWidth(k)]. */
  lemma LabelWidth(n: int, k: nat)
    requires n > 0
    ensures |ColumnLabel(n)| == k <==> MinOfWidth(k) <= n <= 26 * MinOfWidth(k)
  {
    var w := |ColumnLabel(n)|;
    LabelWidthBounds(n);
    if w < k {
      MinOfWidthGrows(w, k);
    } else if k < w {
      MinOfWidthGrows(k, w);
    }
  }

  /** Columns 1..26 get the single letter at that position of the alphabet. */
  lemma SingleLetterLabels(n: int)
    requires 1 <= n <= 26
    ensures ColumnLabel(n) == [(64 + n) as char]
  {
    assert ColumnLabel((n - 1) / 26) == "";
  }

  lemma LabelExamples()
    ensures ColumnLabel(1) == "A" && ColumnLabel(2) == "B" && ColumnLabel(26) == "Z"
    ensures ColumnLabel(27) == "AA" && ColumnLabel(52) == "AZ" && ColumnLabel(53) == "BA"
  {
  }
}
