/**
 * The income-statement projection formulas (excel_model_test_1.py:102-104),
 * and a reader for the small formula language they use, so that what a
 * formula refers to can be stated in terms of cells rather than characters.
 */
module Formulas {
  import opened Wrappers
  import opened ColumnLetters

  /** A cell address, 0-based, with the `$` markers that fix its column and its row. */
  datatype CellRef = CellRef(col: nat, row: nat, colFixed: bool, rowFixed: bool)

  /** A cell on a named sheet. */
  datatype SheetRef = SheetRef(sheet: string, cell: CellRef)

  /** What a projection formula computes. */
  datatype Formula =
    | Grown(previous: CellRef, rate: SheetRef)            // previous * (1 + rate)
    | Difference(minuend: CellRef, subtrahend: CellRef)   // minuend - subtrahend

  /** The growth-rate input: cell B1 of the 'Control Panel' sheet (lines 63-65). */
  const ControlPanel: string := "Control Panel"
  const GrowthRateCell: string := "B1"
  const GrowthRateRef: string := "'Control Panel'!$B$1"
  const GrowthOpen: string := "*(1+"

  /**
   * Line 102: the revenue formula of column `col`, built from `col_n(col)`
   * and row 2. It reads as the revenue cell (0-based row 1) of the column to
   * its left, grown by the Control Panel rate.
   */
  function RevenueFormula(col: int): (f: string)
    ensures col >= 1 ==> ParseFormula(f) == Some(Grown(CellRef(col - 1, 1, false, false), GrowthRateInput()))
  {
    var text := "=" + (ColumnLabel(col) + ("2" + (GrowthOpen + (GrowthRateRef + ")"))));
    if col >= 1 then
      DecodeEncode(col);
      DigitValues();
      GrowthFormulaReads(ColumnLabel(col), col, "2", text);
      text
    else
      text
  }

  /**
   * Line 103: the costs formula of column `col`, built from `col_n(col)` and
   * row 3. It reads as the costs cell (0-based row 2) of the column to its
   * left, grown by the Control Panel rate.
   */
  function CostsFormula(col: int): (f: string)
    ensures col >= 1 ==> ParseFormula(f) == Some(Grown(CellRef(col - 1, 2, false, false), GrowthRateInput()))
  {
    var text := "=" + (ColumnLabel(col) + ("3" + (GrowthOpen + (GrowthRateRef + ")"))));
    if col >= 1 then
      DecodeEncode(col);
      DigitValues();
      GrowthFormulaReads(ColumnLabel(col), col, "3", text);
      text
    else
      text
  }

  /**
   * Line 104: the profit formula of column `col`, built from `col_n(col + 1)`
   * and rows 2 and 3. It reads as the revenue cell minus the costs cell of
   * column `col` itself.
   */
  function ProfitFormula(col: int): (f: string)
    ensures col >= 0 ==> ParseFormula(f) == Some(Difference(CellRef(col, 1, false, false), CellRef(col, 2, false, false)))
  {
    var text := "=" + (ColumnLabel(col + 1) + ("2" + ("-" + (ColumnLabel(col + 1) + "3"))));
    if col >= 0 then
      DecodeEncode(col + 1);
      DigitValues();
      DifferenceFormulaReads(ColumnLabel(col + 1), col + 1, "2", "3", text);
      text
    else
      text
  }

  // ---------------------------------------------------------------------------
  // Reading formulas back

  predicate IsDigit(c: char) {
    '0' <= c <= '9'
  }

  predicate IsDigits(s: string) {
    forall i :: 0 <= i < |s| ==> IsDigit(s[i])
  }

  /** `int(s)`: the decimal value of a string of digits (defined on every string, like LabelValue). */
  function DigitsValue(s: string): int {
    if s == [] then 0 else 10 * DigitsValue(s[..|s| - 1]) + (s[|s| - 1] as int - '0' as int)
  }

  /** How many letters follow position `i` of `s`. */
  function LetterCount(s: string, i: nat): (k: nat)
    requires i <= |s|
    ensures i + k <= |s|
    decreases |s| - i
  {
    if i < |s| && IsLetter(s[i]) then 1 + LetterCount(s, i + 1) else 0
  }

  /** The longest prefix of `s` made of letters. */
  function LetterRun(s: string): (p: string)
    ensures |p| <= |s|
  {
    s[..LetterCount(s, 0)]
  }

  /** How many digits follow position `i` of `s`. */
  function DigitCount(s: string, i: nat): (k: nat)
    requires i <= |s|
    ensures i + k <= |s|
    decreases |s| - i
  {
    if i < |s| && IsDigit(s[i]) then 1 + DigitCount(s, i + 1) else 0
  }

  /** The longest prefix of `s` made of digits. */
  function DigitRun(s: string): (p: string)
    ensures |p| <= |s|
  {
    s[..DigitCount(s, 0)]
  }

  /** How many characters other than a single quote follow position `i` of `s`. */
  function NameCount(s: string, i: nat): (k: nat)
    requires i <= |s|
    ensures i + k <= |s|
    decreases |s| - i
  {
    if i < |s| && s[i] != '\'' then 1 + NameCount(s, i + 1) else 0
  }

  /** The longest prefix of `s` that holds no single quote. */
  function NameRun(s: string): (p: string)
    ensures |p| <= |s|
  {
    s[..NameCount(s, 0)]
  }

  /** Whether `s` starts with the `$` that fixes the next part of an address. */
  predicate HasMarker(s: string) {
    |s| > 0 && s[0] == '$'
  }

  /** `s` without its leading `$`, if it has one. */
  function AfterMarker(s: string): (t: string)
    ensures |t| <= |s|
  {
    if HasMarker(s) then s[1..] else s
  }

  /** An A1-style address at the front of `s` (`[$]letters[$]digits`) and the text after it. */
  function ParseCellRef(s: string): (r: Option<(CellRef, string)>)
  {
    var s1 := AfterMarker(s);
    var letters := LetterRun(s1);
    var s2 := s1[|letters|..];
    var s3 := AfterMarker(s2);
    var digits := DigitRun(s3);
    var col, row := LabelValue(letters), DigitsValue(digits);
    if col <= 0 || row <= 0 then None
    else Some((CellRef(col - 1, row - 1, HasMarker(s), HasMarker(s2)), s3[|digits|..]))
  }

  /** A sheet-qualified address `'name'!ref` at the front of `s` and the text after it. */
  function ParseSheetRef(s: string): (r: Option<(SheetRef, string)>)
  {
    if |s| == 0 || s[0] != '\'' then None
    else
      var name := NameRun(s[1..]);
      var rest := s[1 + |name|..];
      if |rest| < 2 || rest[1] != '!' then None
      else match ParseCellRef(rest[2..])
        case None => None
        case Some((cell, tail)) => Some((SheetRef(name, cell), tail))
  }

  /** `=ref*(1+sheetref)` or `=ref-ref`; anything else is not a projection formula. */
  function ParseFormula(s: string): Option<Formula>
  {
    if |s| == 0 || s[0] != '=' then None
    else match ParseCellRef(s[1..])
      case None => None
      case Some((first, rest)) =>
        if GrowthOpen <= rest then
          match ParseSheetRef(rest[|GrowthOpen|..])
          case None => None
          case Some((rate, tail)) => if tail == ")" then Some(Grown(first, rate)) else None
        else if |rest| > 0 && rest[0] == '-' then
          match ParseCellRef(rest[1..])
          case None => None
          case Some((second, tail)) => if tail == [] then Some(Difference(first, second)) else None
        else None
  }

  // ---------------------------------------------------------------------------
  // Reading back what the formula writers produce

  lemma {:induction false} LetterCountOf(letters: string, rest: string, i: nat)
    requires IsLabel(letters) && i <= |letters|
    requires rest == [] || !IsLetter(rest[0])
    ensures LetterCount(letters + rest, i) == |letters| - i
    decreases |letters| - i
  {
    if i < |letters| {
      LetterCountOf(letters, rest, i + 1);
    }
  }

  lemma LetterRunOf(letters: string, rest: string)
    requires IsLabel(letters)
    requires rest == [] || !IsLetter(rest[0])
    ensures LetterRun(letters + rest) == letters
  {
    LetterCountOf(letters, rest, 0);
  }

  lemma {:induction false} DigitCountOf(digits: string, rest: string, i: nat)
    requires IsDigits(digits) && i <= |digits|
    requires rest == [] || !IsDigit(rest[0])
    ensures DigitCount(digits + rest, i) == |digits| - i
    decreases |digits| - i
  {
    if i < |digits| {
      DigitCountOf(digits, rest, i + 1);
    }
  }

  lemma DigitRunOf(digits: string, rest: string)
    requires IsDigits(digits)
    requires rest == [] || !IsDigit(rest[0])
    ensures DigitRun(digits + rest) == digits
  {
    DigitCountOf(digits, rest, 0);
  }

  lemma {:induction false} NameCountOf(name: string, rest: string, i: nat)
    requires '\'' !in name && i <= |name|
    requires rest != [] && rest[0] == '\''
    ensures NameCount(name + rest, i) == |name| - i
    decreases |name| - i
  {
    if i < |name| {
      NameCountOf(name, rest, i + 1);
    }
  }

  lemma NameRunOf(name: string, rest: string)
    requires '\'' !in name
    requires rest != [] && rest[0] == '\''
    ensures NameRun(name + rest) == name
  {
    NameCountOf(name, rest, 0);
  }

  function Marker(fixed: bool): string {
    if fixed then "$" else ""
  }

  /** ParseCellRef, one stage at a time. */
  lemma ParseCellRefSteps(s: string, s2: string, s3: string, letters: string, digits: string, rest: string,
                          colFixed: bool, rowFixed: bool)
    requires LabelValue(letters) > 0 && DigitsValue(digits) > 0
    requires LetterRun(AfterMarker(s)) == letters && AfterMarker(s)[|letters|..] == s2
    requires AfterMarker(s2) == s3 && DigitRun(s3) == digits && s3[|digits|..] == rest
    requires HasMarker(s) == colFixed && HasMarker(s2) == rowFixed
    ensures ParseCellRef(s)
         == Some((CellRef(LabelValue(letters) - 1, DigitsValue(digits) - 1, colFixed, rowFixed), rest))
  {
  }

  lemma MarkerRoundTrip(fixed: bool, t: string)
    requires t == [] || t[0] != '$'
    ensures HasMarker(Marker(fixed) + t) == fixed
    ensures AfterMarker(Marker(fixed) + t) == t
  {
    if fixed {
      assert (Marker(fixed) + t)[1..] == t;
    }
  }

  /** An address written as optional `$`, a label, optional `$` and a row number is read back as that cell. */
  lemma CellRefRoundTrip(colFixed: bool, letters: string, rowFixed: bool, digits: string, rest: string)
    requires IsLabel(letters) && LabelValue(letters) > 0
    requires IsDigits(digits) && DigitsValue(digits) > 0
    requires rest == [] || !IsDigit(rest[0])
    ensures ParseCellRef(Marker(colFixed) + (letters + (Marker(rowFixed) + (digits + rest))))
         == Some((CellRef(LabelValue(letters) - 1, DigitsValue(digits) - 1, colFixed, rowFixed), rest))
  {
    var s3 := digits + rest;
    var s2 := Marker(rowFixed) + s3;
    var s1 := letters + s2;
    assert IsLetter(s1[0]);
    MarkerRoundTrip(colFixed, s1);
    assert s2 == [] || !IsLetter(s2[0]) by {
      if rowFixed { assert s2[0] == '$'; } else { assert s2 == s3 && s3[0] == digits[0]; }
    }
    LetterRunOf(letters, s2);
    assert s1[|letters|..] == s2;
    assert s3[0] == digits[0];
    MarkerRoundTrip(rowFixed, s3);
    DigitRunOf(digits, rest);
    assert s3[|digits|..] == rest;
    var s := Marker(colFixed) + s1;
    assert AfterMarker(s) == s1 && HasMarker(s) == colFixed;
    assert LetterRun(s1) == letters;
    assert AfterMarker(s2) == s3 && HasMarker(s2) == rowFixed;
    assert DigitRun(s3) == digits;
    ParseCellRefSteps(s, s2, s3, letters, digits, rest, colFixed, rowFixed);
  }

  /** A relative address (no `$`) whose letters stand for column number `col` is read back as column `col - 1`. */
  lemma RelativeRefRoundTrip(letters: string, col: int, digits: string, rest: string)
    requires IsLabel(letters) && LabelValue(letters) == col && col > 0
    requires IsDigits(digits) && DigitsValue(digits) > 0
    requires rest == [] || !IsDigit(rest[0])
    ensures ParseCellRef(letters + (digits + rest))
         == Some((CellRef(col - 1, DigitsValue(digits) - 1, false, false), rest))
  {
    var s2 := digits + rest;
    var s := letters + s2;
    assert s[0] == letters[0] && s2[0] == digits[0];
    assert !HasMarker(s) && AfterMarker(s) == s;
    assert !HasMarker(s2) && AfterMarker(s2) == s2;
    LetterRunOf(letters, s2);
    assert s[|letters|..] == s2;
    DigitRunOf(digits, rest);
    assert s2[|digits|..] == rest;
    ParseCellRefSteps(s, s2, s2, letters, digits, rest, false, false);
  }

  /** The rate term every growth formula ends with: the Control Panel's B1, fixed in column and row. */
  function GrowthRateInput(): SheetRef {
    SheetRef(ControlPanel, CellRef(1, 0, true, true))
  }

  /** ParseSheetRef, one stage at a time. */
  lemma ParseSheetRefSteps(s: string, name: string, rest: string, cell: CellRef, tail: string)
    requires |s| > 0 && s[0] == '\''
    requires NameRun(s[1..]) == name && s[1 + |name|..] == rest
    requires |rest| >= 2 && rest[1] == '!'
    requires ParseCellRef(rest[2..]) == Some((cell, tail))
    ensures ParseSheetRef(s) == Some((SheetRef(name, cell), tail))
  {
  }

  /** ParseSheetRef on `'name'!<address>`, given what ParseCellRef reads from the address. */
  lemma QuotedSheetSteps(name: string, address: string, cell: CellRef, rest: string)
    requires ParseCellRef(address) == Some((cell, rest))
    requires NameRun(name + ("'!" + address)) == name
    ensures ParseSheetRef("'" + (name + ("'!" + address))) == Some((SheetRef(name, cell), rest))
  {
    var after := "'!" + address;
    var s := "'" + (name + after);
    assert |s| > 0 && s[0] == '\'';
    assert s[1..] == name + after;
    assert s[1 + |name|..] == after;
    assert |after| >= 2 && after[1] == '!';
    assert after[2..] == address;
    ParseSheetRefSteps(s, name, after, cell, rest);
  }

  /** An absolute address `$letters$digits` is read back as that cell, fixed in column and row. */
  lemma AbsoluteRefRoundTrip(letters: string, digits: string, rest: string)
    requires IsLabel(letters) && LabelValue(letters) > 0
    requires IsDigits(digits) && DigitsValue(digits) > 0
    requires rest == [] || !IsDigit(rest[0])
    ensures ParseCellRef("$" + (letters + ("$" + (digits + rest))))
         == Some((CellRef(LabelValue(letters) - 1, DigitsValue(digits) - 1, true, true), rest))
  {
    CellRefRoundTrip(true, letters, true, digits, rest);
    assert Marker(true) + (letters + (Marker(true) + (digits + rest))) == "$" + (letters + ("$" + (digits + rest)));
  }

  /** An absolute address on a quoted sheet name, `'name'!$letters$digits`, is read back as that sheet and cell. */
  lemma SheetRefRoundTrip(name: string, letters: string, digits: string, rest: string)
    requires '\'' !in name
    requires IsLabel(letters) && LabelValue(letters) > 0
    requires IsDigits(digits) && DigitsValue(digits) > 0
    requires rest == [] || !IsDigit(rest[0])
    ensures ParseSheetRef("'" + (name + ("'!" + ("$" + (letters + ("$" + (digits + rest)))))))
         == Some((SheetRef(name, CellRef(LabelValue(letters) - 1, DigitsValue(digits) - 1, true, true)), rest))
  {
    AbsoluteRefRoundTrip(letters, digits, rest);
    NameRunOf(name, "'!" + ("$" + (letters + ("$" + (digits + rest)))));
    // Restating the two facts in the caller's own terms keeps the solver from unfolding the parser.
    assert ParseCellRef("$" + (letters + ("$" + (digits + rest))))
        == Some((CellRef(LabelValue(letters) - 1, DigitsValue(digits) - 1, true, true), rest));
    assert NameRun(name + ("'!" + ("$" + (letters + ("$" + (digits + rest)))))) == name;
    QuotedSheetSteps(name, "$" + (letters + ("$" + (digits + rest))),
                     CellRef(LabelValue(letters) - 1, DigitsValue(digits) - 1, true, true), rest);
  }

  /** `'B1'`, where the growth rate is written (line 65), is column 1, row 0: the cell GrowthRateInput names. */
  lemma GrowthRateCellAddress()
    ensures ParseCellRef(GrowthRateCell) == Some((CellRef(1, 0, false, false), ""))
    ensures GrowthRateInput().cell.col == 1 && GrowthRateInput().cell.row == 0
  {
    DigitValues();
    assert IsLabel("B") && IsDigits("1");
    RelativeRefRoundTrip("B", 2, "1", "");
    assert "B" + ("1" + "") == GrowthRateCell;
  }

  /** The rate reference, split into the pieces ParseSheetRef reads. */
  lemma GrowthRateRefPieces(rest: string)
    ensures GrowthRateRef + rest == "'" + (ControlPanel + ("'!" + ("$" + ("B" + ("$" + ("1" + rest))))))
  {
  }

  /**
   * `'Control Panel'!$B$1` names cell B1 (column 1, row 0) of the Control
   * Panel sheet, fixed in column and row.
   */
  lemma GrowthRateRefRoundTrip(rest: string)
    requires rest == [] || !IsDigit(rest[0])
    ensures ParseSheetRef(GrowthRateRef + rest) == Some((GrowthRateInput(), rest))
  {
    assert ParseSheetRef("'" + (ControlPanel + ("'!" + ("$" + ("B" + ("$" + ("1" + rest)))))))
        == Some((GrowthRateInput(), rest)) by {
      DigitValues();
      assert '\'' !in ControlPanel && IsLabel("B") && IsDigits("1");
      assert GrowthRateInput() == SheetRef(ControlPanel, CellRef(LabelValue("B") - 1, DigitsValue("1") - 1, true, true));
      SheetRefRoundTrip(ControlPanel, "B", "1", rest);
    }
    GrowthRateRefPieces(rest);
  }

  /** ParseFormula on a growth formula, one stage at a time. */
  lemma ParseGrownSteps(s: string, first: CellRef, rest: string, rate: SheetRef)
    requires |s| > 0 && s[0] == '='
    requires ParseCellRef(s[1..]) == Some((first, rest))
    requires GrowthOpen <= rest
    requires ParseSheetRef(rest[|GrowthOpen|..]) == Some((rate, ")"))
    ensures ParseFormula(s) == Some(Grown(first, rate))
  {
  }

  /** ParseFormula on a difference formula, one stage at a time. */
  lemma ParseDifferenceSteps(s: string, first: CellRef, rest: string, second: CellRef)
    requires |s| > 0 && s[0] == '='
    requires ParseCellRef(s[1..]) == Some((first, rest))
    requires |rest| > 0 && rest[0] == '-'
    requires ParseCellRef(rest[1..]) == Some((second, []))
    ensures ParseFormula(s) == Some(Difference(first, second))
  {
    assert !(GrowthOpen <= rest) by {
      assert GrowthOpen[0] != rest[0];
    }
  }

  /** The digit strings the formulas use, and the letter B, read as numbers. */
  lemma DigitValues()
    ensures DigitsValue("1") == 1 && DigitsValue("2") == 2 && DigitsValue("3") == 3
    ensures LabelValue("B") == 2
  {
    assert "1"[..0] == "" && "2"[..0] == "" && "3"[..0] == "" && "B"[..0] == "";
  }

  /**
   * A growth formula `=<letters><digits>*(1+'Control Panel'!$B$1)` reads
   * back as the cell in the column the letters number and the row the
   * digits number, times the growth input.
   */
  lemma GrowthFormulaReads(letters: string, colNumber: int, digits: string, s: string)
    requires IsLabel(letters) && LabelValue(letters) == colNumber && colNumber > 0
    requires IsDigits(digits) && DigitsValue(digits) > 0
    requires s == "=" + (letters + (digits + (GrowthOpen + (GrowthRateRef + ")"))))
    ensures ParseFormula(s) == Some(Grown(CellRef(colNumber - 1, DigitsValue(digits) - 1, false, false), GrowthRateInput()))
  {
    assert ParseCellRef(s[1..])
        == Some((CellRef(colNumber - 1, DigitsValue(digits) - 1, false, false), GrowthOpen + (GrowthRateRef + ")"))) by {
      assert s[1..] == letters + (digits + (GrowthOpen + (GrowthRateRef + ")")));
      RelativeRefRoundTrip(letters, colNumber, digits, GrowthOpen + (GrowthRateRef + ")"));
    }
    assert ParseSheetRef((GrowthOpen + (GrowthRateRef + ")"))[|GrowthOpen|..]) == Some((GrowthRateInput(), ")")) by {
      assert (GrowthOpen + (GrowthRateRef + ")"))[|GrowthOpen|..] == GrowthRateRef + ")";
      GrowthRateRefRoundTrip(")");
    }
    ParseGrownSteps(s, CellRef(colNumber - 1, DigitsValue(digits) - 1, false, false),
                    GrowthOpen + (GrowthRateRef + ")"), GrowthRateInput());
  }

  /** The operand after the `-` of a difference formula: a relative address that ends the text. */
  lemma SecondOperandReads(letters: string, colNumber: int, digits': string)
    requires IsLabel(letters) && LabelValue(letters) == colNumber && colNumber > 0
    requires IsDigits(digits') && DigitsValue(digits') > 0
    ensures ParseCellRef(("-" + (letters + digits'))[1..])
         == Some((CellRef(colNumber - 1, DigitsValue(digits') - 1, false, false), []))
  {
    assert ("-" + (letters + digits'))[1..] == letters + (digits' + "");
    RelativeRefRoundTrip(letters, colNumber, digits', "");
  }

  /** The operand before the `-` of a difference formula. */
  lemma FirstOperandReads(letters: string, colNumber: int, digits: string, rest: string, s: string)
    requires IsLabel(letters) && LabelValue(letters) == colNumber && colNumber > 0
    requires IsDigits(digits) && DigitsValue(digits) > 0
    requires rest != [] && rest[0] == '-'
    requires s == "=" + (letters + (digits + rest))
    ensures ParseCellRef(s[1..]) == Some((CellRef(colNumber - 1, DigitsValue(digits) - 1, false, false), rest))
  {
    assert s[1..] == letters + (digits + rest);
    RelativeRefRoundTrip(letters, colNumber, digits, rest);
  }

  /** A difference formula `=<letters><digits>-<letters><digits'>` reads back as one row minus another of the column the letters number. */
  lemma DifferenceFormulaReads(letters: string, colNumber: int, digits: string, digits': string, s: string)
    requires IsLabel(letters) && LabelValue(letters) == colNumber && colNumber > 0
    requires IsDigits(digits) && DigitsValue(digits) > 0
    requires IsDigits(digits') && DigitsValue(digits') > 0
    requires s == "=" + (letters + (digits + ("-" + (letters + digits'))))
    ensures ParseFormula(s) == Some(Difference(CellRef(colNumber - 1, DigitsValue(digits) - 1, false, false),
                                               CellRef(colNumber - 1, DigitsValue(digits') - 1, false, false)))
  {
    FirstOperandReads(letters, colNumber, digits, "-" + (letters + digits'), s);
    SecondOperandReads(letters, colNumber, digits');
    ParseDifferenceSteps(s, CellRef(colNumber - 1, DigitsValue(digits) - 1, false, false), "-" + (letters + digits'),
                         CellRef(colNumber - 1, DigitsValue(digits') - 1, false, false));
  }
}
