/** The scenarios of the project's unit tests, stated about the specification:
    which inputs are valid and what their long and short forms are. The parsing
    scenarios take the input as a parameter pinned by `requires s == "..."`
    rather than naming the literal in the `ensures`, so that the verifier does
    not unfold the recursive parsing functions on the literal and the proofs
    stay stable across solver seeds. */
module BillCases {
  import opened Wrappers
  import opened Text
  import opened BillGrammar
  import opened BillFormat
  import opened BillNumbers

  lemma NoLowerCase(s: string)
    requires forall i :: 0 <= i < |s| ==> !('a' <= s[i] <= 'z')
    ensures Upper(s) == s
  {
  }

  /** The value of a five-digit string, digit by digit. */
  lemma FiveDigits(d: string)
    requires |d| == 5 && AllDigits(d)
    ensures DecimalValue(d) ==
              10000 * DigitValue(d[0]) + 1000 * DigitValue(d[1]) + 100 * DigitValue(d[2])
              + 10 * DigitValue(d[3]) + DigitValue(d[4])
  {
    assert d[..4][..3] == d[..3] && d[..3][..2] == d[..2] && d[..2][..1] == d[..1];
    assert d[..1][..0] == [];
    assert DecimalValue(d[..1]) == DigitValue(d[0]);
    assert DecimalValue(d[..2]) == 10 * DecimalValue(d[..1]) + DigitValue(d[1]);
    assert DecimalValue(d[..3]) == 10 * DecimalValue(d[..2]) + DigitValue(d[2]);
    assert DecimalValue(d[..4]) == 10 * DecimalValue(d[..3]) + DigitValue(d[3]);
    assert DecimalValue(d) == 10 * DecimalValue(d[..4]) + DigitValue(d[4]);
  }

  /** A five-digit suffix text is read to the end, with the digits' value. */
  lemma FiveDigitSuffix(d: string)
    requires |d| == 5 && AllDigits(d)
    ensures ParseSuffixSpec(d) == Suffix(DecimalValue(d) > 0, DecimalValue(d))
    ensures DecimalValue(d) ==
              10000 * DigitValue(d[0]) + 1000 * DigitValue(d[1]) + 100 * DigitValue(d[2])
              + 10 * DigitValue(d[3]) + DigitValue(d[4])
  {
    FiveDigits(d);
    SuffixShape([], d);
    assert [] + d == d;
  }

  /** "HCR 0046" is valid with chamber "H", type "CR" and suffix 46. */
  lemma ParseCapsWithSpace(s: string)
    requires s == "HCR 0046"
    ensures ParseIdSpec(Some(s)) == Some(BillParts("H", "CR", 46))
  {
    assert s == "H" + "CR" + " 0046";
    assert ContainsIgnoreCase(ChamberSet, "H") by { assert Upper("H") == "H"; }
    assert ContainsIgnoreCase(TypeSet, "CR") by { assert Upper("CR") == "CR"; }
    assert ParseSuffixSpec(" 0046") == Suffix(true, 46) by {
      assert DecimalValue("0046") == 46 by {
        assert "0046"[..3] == "004" && "004"[..2] == "00" && "00"[..1] == "0" && "0"[..0] == "";
      }
      SuffixShape(" ", "0046");
      assert " " + "0046" == " 0046";
    }
    ParseTokens("H", "CR", " 0046");
  }

  /** Its forms are "HCR00046" and "HCR 46". */
  lemma FormsCapsWithSpace()
    ensures LongForm(BillParts("H", "CR", 46)) == "HCR00046"
    ensures ShortForm(BillParts("H", "CR", 46)) == "HCR 46"
  {
    var p := BillParts("H", "CR", 46);
    LongFormParts(p);
    ShortFormParts(p);
    NoLowerCase("H");
    NoLowerCase("CR");
    assert Decimal(46) == "46";
    assert Zeros(3) == "000";
  }

  /** "sr00768" is valid; chamber and type keep their lower case. */
  lemma ParseNoCapsNoSpace(s: string)
    requires s == "sr00768"
    ensures ParseIdSpec(Some(s)) == Some(BillParts("s", "r", 768))
  {
    assert s == "s" + "r" + "00768";
    assert ContainsIgnoreCase(ChamberSet, "s") by { assert Upper("s") == "S"; }
    assert ContainsIgnoreCase(TypeSet, "r") by { assert Upper("r") == "R"; }
    assert ParseSuffixSpec("00768") == Suffix(true, 768) by {
      FiveDigitSuffix("00768");
    }
    ParseTokens("s", "r", "00768");
  }

  /** Its forms are "SR00768" and "SR 768". */
  lemma FormsNoCapsNoSpace()
    ensures LongForm(BillParts("s", "r", 768)) == "SR00768"
    ensures ShortForm(BillParts("s", "r", 768)) == "SR 768"
  {
    var p := BillParts("s", "r", 768);
    LongFormParts(p);
    ShortFormParts(p);
    assert Upper("s") == "S" && Upper("r") == "R";
    assert Decimal(768) == "768";
    assert Zeros(2) == "00";
  }

  /** "sr99999", the largest suffix, is valid. */
  lemma ParseMaximumSuffix(s: string)
    requires s == "sr99999"
    ensures ParseIdSpec(Some(s)) == Some(BillParts("s", "r", 99999))
  {
    assert s == "s" + "r" + "99999";
    assert ContainsIgnoreCase(ChamberSet, "s") by { assert Upper("s") == "S"; }
    assert ContainsIgnoreCase(TypeSet, "r") by { assert Upper("r") == "R"; }
    assert ParseSuffixSpec("99999") == Suffix(true, 99999) by {
      FiveDigitSuffix("99999");
    }
    ParseTokens("s", "r", "99999");
  }

  /** Its forms are "SR99999" and "SR 99999". */
  lemma FormsMaximumSuffix()
    ensures LongForm(BillParts("s", "r", 99999)) == "SR99999"
    ensures ShortForm(BillParts("s", "r", 99999)) == "SR 99999"
  {
    var p := BillParts("s", "r", 99999);
    LongFormParts(p);
    ShortFormParts(p);
    assert Upper("s") == "S" && Upper("r") == "R";
    assert Decimal(99999) == "99999";
    assert Zeros(0) == "";
  }

  /** "sJr00003", in mixed case, is valid. */
  lemma ParseMixedCase(s: string)
    requires s == "sJr00003"
    ensures ParseIdSpec(Some(s)) == Some(BillParts("s", "Jr", 3))
  {
    assert s == "s" + "Jr" + "00003";
    assert ContainsIgnoreCase(ChamberSet, "s") by { assert Upper("s") == "S"; }
    assert ContainsIgnoreCase(TypeSet, "Jr") by { assert Upper("Jr") == "JR"; }
    assert ParseSuffixSpec("00003") == Suffix(true, 3) by {
      FiveDigitSuffix("00003");
    }
    ParseTokens("s", "Jr", "00003");
  }

  /** Its forms are "SJR00003" and "SJR 3". */
  lemma FormsMixedCase()
    ensures LongForm(BillParts("s", "Jr", 3)) == "SJR00003"
    ensures ShortForm(BillParts("s", "Jr", 3)) == "SJR 3"
  {
    var p := BillParts("s", "Jr", 3);
    LongFormParts(p);
    ShortFormParts(p);
    assert Upper("s") == "S" && Upper("Jr") == "JR";
    assert Decimal(3) == "3";
    assert Zeros(4) == "0000";
  }

  /** "scr00000" is invalid: the suffix is all zeros. */
  lemma ZeroSuffixInvalid(s: string)
    requires s == "scr00000"
    ensures ParseIdSpec(Some(s)) == None
  {
    assert s == "s" + "cr" + "00000";
    assert ContainsIgnoreCase(ChamberSet, "s") by { assert Upper("s") == "S"; }
    assert ContainsIgnoreCase(TypeSet, "cr") by { assert Upper("cr") == "CR"; }
    assert ParseSuffixSpec("00000") == Suffix(false, 0) by {
      SuffixAllZeros("00000");
    }
    ParseTokens("s", "cr", "00000");
  }

  /** "sr000030" is invalid: six digits. */
  lemma SixDigitsInvalid(s: string)
    requires s == "sr000030"
    ensures ParseIdSpec(Some(s)) == None
  {
    assert s == "s" + "r" + "000030";
    assert ContainsIgnoreCase(ChamberSet, "s") by { assert Upper("s") == "S"; }
    assert ContainsIgnoreCase(TypeSet, "r") by { assert Upper("r") == "R"; }
    assert ParseSuffixSpec("000030") == Suffix(false, -1) by {
      assert "000030"[0..6] == "000030";
      SuffixTooManyDigits("000030", 0);
    }
    ParseTokens("s", "r", "000030");
  }

  /** "sr  00003" is invalid: two blanks before the digits. */
  lemma TwoBlanksInvalid(s: string)
    requires s == "sr  00003"
    ensures ParseIdSpec(Some(s)) == None
  {
    assert s == "s" + "r" + "  00003";
    assert ContainsIgnoreCase(ChamberSet, "s") by { assert Upper("s") == "S"; }
    assert ContainsIgnoreCase(TypeSet, "r") by { assert Upper("r") == "R"; }
    assert ParseSuffixSpec("  00003") == Suffix(false, -1) by {
      SuffixLateWhiteSpace("  00003", 1);
    }
    ParseTokens("s", "r", "  00003");
  }

  /** "sr0 0003" is invalid: a blank after a digit. */
  lemma BlankInDigitsInvalid(s: string)
    requires s == "sr0 0003"
    ensures ParseIdSpec(Some(s)) == None
  {
    assert s == "s" + "r" + "0 0003";
    assert ContainsIgnoreCase(ChamberSet, "s") by { assert Upper("s") == "S"; }
    assert ContainsIgnoreCase(TypeSet, "r") by { assert Upper("r") == "R"; }
    assert ParseSuffixSpec("0 0003") == Suffix(false, -1) by {
      SuffixLateWhiteSpace("0 0003", 1);
    }
    ParseTokens("s", "r", "0 0003");
  }

  /** "sr} 00003" is invalid: a character that is neither digit nor blank. */
  lemma InvalidCharacterInvalid(s: string)
    requires s == "sr} 00003"
    ensures ParseIdSpec(Some(s)) == None
  {
    assert s == "s" + "r" + "} 00003";
    assert ContainsIgnoreCase(ChamberSet, "s") by { assert Upper("s") == "S"; }
    assert ContainsIgnoreCase(TypeSet, "r") by { assert Upper("r") == "R"; }
    assert ParseSuffixSpec("} 00003") == Suffix(false, -1) by {
      SuffixForeignChar("} 00003", 0);
    }
    ParseTokens("s", "r", "} 00003");
  }

  /** "scr" is invalid: "cr" is the whole rest, and the whole rest is never tried as a token. */
  lemma NoSuffixInvalid(s: string)
    requires s == "scr"
    ensures ParseIdSpec(Some(s)) == None
  {
    assert Trim(s) == s by { TrimNoop(s); }
    ChamberHead(s);
    TypeHead(s[1..]);
  }

  /** "s r00003" is invalid: the head matcher does not skip blanks. */
  lemma BlankInHeadInvalid(s: string)
    requires s == "s r00003"
    ensures ParseIdSpec(Some(s)) == None
  {
    assert Trim(s) == s by { TrimNoop(s); }
    ChamberHead(s);
    TypeHead(s[1..]);
  }

  /** "rs 00003" is invalid: the type cannot come before the chamber. */
  lemma FlippedChamberTypeInvalid(s: string)
    requires s == "rs 00003"
    ensures ParseIdSpec(Some(s)) == None
  {
    assert Trim(s) == s by { TrimNoop(s); }
    ChamberHead(s);
  }

  /** "" and null are invalid. */
  lemma EmptyAndNullInvalid()
    ensures ParseIdSpec(Some("")) == None
    ensures ParseIdSpec(None) == None
  {
    EmptyInputsInvalid("");
  }

  /** A bill built from "HCR 0046" is valid and renders as "HCR00046" and "HCR 46". */
  method CapsWithSpaceBill() returns (valid: bool, long: Result<string, InvalidBillNumberException>,
                                      short: Result<string, InvalidBillNumberException>)
    ensures valid && long == Success("HCR00046") && short == Success("HCR 46")
  {
    var bill := new BillNumber(Some("HCR 0046"));
    ParseCapsWithSpace("HCR 0046");
    FormsCapsWithSpace();
    valid := bill.IsValid;
    long := bill.BillNumberLong();
    short := bill.BillNumberShort();
  }

  /** A bill built from "scr00000" is invalid, and both formatters fail with the fixed message. */
  method ZeroSuffixBill() returns (valid: bool, long: Result<string, InvalidBillNumberException>,
                                   short: Result<string, InvalidBillNumberException>)
    ensures !valid
    ensures long == Failure(InvalidBillNumberException("Bill number is invalid"))
    ensures short == Failure(InvalidBillNumberException("Bill number is invalid"))
  {
    var bill := new BillNumber(Some("scr00000"));
    ZeroSuffixInvalid("scr00000");
    valid := bill.IsValid;
    long := bill.BillNumberLong();
    short := bill.BillNumberShort();
  }

  /** A bill built from null is invalid, and both formatters fail with the fixed message. */
  method NullBill() returns (valid: bool, long: Result<string, InvalidBillNumberException>,
                             short: Result<string, InvalidBillNumberException>)
    ensures !valid
    ensures long == Failure(InvalidBillNumberException("Bill number is invalid"))
    ensures short == Failure(InvalidBillNumberException("Bill number is invalid"))
  {
    var bill := new BillNumber(None);
    valid := bill.IsValid;
    long := bill.BillNumberLong();
    short := bill.BillNumberShort();
  }
}
