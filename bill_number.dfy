/** The bill-number object: a parser that scans its input step by step, and
    an immutable object built from one parse that renders the identifier in
    its long and short forms. */
module BillNumbers {
  import opened Wrappers
  import opened Text
  import opened BillGrammar
  import opened BillFormat

  /** The message every formatting failure carries. */
  const InvalidMessage: string := "Bill number is invalid"

  /** Thrown by the formatters on an identifier that did not parse. */
  datatype InvalidBillNumberException = InvalidBillNumberException(message: string)

  /** Matches the shortest proper prefix of `id` that is in `tokens`, trying
      lengths 0, 1, ... up to |id| - 1. On success the token and the rest are
      returned; on failure the token is null (None) and the rest is `id`. */
  method ParseHead(id: string, tokens: set<string>) returns (found: bool, token: Option<string>, trimmedId: string)
    ensures found <==> HeadSplit(id, tokens).Some?
    ensures found ==> token == Some(HeadSplit(id, tokens).value.0) && trimmedId == HeadSplit(id, tokens).value.1
    ensures found ==> token.value + trimmedId == id && trimmedId != [] && ContainsIgnoreCase(tokens, token.value)
    ensures !found ==> token == None && trimmedId == id
    ensures !found ==> forall q :: 0 <= q < |id| ==> !ContainsIgnoreCase(tokens, id[..q])
  {
    token := None;
    trimmedId := id;
    for pointer := 0 to |id|
      invariant FirstMatch(id, tokens, pointer) == FirstMatch(id, tokens, 0)
    {
      var temp := id[..pointer];
      if ContainsIgnoreCase(tokens, temp) {
        token := Some(temp);
        trimmedId := id[pointer..];
        return true, token, trimmedId;
      }
    }
    found := false;
  }

  /** The suffix scanner: at most one white-space character, only before the
      first digit; at most five digits; anything else rejects. The digits are
      then parsed, and the suffix must be positive. */
  method ParseSuffix(id: string) returns (r: SuffixResult)
    ensures r == ParseSuffixSpec(id)
  {
    var maxWhiteSpaceCount := 1;
    var maxDigitCount := MaxDigits;
    var foundDigit := false;
    var tempSuffix := "";
    for i := 0 to |id|
      invariant ScanAccepts(id[..i])
      invariant tempSuffix == id[..i][LeadLen(id[..i])..]
      invariant maxDigitCount == MaxDigits - |tempSuffix|
      invariant foundDigit <==> tempSuffix != []
      invariant maxWhiteSpaceCount == 1 - LeadLen(id[..i])
    {
      var letter := id[i];
      assert id[..i + 1] == id[..i] + [letter];
      if IsDigit(letter) && maxDigitCount > 0 {
        tempSuffix := tempSuffix + [letter];
        foundDigit := true;
        maxDigitCount := maxDigitCount - 1;
        assert i > 0 ==> LeadLen(id[..i + 1]) == LeadLen(id[..i]);
        assert id[..i + 1][LeadLen(id[..i + 1])..] == id[..i][LeadLen(id[..i])..] + [letter];
      } else if IsWhiteSpace(letter) && !foundDigit && maxWhiteSpaceCount > 0 {
        maxWhiteSpaceCount := maxWhiteSpaceCount - 1;
        assert i == 0;
      } else {
        var k := LeadLen(id[..i + 1]);
        assert i > 0 ==> k == LeadLen(id[..i]);
        assert !ScanAccepts(id[..i + 1]) by {
          if |id[..i + 1]| - k <= MaxDigits {
            assert id[..i + 1][k..][i - k] == letter;
          }
        }
        return Suffix(false, -1);
      }
    }
    assert id[..|id|] == id;
    if tempSuffix == [] {
      return FormatFailure;
    }
    var suffix := DecimalValue(tempSuffix);
    r := Suffix(suffix > 0, suffix);
  }

  /** Parses an identifier: null is rejected, the rest is trimmed, then the
      chamber, the type and the suffix are read in turn. On success the
      out-parameters hold the tokens as written and the suffix's value. */
  method ParseId(id: Option<string>) returns (valid: bool, chamber: Option<string>, billType: Option<string>, suffix: int)
    ensures valid <==> ParseIdSpec(id).Some?
    ensures valid ==> chamber.Some? && billType.Some?
    ensures valid ==> BillParts(chamber.value, billType.value, suffix) == ParseIdSpec(id).value
  {
    chamber, billType, suffix := None, None, -1;
    if id.None? {
      return false, chamber, billType, suffix;
    }
    var modifiedId := Trim(id.value);
    var found;
    found, chamber, modifiedId := ParseHead(modifiedId, ChamberSet);
    if !found {
      return false, chamber, billType, suffix;
    }
    found, billType, modifiedId := ParseHead(modifiedId, TypeSet);
    if !found {
      return false, chamber, billType, suffix;
    }
    ParseIdNeverThrows(id.value);
    var parsed := ParseSuffix(modifiedId);
    match parsed
    case FormatFailure =>
      assert false;
    case Suffix(ok, n) =>
      suffix := n;
      valid := ok;
  }

  /** A bill identifier. The validity flag and the parts are fixed by the
      constructor's single parse; the chamber and type keep the input's case. */
  class BillNumber {
    const chamber: Option<string>
    const billType: Option<string>
    const suffix: int
    const IsValid: bool

    /** A valid identifier has both tokens and parts the formatters accept. */
    ghost predicate Valid() {
      IsValid ==> chamber.Some? && billType.Some? && ValidParts(BillParts(chamber.value, billType.value, suffix))
    }

    /** The parts of a valid identifier. */
    function Parts(): BillParts
      requires IsValid && chamber.Some? && billType.Some?
    {
      BillParts(chamber.value, billType.value, suffix)
    }

    constructor (id: Option<string>)
      ensures Valid()
      ensures IsValid <==> ParseIdSpec(id).Some?
      ensures IsValid ==> Parts() == ParseIdSpec(id).value
    {
      var valid, c, t, n := ParseId(id);
      chamber, billType, suffix, IsValid := c, t, n, valid;
      if valid {
        ParsedShape(id.value);
      }
    }

    /** Fails with the fixed message exactly when the identifier is invalid. */
    function CheckValid(): (r: Result<(), InvalidBillNumberException>)
      ensures r.Failure? <==> !IsValid
      ensures r.Failure? ==> r.error.message == "Bill number is invalid"
    {
      if !IsValid then Failure(InvalidBillNumberException(InvalidMessage)) else Success(())
    }

    /** The long form: upper-cased chamber and type, then the suffix padded
        with zeros to five digits. */
    method BillNumberLong() returns (r: Result<string, InvalidBillNumberException>)
      requires Valid()
      ensures r.Failure? <==> !IsValid
      ensures r.Failure? ==> r.error == InvalidBillNumberException(InvalidMessage)
      ensures r.Success? ==> r.value == LongForm(Parts())
      ensures r.Success? ==> |r.value| == |chamber.value| + |billType.value| + LongWidth
      ensures r.Success? ==> var h := |chamber.value| + |billType.value|;
                AllDigits(r.value[h..]) && DecimalValue(r.value[h..]) == suffix
    {
      var check := CheckValid();
      if check.Failure? {
        return Failure(check.error);
      }
      var suffixStr := IntToString(suffix);
      var zeros := "";
      var leadingZeros := LongWidth - |suffixStr|;
      var count := 0;
      while count < leadingZeros
        invariant 0 <= count <= PadCount(suffixStr)
        invariant zeros == Zeros(count)
      {
        zeros := zeros + "0";
        count := count + 1;
      }
      assert zeros == Zeros(PadCount(suffixStr));
      var id := chamber.value + billType.value + zeros + suffixStr;
      r := Success(Upper(id));
      LongFormShape(Parts());
    }

    /** The short form: upper-cased chamber and type, one space, the suffix. */
    function BillNumberShort(): (r: Result<string, InvalidBillNumberException>)
      requires Valid()
      ensures r.Failure? <==> !IsValid
      ensures r.Failure? ==> r.error == InvalidBillNumberException(InvalidMessage)
      ensures r.Success? ==> r.value == ShortForm(Parts())
      ensures r.Success? ==> var h := |chamber.value| + |billType.value|;
                && r.value[..h] == Upper(chamber.value) + Upper(billType.value)
                && r.value[h..] == " " + Decimal(suffix)
    {
      match CheckValid()
      case Failure(e) => Failure(e)
      case Success(_) =>
        var id := chamber.value + billType.value + " " + IntToString(suffix);
        ShortFormShape(Parts());
        Success(Upper(id))
    }
  }

  /** Formatting reads only the fixed fields, so repeating it repeats the result. */
  method FormatTwice(b: BillNumber)
    returns (long1: Result<string, InvalidBillNumberException>, long2: Result<string, InvalidBillNumberException>,
             short1: Result<string, InvalidBillNumberException>, short2: Result<string, InvalidBillNumberException>)
    requires b.Valid()
    ensures long1 == long2 && short1 == short2
    ensures long1.Failure? <==> !b.IsValid
    ensures short1.Failure? <==> !b.IsValid
  {
    long1 := b.BillNumberLong();
    short1 := b.BillNumberShort();
    long2 := b.BillNumberLong();
    short2 := b.BillNumberShort();
  }
}
