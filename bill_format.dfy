/** The two canonical renderings of a bill identifier, with their shape and
    the round trip back through the parser. */
module BillFormat {
  import opened Wrappers
  import opened Text
  import opened BillGrammar

  /** The width of the zero-padded suffix in the long form. */
  const LongWidth: nat := 5

  /** How many zeros pad `digits` to LongWidth (none when it is already as wide). */
  function PadCount(digits: string): nat {
    if |digits| < LongWidth then LongWidth - |digits| else 0
  }

  /** Long form: chamber, type and the suffix zero-padded to five digits, upper-cased. */
  function LongForm(p: BillParts): string {
    var digits := IntToString(p.suffix);
    Upper(p.chamber + p.billType + Zeros(PadCount(digits)) + digits)
  }

  /** Short form: chamber, type, one space and the plain suffix, upper-cased. */
  function ShortForm(p: BillParts): string {
    Upper(p.chamber + p.billType + " " + IntToString(p.suffix))
  }

  /** The upper-cased rendering of a valid suffix: its shortest digit string. */
  lemma SuffixDigits(n: int)
    requires 1 <= n <= 99999
    ensures IntToString(n) == Decimal(n)
    ensures 1 <= |Decimal(n)| <= LongWidth && AllDigits(Decimal(n))
    ensures Upper(Decimal(n)) == Decimal(n)
    ensures DecimalValue(Decimal(n)) == n && Decimal(n)[0] != '0'
  {
    DecimalRoundTrip(n);
    DecimalLength(n, LongWidth);
    UpperDigits(Decimal(n));
  }

  /** The long form is the upper-cased tokens, the padding zeros and the digits. */
  lemma LongFormParts(p: BillParts)
    requires 1 <= p.suffix <= 99999
    ensures LongForm(p) ==
              Upper(p.chamber) + Upper(p.billType) + (Zeros(PadCount(Decimal(p.suffix))) + Decimal(p.suffix))
  {
    var d := Decimal(p.suffix);
    SuffixDigits(p.suffix);
    var z := Zeros(PadCount(d));
    UpperDigits(z);
    UpperAppend(p.chamber + p.billType + z, d);
    UpperAppend(p.chamber + p.billType, z);
    UpperAppend(p.chamber, p.billType);
  }

  /** The long form of a valid identifier is the upper-cased chamber and type
      followed by exactly five digits that read back as the suffix. */
  lemma LongFormShape(p: BillParts)
    requires ValidParts(p)
    ensures var r, h := LongForm(p), |p.chamber| + |p.billType|;
      && |r| == h + LongWidth
      && r[..h] == Upper(p.chamber) + Upper(p.billType)
      && AllDigits(r[h..])
      && DecimalValue(r[h..]) == p.suffix
  {
    var d := Decimal(p.suffix);
    SuffixDigits(p.suffix);
    var tail := Zeros(PadCount(d)) + d;
    LeadingZeros(PadCount(d), d);
    LongFormParts(p);
    var head := Upper(p.chamber) + Upper(p.billType);
    assert LongForm(p) == head + tail;
    assert (head + tail)[|head|..] == tail && (head + tail)[..|head|] == head;
  }

  /** The short form is the upper-cased tokens, a space and the digits. */
  lemma ShortFormParts(p: BillParts)
    requires 1 <= p.suffix <= 99999
    ensures ShortForm(p) == Upper(p.chamber) + Upper(p.billType) + (" " + Decimal(p.suffix))
  {
    var d := Decimal(p.suffix);
    SuffixDigits(p.suffix);
    UpperAppend(p.chamber + p.billType + " ", d);
    UpperAppend(p.chamber + p.billType, " ");
    UpperAppend(p.chamber, p.billType);
  }

  /** The short form of a valid identifier is the upper-cased chamber and type,
      one space (its only white space) and the suffix without leading zeros. */
  lemma ShortFormShape(p: BillParts)
    requires ValidParts(p)
    ensures var r, h := ShortForm(p), |p.chamber| + |p.billType|;
      && r == Upper(p.chamber) + Upper(p.billType) + (" " + Decimal(p.suffix))
      && (forall i :: 0 <= i < |r| ==> (IsWhiteSpace(r[i]) <==> i == h))
      && r[h + 1] != '0'
      && AllDigits(r[h + 1..])
      && DecimalValue(r[h + 1..]) == p.suffix
  {
    SuffixDigits(p.suffix);
    ShortFormParts(p);
    TokenChars(ChamberSet, p.chamber);
    TokenChars(TypeSet, p.billType);
    SingleBlank(Upper(p.chamber), Upper(p.billType), Decimal(p.suffix));
  }

  /** Upper-case letters, a space and digits: the space is the only blank and
      the digits follow it. */
  lemma SingleBlank(c: string, ty: string, d: string)
    requires forall i :: 0 <= i < |c| ==> 'A' <= c[i] <= 'Z'
    requires forall i :: 0 <= i < |ty| ==> 'A' <= ty[i] <= 'Z'
    requires AllDigits(d)
    ensures var r := c + ty + (" " + d);
      && (forall i :: 0 <= i < |r| ==> (IsWhiteSpace(r[i]) <==> i == |c| + |ty|))
      && r[|c| + |ty| + 1..] == d
  {
    var r := c + ty + (" " + d);
    var h := |c| + |ty|;
    assert r[h + 1..] == d;
    forall i | 0 <= i < |r|
      ensures IsWhiteSpace(r[i]) <==> i == h
    {
      if i < |c| {
        assert r[i] == c[i];
      } else if i < h {
        assert r[i] == ty[i - |c|];
      } else if i > h {
        assert r[i] == d[i - h - 1];
      }
    }
  }

  /** A rendering whose suffix text the scanner accepts with the suffix as
      value parses back to the upper-cased parts. */
  lemma ParseRendering(p: BillParts, tail: string)
    requires ValidParts(p)
    requires tail != [] && !IsWhiteSpace(tail[|tail| - 1])
    requires ParseSuffixSpec(tail) == Suffix(true, p.suffix)
    ensures ParseIdSpec(Some(Upper(p.chamber) + Upper(p.billType) + tail)) == Some(UpperParts(p))
  {
    UpperUpper(p.chamber);
    UpperUpper(p.billType);
    ParseTokens(Upper(p.chamber), Upper(p.billType), tail);
  }

  /** Parsing the long form of a valid identifier gives back its parts, upper-cased. */
  lemma ParseLongForm(p: BillParts)
    requires ValidParts(p)
    ensures ParseIdSpec(Some(LongForm(p))) == Some(UpperParts(p))
  {
    var d := Decimal(p.suffix);
    SuffixDigits(p.suffix);
    var tail := Zeros(PadCount(d)) + d;
    LeadingZeros(PadCount(d), d);
    LongFormParts(p);
    SuffixShape([], tail);
    assert [] + tail == tail;
    ParseRendering(p, tail);
  }

  /** Parsing the short form of a valid identifier gives back its parts, upper-cased. */
  lemma ParseShortForm(p: BillParts)
    requires ValidParts(p)
    ensures ParseIdSpec(Some(ShortForm(p))) == Some(UpperParts(p))
  {
    var d := Decimal(p.suffix);
    SuffixDigits(p.suffix);
    ShortFormParts(p);
    SuffixShape(" ", d);
    var tail := " " + d;
    assert tail[|tail| - 1] == d[|d| - 1];
    ParseRendering(p, tail);
  }

  /** The renderings do not depend on the case in which chamber and type were written. */
  lemma FormsIgnoreCase(p: BillParts)
    ensures LongForm(UpperParts(p)) == LongForm(p)
    ensures ShortForm(UpperParts(p)) == ShortForm(p)
  {
    var digits := IntToString(p.suffix);
    var z := Zeros(PadCount(digits));
    UpperAppend(p.chamber, p.billType);
    UpperAppend(Upper(p.chamber) + Upper(p.billType) + z, digits);
    UpperAppend(Upper(p.chamber) + Upper(p.billType), z);
    UpperAppend(p.chamber + p.billType + z, digits);
    UpperAppend(p.chamber + p.billType, z);
    UpperAppend(Upper(p.chamber) + Upper(p.billType) + " ", digits);
    UpperAppend(Upper(p.chamber) + Upper(p.billType), " ");
    UpperAppend(p.chamber + p.billType + " ", digits);
    UpperAppend(p.chamber + p.billType, " ");
    UpperUpper(p.chamber);
    UpperUpper(p.billType);
  }
}
