/** The grammar of a bill identifier, as pure specification functions: the
    case-insensitive shortest-prefix head matcher, the suffix scanner and the
    whole identifier parser, with the properties the parser promises. */
module BillGrammar {
  import opened Wrappers
  import opened Text

  /** The chambers (House, Senate). */
  const ChamberSet: set<string> := {"H", "S"}
  /** The bill types (bill, resolution, concurrent resolution, joint resolution). */
  const TypeSet: set<string> := {"B", "R", "CR", "JR"}
  /** The most digits the suffix may have, leading zeros included. */
  const MaxDigits: nat := 5

  /** Membership under an ordinal ignore-case comparer. Both sets hold only
      upper-case ASCII strings, so a string is a member exactly when its
      upper-cased form is one. */
  predicate ContainsIgnoreCase(tokens: set<string>, t: string) {
    Upper(t) in tokens
  }

  /** The parts of a parsed identifier; chamber and type keep the case of the input. */
  datatype BillParts = BillParts(chamber: string, billType: string, suffix: int)

  /** The parts as the formatters see them: what a valid identifier always satisfies. */
  predicate ValidParts(p: BillParts) {
    ContainsIgnoreCase(ChamberSet, p.chamber) && ContainsIgnoreCase(TypeSet, p.billType)
    && 1 <= p.suffix <= 99999
  }

  function UpperParts(p: BillParts): BillParts {
    BillParts(Upper(p.chamber), Upper(p.billType), p.suffix)
  }

  // ---------------------------------------------------------------- head tokens

  /** The shortest length q, with p <= q < |s|, whose prefix s[..q] is in `tokens`. */
  function FirstMatch(s: string, tokens: set<string>, p: nat): (r: Option<nat>)
    requires p <= |s|
    ensures r.Some? ==> p <= r.value < |s| && ContainsIgnoreCase(tokens, s[..r.value])
    ensures r.Some? ==> forall q :: p <= q < r.value ==> !ContainsIgnoreCase(tokens, s[..q])
    ensures r.None? ==> forall q :: p <= q < |s| ==> !ContainsIgnoreCase(tokens, s[..q])
    decreases |s| - p
  {
    if p == |s| then None
    else if ContainsIgnoreCase(tokens, s[..p]) then Some(p)
    else FirstMatch(s, tokens, p + 1)
  }

  /** Splits `s` into the shortest proper prefix that is in `tokens` and the
      rest. The whole of `s` is never tried, so the rest is never empty. */
  function HeadSplit(s: string, tokens: set<string>): (r: Option<(string, string)>)
    ensures r.Some? ==> r.value.0 + r.value.1 == s && |r.value.1| > 0
    ensures r.Some? ==> ContainsIgnoreCase(tokens, r.value.0)
    ensures r.Some? ==> forall q :: 0 <= q < |r.value.0| ==> !ContainsIgnoreCase(tokens, s[..q])
    ensures r.None? <==> forall q :: 0 <= q < |s| ==> !ContainsIgnoreCase(tokens, s[..q])
  {
    match FirstMatch(s, tokens, 0)
    case None => None
    case Some(p) =>
      assert s[..p] + s[p..] == s;
      Some((s[..p], s[p..]))
  }

  /** No prefix longer than every member of `tokens` can match. */
  lemma NoLongMatch(s: string, tokens: set<string>, p: nat, longest: nat)
    requires p <= |s| && longest < p
    requires forall t :: t in tokens ==> |t| <= longest
    ensures FirstMatch(s, tokens, p) == None
  {
  }

  /** The chamber matcher takes exactly the first character, and only when it is
      an H or S (either case) followed by something more. */
  lemma {:induction false} ChamberHead(s: string)
    ensures HeadSplit(s, ChamberSet) ==
              if |s| >= 2 && UpperChar(s[0]) in {'H', 'S'} then Some((s[..1], s[1..])) else None
  {
    assert Upper(s[..0]) == [];
    if |s| >= 2 {
      assert Upper(s[..1]) == [UpperChar(s[0])];
      NoLongMatch(s, ChamberSet, 2, 1);
    }
  }

  /** The type matcher tries one character (B, R) before two (CR, JR); since no
      member is a prefix of another, the shortest match is the only one. */
  lemma {:induction false} TypeHead(s: string)
    ensures HeadSplit(s, TypeSet) ==
              if |s| >= 2 && UpperChar(s[0]) in {'B', 'R'} then Some((s[..1], s[1..]))
              else if |s| >= 3 && UpperChar(s[0]) in {'C', 'J'} && UpperChar(s[1]) == 'R'
              then Some((s[..2], s[2..]))
              else None
  {
    assert Upper(s[..0]) == [];
    if |s| >= 2 {
      assert Upper(s[..1]) == [UpperChar(s[0])];
    }
    if |s| >= 3 {
      assert Upper(s[..2]) == [UpperChar(s[0]), UpperChar(s[1])];
      NoLongMatch(s, TypeSet, 3, 2);
    }
  }

  lemma {:induction false} FirstMatchUpper(s: string, tokens: set<string>, p: nat)
    requires p <= |s|
    ensures FirstMatch(Upper(s), tokens, p) == FirstMatch(s, tokens, p)
    decreases |s| - p
  {
    if p < |s| {
      assert Upper(Upper(s)[..p]) == Upper(s[..p]);
      FirstMatchUpper(s, tokens, p + 1);
    }
  }

  /** Matching a head token is insensitive to the case of the input. */
  lemma HeadSplitUpper(s: string, tokens: set<string>)
    ensures HeadSplit(Upper(s), tokens) ==
              match HeadSplit(s, tokens)
              case None => None
              case Some((token, rest)) => Some((Upper(token), Upper(rest)))
  {
    FirstMatchUpper(s, tokens, 0);
    match FirstMatch(s, tokens, 0)
    case None =>
    case Some(p) =>
      assert Upper(s)[..p] == Upper(s[..p]) && Upper(s)[p..] == Upper(s[p..]);
  }

  // ---------------------------------------------------------------- suffix

  /** 1 when the suffix starts with its one permitted white-space character, else 0. */
  function LeadLen(s: string): (k: nat)
    ensures k <= 1 && k <= |s|
  {
    if |s| > 0 && IsWhiteSpace(s[0]) then 1 else 0
  }

  /** The scanner reads every character of `s`: an optional single white-space
      character, then at most MaxDigits digits and nothing else. */
  predicate ScanAccepts(s: string) {
    AllDigits(s[LeadLen(s)..]) && |s| - LeadLen(s) <= MaxDigits
  }

  /** What parsing the suffix yields: `Suffix(ok, value)` is the boolean result
      together with the out-parameter; `FormatFailure` stands for the exception
      Int32.Parse throws on an empty digit string. */
  datatype SuffixResult = Suffix(ok: bool, value: int) | FormatFailure

  /** The suffix scanner: a rejected character gives (false, -1); otherwise the
      collected digits are parsed, and the suffix is accepted when positive. */
  function ParseSuffixSpec(s: string): SuffixResult {
    if !ScanAccepts(s) then Suffix(false, -1)
    else
      var digits := s[LeadLen(s)..];
      if digits == [] then FormatFailure
      else
        var n := DecimalValue(digits);
        Suffix(n > 0, n)
  }

  /** An accepted suffix lies between 1 and 99999. */
  lemma SuffixRange(s: string)
    requires ParseSuffixSpec(s).Suffix? && ParseSuffixSpec(s).ok
    ensures 1 <= ParseSuffixSpec(s).value <= 99999
  {
    DecimalValueBound(s[LeadLen(s)..]);
    assert Pow10(MaxDigits) == 100000;
  }

  /** A string made of at most one white-space character followed by one to
      five digits is read to the end, with the digits' value as result. Other
      strings are rejected, or reach FormatFailure when they hold no digit;
      the lemmas below state the rejections case by case. */
  lemma SuffixShape(w: string, d: string)
    requires |w| <= 1 && (forall i :: 0 <= i < |w| ==> IsWhiteSpace(w[i]))
    requires 1 <= |d| <= MaxDigits && AllDigits(d)
    ensures ParseSuffixSpec(w + d) == Suffix(DecimalValue(d) > 0, DecimalValue(d))
  {
    var s := w + d;
    assert LeadLen(s) == |w|;
    assert s[|w|..] == d;
  }

  /** White space anywhere but at the very start of the suffix rejects it:
      a second white-space character, or one after a digit. */
  lemma SuffixLateWhiteSpace(s: string, j: nat)
    requires 0 < j < |s| && IsWhiteSpace(s[j])
    ensures ParseSuffixSpec(s) == Suffix(false, -1)
  {
    assert s[LeadLen(s)..][j - LeadLen(s)] == s[j];
  }

  /** A character that is neither a digit nor white space rejects the suffix. */
  lemma SuffixForeignChar(s: string, j: nat)
    requires j < |s| && !IsDigit(s[j]) && !IsWhiteSpace(s[j])
    ensures ParseSuffixSpec(s) == Suffix(false, -1)
  {
    assert s[LeadLen(s)..][j - LeadLen(s)] == s[j];
  }

  /** A run of six digits rejects the suffix. */
  lemma SuffixTooManyDigits(s: string, k: nat)
    requires k + MaxDigits + 1 <= |s| && AllDigits(s[k..k + MaxDigits + 1])
    ensures ParseSuffixSpec(s) == Suffix(false, -1)
  {
    assert IsDigit(s[k..k + MaxDigits + 1][0]);
  }

  /** An all-zero digit run is read but rejected, leaving 0 as the value. */
  lemma SuffixAllZeros(d: string)
    requires 1 <= |d| <= MaxDigits && forall i :: 0 <= i < |d| ==> d[i] == '0'
    ensures ParseSuffixSpec(d) == Suffix(false, 0)
  {
    assert d == Zeros(|d|);
    ZerosValue(|d|);
    SuffixShape([], d);
    assert [] + d == d;
  }

  /** A suffix that ends in a non-white-space character never reaches the
      parse of an empty digit string. */
  lemma SuffixNeverThrows(s: string)
    requires s != [] && !IsWhiteSpace(s[|s| - 1])
    ensures ParseSuffixSpec(s).Suffix?
  {
  }

  lemma SuffixUpper(s: string)
    ensures ParseSuffixSpec(Upper(s)) == ParseSuffixSpec(s)
  {
    var k := LeadLen(s);
    assert LeadLen(Upper(s)) == k;
    assert Upper(s)[k..] == Upper(s[k..]);
    if AllDigits(s[k..]) {
      UpperDigits(s[k..]);
    }
  }

  // ---------------------------------------------------------------- identifier

  /** Chamber, type and the remaining suffix text of a trimmed identifier. */
  function Heads(trimmed: string): (r: Option<(string, string, string)>)
    ensures r.Some? ==> r.value.0 + r.value.1 + r.value.2 == trimmed && r.value.2 != []
  {
    match HeadSplit(trimmed, ChamberSet)
    case None => None
    case Some((chamber, afterChamber)) =>
      match HeadSplit(afterChamber, TypeSet)
      case None => None
      case Some((billType, afterType)) => Some((chamber, billType, afterType))
  }

  /** The identifier parser: absent input is invalid; otherwise the input is
      trimmed and must consist of a chamber, a type and a positive suffix. */
  function ParseIdSpec(id: Option<string>): Option<BillParts> {
    if id.None? then None
    else
      match Heads(Trim(id.value))
      case None => None
      case Some((chamber, billType, rest)) =>
        match ParseSuffixSpec(rest)
        case FormatFailure => None
        case Suffix(ok, n) => if ok then Some(BillParts(chamber, billType, n)) else None
  }

  /** Once both head tokens are found, the suffix scan never parses an empty
      digit string: the rest is non-empty and, the input being trimmed, ends
      in a non-white-space character. */
  lemma ParseIdNeverThrows(raw: string)
    requires Heads(Trim(raw)).Some?
    ensures ParseSuffixSpec(Heads(Trim(raw)).value.2).Suffix?
  {
    var t := Trim(raw);
    var (c, ty, rest) := Heads(t).value;
    assert rest[|rest| - 1] == t[|t| - 1];
    SuffixNeverThrows(rest);
  }

  /** Absent, empty and blank inputs are invalid. */
  lemma EmptyInputsInvalid(s: string)
    requires forall i :: 0 <= i < |s| ==> IsWhiteSpace(s[i])
    ensures ParseIdSpec(None) == None
    ensures ParseIdSpec(Some(s)) == None
  {
    BlankTrimsToEmpty(s);
    ChamberHead([]);
  }

  /** A valid identifier is, after trimming, its chamber token, its type token
      and a suffix text the scanner accepts; its parts are valid. */
  lemma ParsedShape(raw: string)
    requires ParseIdSpec(Some(raw)).Some?
    ensures var p := ParseIdSpec(Some(raw)).value;
      && ValidParts(p)
      && Trim(raw)[..|p.chamber| + |p.billType|] == p.chamber + p.billType
      && ParseSuffixSpec(Trim(raw)[|p.chamber| + |p.billType|..]) == Suffix(true, p.suffix)
  {
    var t := Trim(raw);
    var (c, ty, rest) := Heads(t).value;
    assert t[..|c| + |ty|] == c + ty && t[|c| + |ty|..] == rest;
    SuffixRange(rest);
  }

  lemma HeadsUpper(t: string)
    ensures Heads(Upper(t)) ==
              match Heads(t)
              case None => None
              case Some((c, ty, rest)) => Some((Upper(c), Upper(ty), Upper(rest)))
  {
    HeadSplitUpper(t, ChamberSet);
    match HeadSplit(t, ChamberSet)
    case None =>
    case Some((c, afterChamber)) =>
      HeadSplitUpper(afterChamber, TypeSet);
  }

  /** Parsing is case-insensitive: upper-casing the input upper-cases the
      chamber and the type and keeps validity and the suffix. */
  lemma ParseIgnoresCase(raw: string)
    ensures ParseIdSpec(Some(Upper(raw))) ==
              match ParseIdSpec(Some(raw))
              case None => None
              case Some(p) => Some(UpperParts(p))
  {
    var t := Trim(raw);
    TrimUpper(raw);
    HeadsUpper(t);
    match Heads(t)
    case None =>
    case Some((c, ty, rest)) =>
      SuffixUpper(rest);
  }

  /** Two inputs that differ only in letter case parse alike. */
  lemma CaseVariantsAgree(a: string, b: string)
    requires Upper(a) == Upper(b)
    ensures ParseIdSpec(Some(a)).Some? <==> ParseIdSpec(Some(b)).Some?
    ensures ParseIdSpec(Some(a)).Some? ==>
              UpperParts(ParseIdSpec(Some(a)).value) == UpperParts(ParseIdSpec(Some(b)).value)
  {
    ParseIgnoresCase(a);
    ParseIgnoresCase(b);
  }

  /** A head token is one or two characters, none of them white space or a digit. */
  lemma TokenChars(tokens: set<string>, x: string)
    requires tokens == ChamberSet || tokens == TypeSet
    requires ContainsIgnoreCase(tokens, x)
    ensures 1 <= |x| <= 2
    ensures forall i :: 0 <= i < |x| ==> !IsWhiteSpace(x[i]) && !IsDigit(x[i])
    ensures forall i :: 0 <= i < |x| ==> 'A' <= Upper(x)[i] <= 'Z'
  {
    var u := Upper(x);
    assert u in {"H", "S", "B", "R", "CR", "JR"};
    forall i | 0 <= i < |x|
      ensures !IsWhiteSpace(x[i]) && !IsDigit(x[i]) && 'A' <= u[i] <= 'Z'
    {
      assert u[i] == UpperChar(x[i]);
    }
  }

  /** A chamber token, a type token and any non-empty rest are split at the
      token boundaries, whatever the case of the tokens. */
  lemma HeadsOfTokens(c: string, ty: string, rest: string)
    requires ContainsIgnoreCase(ChamberSet, c) && ContainsIgnoreCase(TypeSet, ty) && rest != []
    ensures Heads(c + ty + rest) == Some((c, ty, rest))
  {
    TokenChars(ChamberSet, c);
    TokenChars(TypeSet, ty);
    var s := c + ty + rest;
    assert Upper(c) in {"H", "S"};
    assert |c| == 1 && Upper(c) == [UpperChar(c[0])];
    ChamberHead(s);
    assert s[0] == c[0];
    assert s[..1] == c && s[1..] == ty + rest;
    var s1 := ty + rest;
    TypeHead(s1);
    assert Upper(ty) in {"B", "R", "CR", "JR"};
    if |ty| == 1 {
      assert Upper(ty) == [UpperChar(s1[0])];
      assert s1[..1] == ty && s1[1..] == rest;
    } else {
      assert Upper(ty) == [UpperChar(s1[0]), UpperChar(s1[1])];
      assert s1[..2] == ty && s1[2..] == rest;
    }
  }

  /** Conversely to ParsedShape: a trimmed input made of a chamber token, a
      type token and a suffix text the scanner accepts is valid exactly when
      the suffix is positive, with these tokens and that value. */
  lemma ParseTokens(c: string, ty: string, rest: string)
    requires ContainsIgnoreCase(ChamberSet, c) && ContainsIgnoreCase(TypeSet, ty)
    requires rest != [] && !IsWhiteSpace(rest[|rest| - 1])
    ensures ParseIdSpec(Some(c + ty + rest)) ==
              match ParseSuffixSpec(rest)
              case Suffix(true, n) => Some(BillParts(c, ty, n))
              case _ => None
  {
    var s := c + ty + rest;
    TokenChars(ChamberSet, c);
    assert s[0] == c[0];
    assert s[|s| - 1] == rest[|rest| - 1];
    TrimNoop(s);
    HeadsOfTokens(c, ty, rest);
  }
}
