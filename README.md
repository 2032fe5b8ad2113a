# Bill number parser — a Dafny model

This project models `BillNumber`, the parser and formatter for legislative bill
identifiers such as `"HCR 0046"` or `"sr00768"`. An identifier is trimmed and
then read as three parts:

- a chamber token from {H, S};
- a bill-type token from {B, R, CR, JR};
- a numeric suffix of one to five digits, optionally preceded by a single
  white-space character, whose value must be positive.

The two tokens are matched case-insensitively. The constructor parses its input
once and fixes the validity flag and the parts. Two formatters render a valid
identifier:

- the long form, with the suffix zero-padded to five digits (`HCR00046`);
- the short form, with one space and the plain suffix (`HCR 46`).

Both formatters fail with an `InvalidBillNumberException` carrying
"Bill number is invalid" when the identifier is not valid.

Modules:

- `Wrappers`: `Option` (a null reference) and `Result` (a thrown exception).
- `Text`: the .NET white-space class, ASCII digits and upper-casing,
  `String.Trim`, and `Int32.ToString`/`Int32.Parse` on decimal digit strings.
- `BillGrammar`: the parser as pure specification functions. These are the
  shortest-prefix head matcher `HeadSplit`, the suffix scanner
  `ParseSuffixSpec` and the identifier parser `ParseIdSpec`, with their
  properties.
- `BillFormat`: the long and short forms as functions, their shape, and the
  round trip back through the parser.
- `BillNumbers`: the source's own step-by-step code. `ParseHead` and
  `ParseSuffix` are loops proved against the grammar functions. `ParseId` is
  the three-stage parser. The `BillNumber` class has fixed fields, a
  constructor, `CheckValid` and the two formatters.
- `BillCases`: the scenarios of the project's unit tests, stated about the model.

The parsed chamber and type keep the case in which they were written: the
constructor of `"sJr00003"` stores `"s"` and `"Jr"`, and only the formatters
upper-case them. Case-insensitivity of parsing therefore holds up to
upper-casing of the parts (`BillGrammar.ParseIgnoresCase`,
`BillGrammar.CaseVariantsAgree`), not as equality of the stored components.

## Model

| member | source | states |
|---|---|---|
| BillGrammar.FirstMatch | BillNumber.cs:154-167 | the result is the shortest prefix length from `p` on (and below the input length) whose prefix is a member ignoring case; no such length gives None |
| BillGrammar.HeadSplit | BillNumber.cs:149-168 | on success, token + rest is the input, the rest is non-empty, the token is a member ignoring case and no shorter prefix is; failure happens exactly when no proper prefix is a member |
| BillGrammar.ChamberHead | BillNumber.cs:9 | the chamber matcher succeeds exactly on inputs of two or more characters starting with H or S in either case, and takes exactly that one character |
| BillGrammar.TypeHead | BillNumber.cs:10 | the type matcher takes one character for B/R or two for CR/JR (either case), and only when something follows; otherwise it fails |
| BillGrammar.HeadSplitUpper | BillNumber.cs:9-10 | head matching under an upper-cased input gives the upper-cased token and rest: the sets compare ignoring case |
| BillGrammar.ContainsIgnoreCase | BillNumber.cs:9-10 | definition: the ordinal ignore-case membership of the two sets, as the membership of the upper-cased string (both sets hold upper-case ASCII only); `BillGrammar.TokenChars` proves what a member looks like |
| BillGrammar.ParseSuffixSpec | BillNumber.cs:101-139 | definition of the suffix scan: (false, -1) when a character is rejected, FormatFailure when no digit was collected, otherwise the digits' value, accepted when positive; `BillNumbers.ParseSuffix` is proved equal to it, and `SuffixRange`, `SuffixShape`, `SuffixLateWhiteSpace`, `SuffixForeignChar`, `SuffixTooManyDigits`, `SuffixAllZeros` and `SuffixNeverThrows` state its properties |
| BillGrammar.Heads | BillNumber.cs:79-88 | the chamber token, the type token and the rest of a trimmed identifier; they concatenate back to it and the rest is non-empty |
| BillGrammar.ParseIdSpec | BillNumber.cs:65-97 | definition of the identifier parser: null is invalid, otherwise trim, match chamber and type, then scan the suffix; `BillNumbers.ParseId` is proved to agree with it on validity and parts, and `ParsedShape`, `ParseTokens`, `EmptyInputsInvalid`, `ParseIgnoresCase` and `ParseIdNeverThrows` state its properties |
| BillGrammar.SuffixRange | BillNumber.cs:106 | an accepted suffix value lies between 1 and 99999 |
| BillGrammar.SuffixShape | BillNumber.cs:110-138 | at most one white-space character followed by one to five digits is read to the end; the value is the digits' value and is accepted exactly when positive |
| BillGrammar.SuffixLateWhiteSpace | BillNumber.cs:120 | white space at any position but the first, whether a second blank or one after a digit, rejects the suffix with -1 |
| BillGrammar.SuffixForeignChar | BillNumber.cs:124-127 | a character that is neither digit nor white space rejects the suffix with -1 |
| BillGrammar.SuffixTooManyDigits | BillNumber.cs:113 | six consecutive digits reject the suffix with -1 |
| BillGrammar.SuffixAllZeros | BillNumber.cs:133-136 | an all-zero run of one to five digits is read as 0 and rejected |
| BillGrammar.SuffixNeverThrows | BillNumber.cs:130 | a non-empty suffix text ending in a non-white-space character never reaches the parse of an empty digit string |
| BillGrammar.SuffixUpper | BillNumber.cs:110-138 | the suffix scan is unaffected by upper-casing its input |
| BillGrammar.ParseIdNeverThrows | BillNumber.cs:76-91 | once both head tokens are found in the trimmed input, the suffix scan returns normally: the FormatException that Int32.Parse throws on an empty digit string cannot occur |
| BillGrammar.EmptyInputsInvalid | BillNumber.cs:71-82 | null, empty and all-white-space inputs are invalid |
| BillGrammar.ParsedShape | BillNumber.cs:76-96 | a valid input, once trimmed, is its chamber token, its type token and a suffix text the scanner accepts; the parts satisfy the set and 1..99999 invariants |
| BillGrammar.ParseTokens | BillNumber.cs:76-96 | conversely, a chamber token, a type token and a suffix text ending in non-white-space parse to those tokens exactly when the suffix scan accepts, with its value |
| BillGrammar.HeadsUpper | BillNumber.cs:79-88 | reading both head tokens from an upper-cased input gives the upper-cased tokens and rest |
| BillGrammar.ParseIgnoresCase | BillNumber.cs:65-97 | upper-casing the input keeps validity and the suffix and upper-cases chamber and type |
| BillGrammar.CaseVariantsAgree | BillNumber.cs:65-97 | two inputs equal up to letter case are both valid or both invalid, with equal upper-cased parts |
| BillGrammar.TokenChars | BillNumber.cs:9-10 | every chamber or type token is one or two letters: no white space, no digit |
| BillGrammar.HeadsOfTokens | BillNumber.cs:79-88 | a chamber token, a type token and any non-empty rest split back at the token boundaries |
| Text.IsDigit | BillNumber.cs:113 | definition: the ASCII digits '0'..'9'; the other Unicode digits `Char.IsDigit` accepts are under "## Left out" (Digits) |
| Text.IsWhiteSpace | BillNumber.cs:76 | definition: the characters `Char.IsWhiteSpace` accepts, written out; the one class used both by `Trim` and by the suffix scanner (BillNumber.cs:120) |
| Text.Upper | BillNumber.cs:42 | `ToUpper` (also at BillNumber.cs:51): the result has the input's length and each character upper-cased; `UpperAppend`, `UpperUpper` and `UpperDigits` state that it distributes over concatenation, is idempotent and keeps digits |
| Text.IntToString | BillNumber.cs:32 | definition of `Int32.ToString`: a minus sign for negative values, then the shortest decimal digits; `Text.DecimalRoundTrip` and `BillFormat.SuffixDigits` prove what it yields for a suffix |
| Text.Decimal | BillNumber.cs:32 | definition of `Int32.ToString` for a non-negative value: the shortest decimal digit string; `Text.DecimalRoundTrip` proves it is non-empty, all digits, without a leading zero and reads back as the number, and `Text.DecimalLength` bounds its length |
| Text.DecimalValue | BillNumber.cs:130 | definition of `Int32.Parse` on a digit string, leading zeros allowed; `DecimalRoundTrip`, `DecimalValueBound` and `LeadingZeros` state that it inverts `Decimal`, stays below 10^length and ignores leading zeros |
| Text.Trim | BillNumber.cs:76 | the trimmed string is a slice of the input that neither starts nor ends with white space, and everything cut away is white space |
| Text.TrimUpper | BillNumber.cs:76 | trimming commutes with upper-casing |
| Text.DecimalRoundTrip | BillNumber.cs:32 | the rendering of a natural number is a non-empty digit string without a leading zero that reads back as the number |
| Text.LeadingZeros | BillNumber.cs:33-40 | zero padding does not change the value of a digit string |
| BillFormat.PadCount | BillNumber.cs:34-35 | definition: the number of zeros that pad the digits to five, and none when they are already as wide; the loop of `BillNumbers.BillNumber.BillNumberLong` is proved to append exactly that many |
| BillFormat.LongForm | BillNumber.cs:32-42 | definition of the long form: upper-cased chamber, type, padding zeros and digits; `LongFormShape` and `ParseLongForm` state its length, digit tail and round trip |
| BillFormat.ShortForm | BillNumber.cs:50-51 | definition of the short form: upper-cased chamber, type, a space and the digits; `ShortFormShape` and `ParseShortForm` state its shape and round trip |
| BillFormat.SuffixDigits | BillNumber.cs:32 | a valid suffix renders as one to five digits without a minus sign, unchanged by upper-casing and reading back as the suffix |
| BillFormat.LongFormParts | BillNumber.cs:40-42 | the long form is the upper-cased chamber and type followed by the padding zeros and the digits |
| BillFormat.LongFormShape | BillNumber.cs:29-43 | the long form of valid parts is |chamber| + |type| + 5 long; it starts with the upper-cased tokens, and its last five characters are digits reading back as the suffix |
| BillFormat.ShortFormParts | BillNumber.cs:50-51 | the short form is the upper-cased chamber and type, one space and the digits |
| BillFormat.ShortFormShape | BillNumber.cs:47-52 | in the short form the single space after the tokens is the only white space; the digits after it have no leading zero and read back as the suffix |
| BillFormat.ParseLongForm | BillNumber.cs:29-43 | parsing the long form of valid parts gives back the parts, upper-cased |
| BillFormat.ParseShortForm | BillNumber.cs:47-52 | parsing the short form of valid parts gives back the parts, upper-cased |
| BillFormat.FormsIgnoreCase | BillNumber.cs:42 | both forms are the same whatever the case in which chamber and type were written |
| BillNumbers.InvalidBillNumberException | InvalidBillNumberException.cs:5-13 | the exception the formatters raise, as a value carrying its message; `CheckValid` and both formatters state that it carries "Bill number is invalid" |
| BillNumbers.ParseHead | BillNumber.cs:149-168 | the loop returns found exactly when `HeadSplit` succeeds, with its token and rest; on failure the token is null, the rest is the input, and no proper prefix is a member |
| BillNumbers.ParseSuffix | BillNumber.cs:101-139 | the counting scan returns exactly `ParseSuffixSpec`: the accept/reject verdict, the value or -1, and the empty-digit parse failure |
| BillNumbers.ParseId | BillNumber.cs:65-97 | the result is true exactly when `ParseIdSpec` succeeds; then the out-parameters are its chamber, type and suffix |
| BillNumbers.BillNumber.constructor | BillNumber.cs:20-25 | IsValid is set exactly when the input parses, and the fields hold the parsed parts, which satisfy the validity invariant |
| BillNumbers.BillNumber.CheckValid | BillNumber.cs:55-61 | fails exactly when the identifier is invalid, with the message "Bill number is invalid" |
| BillNumbers.BillNumber.BillNumberLong | BillNumber.cs:29-43 | fails exactly when invalid, with the fixed message; otherwise it returns the long form: |chamber| + |type| + 5 characters whose last five are digits reading back as the suffix |
| BillNumbers.BillNumber.BillNumberShort | BillNumber.cs:47-52 | fails exactly when invalid, with the fixed message; otherwise it returns the upper-cased tokens followed by a space and the suffix without leading zeros |
| BillNumbers.FormatTwice | BillNumber.cs:13-16 | formatting the same identifier twice, in the long form and in the short form, gives the same result each time, because the fields are never changed after construction |
| BillCases.ParseCapsWithSpace | BillNum.Tests/UnitTest1.cs:8-17 | "HCR 0046" is valid with parts H, CR, 46 |
| BillCases.FormsCapsWithSpace | BillNum.Tests/UnitTest1.cs:15-16 | its forms are "HCR00046" and "HCR 46" |
| BillCases.ParseNoCapsNoSpace | BillNum.Tests/UnitTest1.cs:19-28 | "sr00768" is valid with parts s, r, 768 |
| BillCases.FormsNoCapsNoSpace | BillNum.Tests/UnitTest1.cs:26-27 | its forms are "SR00768" and "SR 768" |
| BillCases.ParseMaximumSuffix | BillNum.Tests/UnitTest1.cs:30-39 | "sr99999" is valid with suffix 99999 |
| BillCases.FormsMaximumSuffix | BillNum.Tests/UnitTest1.cs:37-38 | its forms are "SR99999" and "SR 99999" |
| BillCases.ParseMixedCase | BillNum.Tests/UnitTest1.cs:41-50 | "sJr00003" is valid with parts s, Jr, 3 |
| BillCases.FormsMixedCase | BillNum.Tests/UnitTest1.cs:48-49 | its forms are "SJR00003" and "SJR 3" |
| BillCases.ZeroSuffixInvalid | BillNum.Tests/UnitTest1.cs:52-64 | "scr00000" is invalid |
| BillCases.NoSuffixInvalid | BillNum.Tests/UnitTest1.cs:66-78 | "scr" is invalid: the type matcher never tries the whole rest |
| BillCases.SixDigitsInvalid | BillNum.Tests/UnitTest1.cs:80-93 | "sr000030" is invalid |
| BillCases.TwoBlanksInvalid | BillNum.Tests/UnitTest1.cs:95-106 | "sr  00003" is invalid |
| BillCases.BlankInDigitsInvalid | BillNum.Tests/UnitTest1.cs:108-119 | "sr0 0003" is invalid |
| BillCases.BlankInHeadInvalid | BillNum.Tests/UnitTest1.cs:121-132 | "s r00003" is invalid |
| BillCases.EmptyAndNullInvalid | BillNum.Tests/UnitTest1.cs:134-158 | "" and null are invalid |
| BillCases.FlippedChamberTypeInvalid | BillNum.Tests/UnitTest1.cs:160-171 | "rs 00003" is invalid |
| BillCases.InvalidCharacterInvalid | BillNum.Tests/UnitTest1.cs:173-184 | "sr} 00003" is invalid |
| BillCases.CapsWithSpaceBill | BillNum.Tests/UnitTest1.cs:8-17 | a bill built from "HCR 0046" is valid and renders as "HCR00046" and "HCR 46" |
| BillCases.ZeroSuffixBill | BillNum.Tests/UnitTest1.cs:52-64 | a bill built from "scr00000" is invalid, and both formatters fail with "Bill number is invalid" |
| BillCases.NullBill | BillNum.Tests/UnitTest1.cs:147-158 | a bill built from null is invalid, and both formatters fail with "Bill number is invalid" |

## Left out

- Digits: the source tests digits with `Char.IsDigit`, which accepts every Unicode decimal digit. `Int32.Parse` then throws on non-ASCII digits. The model accepts only the ASCII digits `0`-`9`.
- Upper-casing: the ordinal ignore-case comparer uses Unicode simple case mapping, and `ToUpper` follows the current culture. The model upper-cases ASCII letters only. Only ASCII letters can form a chamber or type token, so this matters only for the rendering of inputs that are never valid.
- White space: `IsWhiteSpace` writes out the fixed set of characters the .NET runtime treats as white space. There is no culture-dependent behaviour.
- Integer width: a suffix has at most five digits, so `int` overflow in `Int32.Parse` and `ToString` cannot occur. The model uses unbounded integers.
- Exceptions are values. `CheckValid`, `BillNumberLong` and `BillNumberShort` return a `Result` whose failure carries an `InvalidBillNumberException` with its message. The exception class hierarchy and its other constructors (InvalidBillNumberException.cs) are not modelled. The `FormatException` of `Int32.Parse` on an empty digit string is the `FormatFailure` outcome. `BillGrammar.ParseIdNeverThrows` shows it cannot occur when `ParseId` calls the scanner.
- `StringBuilder` becomes a `string` that the loop extends, and `Substring` becomes slicing. A `null` string is `None`.
- BillNumbers.ParseId: on failure the contract does not state the out-parameters the source leaves behind. These are the chamber token already found when the type match fails; the chamber and type tokens already found when the suffix scan fails; and the suffix -1 after a rejected suffix character, or 0 after an all-zero suffix. The method computes them as the source does, but they are private and never read on an invalid identifier.
- The unit-test harness (xUnit) is not modelled. Its scenarios are stated as lemmas and methods in `BillCases`.
