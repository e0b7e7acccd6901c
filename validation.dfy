/**
 * Validation of an upload request (`GET /api/upload?filename=..&filetype=..&filesize=..`).
 *
 * A query parameter that is missing reads as the empty string, so "missing" and
 * "empty" are one case. The size is parsed the way Go's `strconv.ParseInt(s, 10, 64)`
 * parses it: an optional leading '+' or '-', then one or more decimal digits, and a
 * value that fits a signed 64-bit integer. No non-negativity check follows, so a
 * negative size is accepted.
 */
module Validation {
  import opened Wrappers

  const MinInt64: int := -0x8000_0000_0000_0000
  const MaxInt64: int := 0x7FFF_FFFF_FFFF_FFFF

  /** The advertised file: name, declared content type and declared byte length. */
  datatype Metadata = Metadata(fileName: string, fileType: string, fileSize: int)

  /** The two "400 Bad Request" answers of the upload endpoint. */
  datatype UploadError = MissingParameters | InvalidFilesize

  predicate IsDigit(c: char) {
    '0' <= c <= '9'
  }

  predicate AllDigits(s: string) {
    forall i :: 0 <= i < |s| ==> IsDigit(s[i])
  }

  function DigitValue(c: char): (d: nat)
    requires IsDigit(c)
    ensures d < 10
  {
    (c as int) - ('0' as int)
  }

  function DigitChar(d: nat): (c: char)
    requires d < 10
    ensures IsDigit(c) && DigitValue(c) == d
  {
    ('0' as int + d) as char
  }

  /** The value of a run of decimal digits, most significant digit first. */
  function DigitsValue(s: string): nat
    requires AllDigits(s)
  {
    if s == [] then 0 else DigitsValue(s[..|s| - 1]) * 10 + DigitValue(s[|s| - 1])
  }

  /** `strconv.ParseInt(s, 10, 64)`: `None` stands for the syntax and range errors. */
  function ParseInt64(s: string): (r: Option<int>)
    ensures r.Some? ==> MinInt64 <= r.value <= MaxInt64
    ensures r.Some? ==> s != [] && AllDigits(if s[0] == '+' || s[0] == '-' then s[1..] else s)
    ensures r.Some? ==> (if s[0] == '+' || s[0] == '-' then s[1..] else s) != []
  {
    if s == [] then None
    else
      var digits := if s[0] == '+' || s[0] == '-' then s[1..] else s;
      if digits == [] || !AllDigits(digits) then None
      else
        var magnitude: int := DigitsValue(digits);
        var v := if s[0] == '-' then -magnitude else magnitude;
        if MinInt64 <= v <= MaxInt64 then Some(v) else None
  }

  /** Shortest decimal spelling of a natural number (the reference the parser is checked against). */
  function FormatNat(n: nat): (s: string)
    ensures s != [] && AllDigits(s) && DigitsValue(s) == n
  {
    if n < 10 then [DigitChar(n)]
    else
      var prefix := FormatNat(n / 10);
      var s := prefix + [DigitChar(n % 10)];
      assert s[..|s| - 1] == prefix;
      s
  }

  /** Decimal spelling of an integer, with a '-' sign when negative. */
  function FormatInt(n: int): string {
    if n < 0 then "-" + FormatNat(-n) else FormatNat(n)
  }

  /** Every 64-bit integer, negative ones included, parses back from its decimal spelling. */
  lemma ParseFormatRoundTrip(n: int)
    requires MinInt64 <= n <= MaxInt64
    ensures ParseInt64(FormatInt(n)) == Some(n)
  {
    var s := FormatInt(n);
    if n < 0 {
      assert s[1..] == FormatNat(-n);
    } else {
      assert IsDigit(s[0]);
    }
  }

  /** The value a sign ("", "+" or "-") and a run of digits spell. */
  function SignedValue(sign: string, d: string): int
    requires AllDigits(d)
  {
    if sign == "-" then 0 - DigitsValue(d) as int else DigitsValue(d)
  }

  /**
   * Every spelling of an optional sign and one or more digits is accepted with its
   * signed value when that value fits 64 bits: "+5", "007" and "-0" included.
   */
  lemma ParseAcceptsSpelling(sign: string, d: string)
    requires sign in {"", "+", "-"} && d != [] && AllDigits(d)
    requires MinInt64 <= SignedValue(sign, d) <= MaxInt64
    ensures ParseInt64(sign + d) == Some(SignedValue(sign, d))
  {
    if sign != "" {
      assert (sign + d)[1..] == d;
      assert (sign + d)[0] == sign[0];
    } else {
      assert sign + d == d;
    }
  }

  /** A well-formed spelling whose value does not fit 64 bits is refused (the range error). */
  lemma ParseRejectsOutOfRange(sign: string, d: string)
    requires sign in {"", "+", "-"} && d != [] && AllDigits(d)
    requires !(MinInt64 <= SignedValue(sign, d) <= MaxInt64)
    ensures ParseInt64(sign + d).None?
  {
    if sign != "" {
      assert (sign + d)[1..] == d;
      assert (sign + d)[0] == sign[0];
    } else {
      assert sign + d == d;
    }
  }

  /** A character that is neither a digit nor a leading sign makes the size unparsable. */
  lemma ParseRejectsNonDigit(s: string, i: nat)
    requires i < |s| && !IsDigit(s[i])
    requires i == 0 ==> s[0] != '+' && s[0] != '-'
    ensures ParseInt64(s).None?
  {
    if i > 0 && (s[0] == '+' || s[0] == '-') {
      assert s[1..][i - 1] == s[i];
    }
  }

  /** The request validation of the upload endpoint, in the order the handler checks. */
  function ValidateUpload(fileName: string, fileType: string, fileSize: string): (r: Result<Metadata, UploadError>)
    ensures r == Failure(MissingParameters) <==> fileName == "" || fileType == "" || fileSize == ""
    ensures r == Failure(InvalidFilesize) <==>
      fileName != "" && fileType != "" && fileSize != "" && ParseInt64(fileSize).None?
    ensures r.Success? ==>
      ParseInt64(fileSize).Some? && r.value == Metadata(fileName, fileType, ParseInt64(fileSize).value)
  {
    if fileName == "" || fileType == "" || fileSize == "" then Failure(MissingParameters)
    else match ParseInt64(fileSize)
      case None => Failure(InvalidFilesize)
      case Some(size) => Success(Metadata(fileName, fileType, size))
  }

  /** Every 64-bit size is accepted, negative ones included, and kept exactly. */
  lemma ValidateAcceptsEveryInt64(fileName: string, fileType: string, size: int)
    requires fileName != "" && fileType != ""
    requires MinInt64 <= size <= MaxInt64
    ensures ValidateUpload(fileName, fileType, FormatInt(size)) == Success(Metadata(fileName, fileType, size))
  {
    ParseFormatRoundTrip(size);
  }
}
