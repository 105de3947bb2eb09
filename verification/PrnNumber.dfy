/** PRN numbers (prn-number-generator.js): agency, operator, year, random part and optional suffix. */
module PrnNumber {
  import opened Wrappers
  import opened Decimals

  datatype Regulator = EA | NIEA | SEPA | NRW

  const RANDOM_SUFFIX_RANGE := 100000
  const MAX_ATTEMPTS := 27  // no suffix, then A to Z

  function AgencyCode(regulator: Regulator): char {
    match regulator
    case EA => 'E'
    case NIEA => 'N'
    case SEPA => 'S'
    case NRW => 'W'
  }

  function OperatorTypeCode(isExport: bool): char {
    if isExport then 'X' else 'R'
  }

  /** String(year).slice(-2). */
  function YearSuffix(year: nat): string {
    var s := Decimal(year);
    if |s| <= 2 then s else s[|s| - 2..]
  }

  /** The suffix tried on the given attempt: none on the first, then the letters in order. */
  function SuffixOf(attempt: nat): Option<char>
    requires attempt < MAX_ATTEMPTS
  {
    if attempt == 0 then None else Some("ABCDEFGHIJKLMNOPQRSTUVWXYZ"[attempt - 1])
  }

  function GeneratePrnNumber(regulator: Regulator, isExport: bool, year: nat, suffix: Option<char>, draw: nat): (number: string)
    requires draw < RANDOM_SUFFIX_RANGE
    ensures number != ""
  {
    var base := [AgencyCode(regulator), OperatorTypeCode(isExport)] + YearSuffix(year) + PadStart(Decimal(draw), 5);
    match suffix
    case None => base
    case Some(c) => base + [c]
  }

  // ----- decoding -----

  /** Everything a number records. Only the last two digits of the year survive. */
  datatype Parts = Parts(agency: char, operator: char, year: string, draw: nat, suffix: Option<char>)

  function WithoutSuffix(number: string): string
    requires number != ""
  {
    if IsDigit(number[|number| - 1]) then number else number[..|number| - 1]
  }

  /** Reads a number back: a letter at the end is the suffix, the five digits before it the random part. */
  function Decode(number: string): Option<Parts> {
    if |number| < 7 then None
    else
      var base := WithoutSuffix(number);
      if |base| < 7 then None
      else
        var digits := base[|base| - 5..];
        if !AllDigits(digits) then None
        else
          Some(Parts(base[0], base[1], base[2..|base| - 5], Value(digits),
                     if |base| == |number| then None else Some(number[|number| - 1])))
  }

  /** Every generated number decodes to exactly the parts it was made from. */
  lemma DecodeGenerated(regulator: Regulator, isExport: bool, year: nat, suffix: Option<char>, draw: nat)
    requires draw < RANDOM_SUFFIX_RANGE
    requires suffix.Some? ==> !IsDigit(suffix.value)
    ensures Decode(GeneratePrnNumber(regulator, isExport, year, suffix, draw))
         == Some(Parts(AgencyCode(regulator), OperatorTypeCode(isExport), YearSuffix(year), draw, suffix))
  {
    var padded := PadStart(Decimal(draw), 5);
    ValueOfDecimal(draw);
    assert Pow10(4) == 10000 by {
      assert Pow10(2) == 100;
    }
    assert |padded| == 5;
    ValueOfPadded(draw, 5);
    var head := [AgencyCode(regulator), OperatorTypeCode(isExport)] + YearSuffix(year);
    var base := head + padded;
    var number := GeneratePrnNumber(regulator, isExport, year, suffix, draw);
    assert base[|base| - 1] == padded[4];
    assert WithoutSuffix(number) == base;
    assert base[|base| - 5..] == padded;
    assert base[2..|base| - 5] == YearSuffix(year);
  }

  lemma ValueOfTwoDigits(tens: nat, units: nat)
    requires tens < 10 && units < 10
    ensures Value([Digit(tens), Digit(units)]) == 10 * tens + units
  {
    var s := [Digit(tens), Digit(units)];
    assert s[..1] == [Digit(tens)] && s[..1][..0] == "";
    assert Value(s[..1]) == 10 * Value("") + tens;
  }

  lemma DecimalOfHundreds(n: nat)
    requires 100 <= n
    ensures |Decimal(n)| >= 3 && Decimal(n)[|Decimal(n)| - 2..] == [Digit(n / 10 % 10), Digit(n % 10)]
  {
    assert Decimal(n) == Decimal(n / 10) + [Digit(n % 10)];
    assert Decimal(n / 10) == Decimal(n / 10 / 10) + [Digit(n / 10 % 10)];
  }

  lemma ShortYearIsItsDecimal(year: nat)
    requires year < 100
    ensures |Decimal(year)| <= 2 && Value(Decimal(year)) == year
  {
    ValueOfDecimal(year);
    assert 10 * Pow10(1) == 100;
  }

  lemma LastTwoDigits(year: nat)
    ensures 10 * (year / 10 % 10) + year % 10 == year % 100
  {
    assert year == 100 * (year / 100) + 10 * (year / 10 % 10) + year % 10;
  }

  /** The year digits are the year modulo a hundred. */
  lemma YearSuffixKeepsTwoDigits(year: nat)
    ensures AllDigits(YearSuffix(year)) && |YearSuffix(year)| <= 2 && Value(YearSuffix(year)) == year % 100
  {
    if year < 100 {
      ShortYearIsItsDecimal(year);
    } else {
      DecimalOfHundreds(year);
      ValueOfTwoDigits(year / 10 % 10, year % 10);
      LastTwoDigits(year);
    }
  }

  /** Equal numbers come from equal parts, whatever attempts and years produced them. */
  lemma GeneratedNumbersDetermineTheirParts(
    r1: Regulator, x1: bool, y1: nat, a1: nat, d1: nat,
    r2: Regulator, x2: bool, y2: nat, a2: nat, d2: nat)
    requires a1 < MAX_ATTEMPTS && a2 < MAX_ATTEMPTS && d1 < RANDOM_SUFFIX_RANGE && d2 < RANDOM_SUFFIX_RANGE
    requires GeneratePrnNumber(r1, x1, y1, SuffixOf(a1), d1) == GeneratePrnNumber(r2, x2, y2, SuffixOf(a2), d2)
    ensures r1 == r2 && x1 == x2 && YearSuffix(y1) == YearSuffix(y2) && d1 == d2 && a1 == a2
  {
    SuffixIsALetter(a1);
    SuffixIsALetter(a2);
    DecodeGenerated(r1, x1, y1, SuffixOf(a1), d1);
    DecodeGenerated(r2, x2, y2, SuffixOf(a2), d2);
  }

  lemma SuffixIsALetter(attempt: nat)
    requires attempt < MAX_ATTEMPTS
    ensures attempt == 0 <==> SuffixOf(attempt) == None
    ensures 0 < attempt ==> SuffixOf(attempt) == Some('A' + (attempt - 1) as char) && !IsDigit(SuffixOf(attempt).value)
  {}
}
