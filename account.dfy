/**
 * The personal account of src/account.py: the structural PESEL check, the
 * promotional-code check, the birth year encoded in the PESEL's month field,
 * promotion eligibility, and the constructor that grants the one-off bonus.
 * The rule methods of the source read only the identifier they are given or
 * the one the account stores, so they are functions of that string here.
 */
module Accounts {
  import opened Optional

  /** What the account stores in place of a malformed PESEL. */
  const InvalidPesel: string := "Invalid"
  const PromoPrefix: string := "PROM_"
  const PromoCodeLength: nat := 8
  const PromoBonus: int := 50
  /** Accounts of people born after this year (not in it) may receive the bonus. */
  const PromotionYearThreshold: int := 1960

  predicate IsAsciiDigit(c: char)
  {
    '0' <= c <= '9'
  }

  /**
   * Exactly eleven characters, every one a digit.  A valid PESEL is never the
   * sentinel, and its date fields can be decoded.
   */
  function IsPeselValid(pesel: string): (valid: bool)
    ensures valid ==> pesel != InvalidPesel && HasNumericDateFields(pesel)
  {
    |pesel| == 11 && forall i :: 0 <= i < |pesel| ==> IsAsciiDigit(pesel[i])
  }

  /** An absent code is invalid; a present one must start with `PROM_` and be eight characters long. */
  function IsPromoCodeValid(code: Option<string>): (valid: bool)
    ensures valid ==> code.Some? && |code.value| == PromoCodeLength && code.value[..5] == PromoPrefix
  {
    match code
    case None => false
    case Some(c) => PromoPrefix <= c && |c| == PromoCodeLength
  }

  function DigitValue(c: char): (d: int)
    requires IsAsciiDigit(c)
    ensures 0 <= d <= 9
  {
    c as int - '0' as int
  }

  function DigitChar(d: int): (c: char)
    requires 0 <= d <= 9
    ensures IsAsciiDigit(c) && DigitValue(c) == d
  {
    ('0' as int + d) as char
  }

  /**
   * What the birth-year decoding needs to read the identifier: when it has
   * the PESEL length, its first four characters (year and month fields) are
   * digits.  Every stored identifier has this shape.
   */
  predicate HasNumericDateFields(pesel: string)
  {
    |pesel| == 11 ==> forall i :: 0 <= i < 4 ==> IsAsciiDigit(pesel[i])
  }

  /** The two-digit number written in characters `i` and `i + 1`. */
  function TwoDigitField(pesel: string, i: nat): (n: int)
    requires i + 1 < |pesel| && IsAsciiDigit(pesel[i]) && IsAsciiDigit(pesel[i + 1])
    ensures 0 <= n <= 99
  {
    10 * DigitValue(pesel[i]) + DigitValue(pesel[i + 1])
  }

  function YearField(pesel: string): int
    requires |pesel| == 11 && HasNumericDateFields(pesel)
  {
    TwoDigitField(pesel, 0)
  }

  function MonthField(pesel: string): int
    requires |pesel| == 11 && HasNumericDateFields(pesel)
  {
    TwoDigitField(pesel, 2)
  }

  /** The five month-field ranges that carry a century: 1-12, 21-32, 41-52, 61-72 and 81-92. */
  predicate IsMonthBucket(mm: int)
  {
    1 <= mm <= 92 && 1 <= (mm - 1) % 20 + 1 <= 12
  }

  /**
   * `get_birth_year_from_pesel`: undefined for the sentinel or a wrong length;
   * otherwise the two-digit year placed in the century its month field selects,
   * and undefined when the month field lies in no bucket.
   */
  function BirthYearFromPesel(pesel: string): (year: Option<int>)
    requires HasNumericDateFields(pesel)
    ensures year.Some? <==> |pesel| == 11 && IsMonthBucket(MonthField(pesel))
    ensures year.Some? ==> 1800 <= year.value <= 2299 && year.value % 100 == YearField(pesel)
  {
    if pesel == InvalidPesel || |pesel| != 11 then None
    else
      var yy := YearField(pesel);
      var mm := MonthField(pesel);
      if 1 <= mm <= 12 then Some(1900 + yy)
      else if 21 <= mm <= 32 then Some(2000 + yy)
      else if 41 <= mm <= 52 then Some(2100 + yy)
      else if 61 <= mm <= 72 then Some(2200 + yy)
      else if 81 <= mm <= 92 then Some(1800 + yy)
      else None
  }

  /**
   * `is_eligible_for_promotion`: the birth year is defined and after 1960.  Only
   * an identifier of PESEL length whose month field lies in a bucket other
   * than the 1800s one can qualify.
   */
  function IsEligibleForPromotion(pesel: string): (eligible: bool)
    requires HasNumericDateFields(pesel)
    ensures eligible ==> |pesel| == 11 && IsMonthBucket(MonthField(pesel)) && !(81 <= MonthField(pesel) <= 92)
  {
    match BirthYearFromPesel(pesel)
    case None => false
    case Some(year) => year > PromotionYearThreshold
  }

  /** The sentinel has no birth year and is never eligible. */
  lemma SentinelIsNeverEligible()
    ensures HasNumericDateFields(InvalidPesel)
    ensures BirthYearFromPesel(InvalidPesel) == None && !IsEligibleForPromotion(InvalidPesel)
  {
  }

  /**
   * Eligibility by month bucket: the 2000s, 2100s and 2200s buckets always
   * qualify, the 1800s bucket never does, the 1900s bucket qualifies exactly
   * when the two-digit year is above 60, and a month field in no bucket never
   * qualifies.
   */
  lemma EligibilityByBucket(pesel: string)
    requires IsPeselValid(pesel)
    ensures HasNumericDateFields(pesel)
    ensures var mm := MonthField(pesel);
      && (21 <= mm <= 32 || 41 <= mm <= 52 || 61 <= mm <= 72 ==> IsEligibleForPromotion(pesel))
      && (81 <= mm <= 92 ==> !IsEligibleForPromotion(pesel))
      && (1 <= mm <= 12 ==> (IsEligibleForPromotion(pesel) <==> YearField(pesel) > 60))
      && (!IsMonthBucket(mm) ==> !IsEligibleForPromotion(pesel))
  {
  }

  /**
   * The centuries of the five buckets do not overlap: two identifiers that
   * decode to the same birth year have the same year field and month fields
   * in the same bucket (bucket k holds 20k+1 .. 20k+12).
   */
  lemma BucketsAreDisjoint(p: string, q: string)
    requires HasNumericDateFields(p) && HasNumericDateFields(q)
    requires BirthYearFromPesel(p).Some? && BirthYearFromPesel(p) == BirthYearFromPesel(q)
    ensures YearField(p) == YearField(q)
    ensures (MonthField(p) - 1) / 20 == (MonthField(q) - 1) / 20
  {
  }

  /**
   * The month field the PESEL scheme writes for a birth in `month` of `year`:
   * the calendar month plus 80 for the 1800s, 0 for the 1900s, 20 for the
   * 2000s, 40 for the 2100s and 60 for the 2200s.
   */
  function EncodedMonth(year: int, month: int): (mm: int)
    requires 1800 <= year <= 2299 && 1 <= month <= 12
    ensures IsMonthBucket(mm)
  {
    var century := year / 100;
    month + (if century == 18 then 80 else (century - 19) * 20)
  }

  /** The four date characters (year field, month field) of a PESEL for a birth in `month` of `year`. */
  function EncodeDateFields(year: int, month: int): (s: string)
    requires 1800 <= year <= 2299 && 1 <= month <= 12
    ensures |s| == 4 && forall i :: 0 <= i < 4 ==> IsAsciiDigit(s[i])
  {
    var yy := year % 100;
    var mm := EncodedMonth(year, month);
    [DigitChar(yy / 10), DigitChar(yy % 10), DigitChar(mm / 10), DigitChar(mm % 10)]
  }

  /** Decoding recovers the year that was encoded, whatever the other seven characters are. */
  lemma BirthYearRoundTrip(year: int, month: int, rest: string)
    requires 1800 <= year <= 2299 && 1 <= month <= 12 && |rest| == 7
    ensures HasNumericDateFields(EncodeDateFields(year, month) + rest)
    ensures BirthYearFromPesel(EncodeDateFields(year, month) + rest) == Some(year)
  {
  }

  /** Every defined birth year comes from the encoding of that year and some calendar month. */
  lemma BirthYearComplete(pesel: string)
    requires HasNumericDateFields(pesel) && BirthYearFromPesel(pesel).Some?
    ensures exists month :: 1 <= month <= 12 && pesel[..4] == EncodeDateFields(BirthYearFromPesel(pesel).value, month)
  {
    var year := BirthYearFromPesel(pesel).value;
    var mm := MonthField(pesel);
    var month := (mm - 1) % 20 + 1;
    assert EncodedMonth(year, month) == mm;
    var enc := EncodeDateFields(year, month);
    forall i | 0 <= i < 4
      ensures enc[i] == pesel[i]
    {
      DigitRoundTrip(pesel[i]);
    }
    assert pesel[..4] == enc;
  }

  lemma DigitRoundTrip(c: char)
    requires IsAsciiDigit(c)
    ensures DigitChar(DigitValue(c)) == c
  {
  }

  /**
   * Promotion threshold: an identifier encoding a birth in `year` is eligible
   * exactly when the year is after 1960 (so 1965 qualifies, 1959 and 1960 do not).
   */
  lemma EligibleExactlyAfterThreshold(year: int, month: int, rest: string)
    requires 1800 <= year <= 2299 && 1 <= month <= 12 && |rest| == 7
    ensures HasNumericDateFields(EncodeDateFields(year, month) + rest)
    ensures IsEligibleForPromotion(EncodeDateFields(year, month) + rest) <==> year > 1960
  {
  }

  /** A valid code is `PROM_` followed by exactly three characters. */
  lemma PromoCodeShape(code: string)
    ensures IsPromoCodeValid(Some(code)) <==> exists suffix: string :: |suffix| == 3 && code == PromoPrefix + suffix
  {
    if IsPromoCodeValid(Some(code)) {
      assert code == PromoPrefix + code[5..];
    }
  }

  /** The codes the account tests use: `PROM_456` is valid; `WELCOME_BONUS` and no code are not. */
  lemma PromoCodeExamples()
    ensures IsPromoCodeValid(Some("PROM_456"))
    ensures !IsPromoCodeValid(Some("WELCOME_BONUS"))
    ensures !IsPromoCodeValid(None)
  {
  }

  /** The personal account; `balance` is 0 or the bonus once constructed. */
  class Account {
    var firstName: string
    var lastName: string
    var balance: int
    var pesel: string
    var promoCode: Option<string>

    /**
     * Stores the names and the code unchanged and the PESEL or the sentinel;
     * grants the bonus when the code is valid and the stored PESEL is eligible.
     */
    constructor (firstName: string, lastName: string, pesel: string, promoCode: Option<string> := None)
      ensures this.firstName == firstName && this.lastName == lastName && this.promoCode == promoCode
      ensures this.pesel == (if IsPeselValid(pesel) then pesel else InvalidPesel)
      ensures HasNumericDateFields(this.pesel)
      ensures balance == (if IsPromoCodeValid(promoCode) && IsEligibleForPromotion(this.pesel) then PromoBonus else 0)
      ensures balance == PromoBonus ==> IsPeselValid(pesel) && IsPromoCodeValid(promoCode)
    {
      this.firstName := firstName;
      this.lastName := lastName;
      balance := 0;
      this.pesel := if IsPeselValid(pesel) then pesel else InvalidPesel;
      this.promoCode := promoCode;
      new;
      if IsPromoCodeValid(promoCode) && IsEligibleForPromotion(this.pesel) {
        balance := balance + PromoBonus;
      }
    }
  }

  /** The PESELs the account-creation tests store: one valid, then too long, too short and non-numeric. */
  method StoredPeselExamples() returns (valid: string, tooLong: string, tooShort: string, nonNumeric: string)
    ensures valid == "12345678911"
    ensures tooLong == InvalidPesel && tooShort == InvalidPesel && nonNumeric == InvalidPesel
  {
    var a := new Account("John", "Doe", "12345678911");
    valid := a.pesel;
    var b := new Account("John", "Doe", "123456789112");
    tooLong := b.pesel;
    var c := new Account("John", "Doe", "1234567891");
    tooShort := c.pesel;
    var d := new Account("John", "Doe", "12345ABCDE1");
    assert !IsAsciiDigit("12345ABCDE1"[5]);
    nonNumeric := d.pesel;
  }

  /** The opening balances of the transaction tests: a 1985 birth with `PROM_456` gets 50, without a code 0. */
  method OpeningBalanceExamples() returns (withCode: int, withoutCode: int)
    ensures withCode == 50 && withoutCode == 0
  {
    var p := "85020212345";
    assert MonthField(p) == 2 && YearField(p) == 85;
    var a := new Account("Jane", "Smith", p, Some("PROM_456"));
    withCode := a.balance;
    var b := new Account("Jane", "Smith", p);
    withoutCode := b.balance;
  }
}
