/**
 * The recipient-number check of `PhoneNumberValidator`: a number is a `+`
 * followed by ASCII digits, five to fifteen of them unless the length
 * check is skipped. Null and blank strings are rejected.
 */
module PhoneNumberValidator {
  import opened JavaLang

  const PhoneNumberMinLength: nat := 5
  const PhoneNumberMaxLength: nat := 15

  predicate AllDigits(s: string) {
    forall k :: 0 <= k < |s| ==> IsDigit(s[k])
  }

  /**
   * The shape the validator accepts: `+`, then nothing but digits, and,
   * unless `skipLengthCheck`, between 5 and 15 of them.
   */
  predicate IsPhoneNumber(s: string, skipLengthCheck: bool) {
    && |s| >= 1
    && s[0] == '+'
    && AllDigits(s[1..])
    && (skipLengthCheck || PhoneNumberMinLength <= |s| - 1 <= PhoneNumberMaxLength)
  }

  /** Where the regex `[^0-9]` first matches in `s`, or `|s|` when it does not. */
  function FirstNonDigit(s: string): (i: nat)
    ensures i <= |s|
    ensures AllDigits(s[..i])
    ensures i < |s| ==> !IsDigit(s[i])
    decreases |s|
  {
    if s == [] || !IsDigit(s[0]) then 0
    else
      var i := 1 + FirstNonDigit(s[1..]);
      assert s[..i] == [s[0]] + s[1..][..i - 1];
      i
  }

  /**
   * `findNonDigitChars`: null for a null or all-digit string, otherwise the
   * first character outside `0-9`, as a one-character string.
   */
  function FindNonDigitChars(str: Option<string>): (r: Option<string>)
    ensures str.None? ==> r.None?
    ensures str.Some? ==> (r.None? <==> AllDigits(str.value))
    ensures r.Some? ==> exists i :: 0 <= i < |str.value| && AllDigits(str.value[..i]) && r.value == [str.value[i]]
    ensures r.Some? ==> |r.value| == 1 && !IsDigit(r.value[0])
  {
    match str
    case None => None
    case Some(s) =>
      var i := FirstNonDigit(s);
      if i == |s| then
        assert s[..i] == s;
        None
      else
        Some([s[i]])
  }

  /** `hasInvalidChars`: some character of a non-null string lies outside `0-9`. */
  predicate HasInvalidChars(phoneNumber: Option<string>)
    ensures HasInvalidChars(phoneNumber) <==> phoneNumber.Some? && !AllDigits(phoneNumber.value)
  {
    FindNonDigitChars(phoneNumber).Some?
  }

  /** `hasPlusSign`: character 0 is `+`. */
  predicate HasPlusSign(origPhoneNum: string)
    requires |origPhoneNum| >= 1
  {
    origPhoneNum[0] == '+'
  }

  /** `validLength`: a non-null string of 5 to 15 characters. */
  predicate ValidLength(phoneNumber: Option<string>) {
    && phoneNumber.Some?
    && PhoneNumberMinLength <= |phoneNumber.value| <= PhoneNumberMaxLength
  }

  /**
   * `validatePhoneNumber(phoneNumber, skipLengthCheck)`: blank, then the
   * plus sign on the untrimmed string, then the characters after it, then
   * (unless skipped) their number.
   */
  function ValidatePhoneNumberWith(phoneNumber: Option<string>, skipLengthCheck: bool): (r: bool)
    ensures r <==> phoneNumber.Some? && IsPhoneNumber(phoneNumber.value, skipLengthCheck)
  {
    if IsBlank(phoneNumber) then
      assert phoneNumber.Some? ==> |phoneNumber.value| >= 1 ==> !HasPlusSign(phoneNumber.value);
      false
    else if !HasPlusSign(phoneNumber.value) then false
    else if HasInvalidChars(Some(phoneNumber.value[1..])) then false
    else if !skipLengthCheck && !ValidLength(Some(phoneNumber.value[1..])) then false
    else true
  }

  /** `validatePhoneNumber(phoneNumber)`: the check with the length test on. */
  function ValidatePhoneNumber(phoneNumber: Option<string>): (r: bool)
    ensures r <==> phoneNumber.Some? && IsPhoneNumber(phoneNumber.value, false)
  {
    ValidatePhoneNumberWith(phoneNumber, false)
  }

  // ---------------------------------------------------------------------
  // Properties
  // ---------------------------------------------------------------------

  /** Null and blank strings are rejected whatever `skipLengthCheck` says. */
  lemma RejectsBlank(phoneNumber: Option<string>, skipLengthCheck: bool)
    requires IsBlank(phoneNumber)
    ensures !ValidatePhoneNumberWith(phoneNumber, skipLengthCheck)
  {
    if phoneNumber.Some? && |phoneNumber.value| >= 1 {
      assert IsTrimmable(phoneNumber.value[0]);
    }
  }

  /**
   * The plus sign is looked for at index 0 of the string as given, not of
   * its trimmed form, so leading blanks make a number invalid.
   */
  lemma RejectsWithoutLeadingPlus(s: string, skipLengthCheck: bool)
    requires |s| >= 1 && s[0] != '+'
    ensures !ValidatePhoneNumberWith(Some(s), skipLengthCheck)
    ensures !ValidatePhoneNumberWith(Some(" +12345"), skipLengthCheck)
  {
  }

  /** A character after index 0 outside `0-9` (a space, a second `+`) makes a number invalid. */
  lemma RejectsNonDigit(s: string, i: nat, skipLengthCheck: bool)
    requires 1 <= i < |s| && !IsDigit(s[i])
    ensures !ValidatePhoneNumberWith(Some(s), skipLengthCheck)
  {
    assert s[1..][i - 1] == s[i];
  }

  /** A trailing space and a second plus sign are both refused. */
  lemma TrailingSpaceAndSecondPlusRefused(skipLengthCheck: bool)
    ensures !ValidatePhoneNumberWith(Some("+12345 "), skipLengthCheck)
    ensures !ValidatePhoneNumberWith(Some("+123+45"), skipLengthCheck)
  {
    RejectsNonDigit("+12345 ", 6, skipLengthCheck);
    RejectsNonDigit("+123+45", 4, skipLengthCheck);
  }

  /** With the length check on, exactly `+` and 5 to 15 digits pass. */
  lemma LengthCheckedCharacterisation(s: string)
    ensures ValidatePhoneNumber(Some(s)) <==>
      |s| >= 1 + PhoneNumberMinLength && |s| <= 1 + PhoneNumberMaxLength && s[0] == '+' && AllDigits(s[1..])
  {
  }

  /** With the length check skipped, exactly `+` and any number of digits pass. */
  lemma SkippedLengthCharacterisation(s: string)
    ensures ValidatePhoneNumberWith(Some(s), true) <==> |s| >= 1 && s[0] == '+' && AllDigits(s[1..])
  {
  }

  /** The one-argument overload is the two-argument one with the check on, and skipping only accepts more. */
  lemma OverloadsAgree(phoneNumber: Option<string>)
    ensures ValidatePhoneNumber(phoneNumber) == ValidatePhoneNumberWith(phoneNumber, false)
    ensures ValidatePhoneNumberWith(phoneNumber, false) ==> ValidatePhoneNumberWith(phoneNumber, true)
  {
  }

  /** `hasInvalidChars` holds exactly when `findNonDigitChars` finds something. */
  lemma InvalidCharsIffFound(phoneNumber: Option<string>)
    ensures HasInvalidChars(phoneNumber) <==> FindNonDigitChars(phoneNumber).Some?
    ensures FindNonDigitChars(Some("12a45")) == Some("a")
  {
    assert FirstNonDigit("12a45") == 2;
  }

  /** Three digits fail the length check and pass without it; so does a lone `+`. */
  lemma ShortNumbersNeedSkip()
    ensures !ValidatePhoneNumberWith(Some("+123"), false) && ValidatePhoneNumberWith(Some("+123"), true)
    ensures !ValidatePhoneNumberWith(Some("+"), false) && ValidatePhoneNumberWith(Some("+"), true)
  {
    assert "+"[1..] == [];
  }

  /** Five digits pass, sixteen do not. */
  lemma LengthBoundaries()
    ensures ValidatePhoneNumber(Some("+12345"))
    ensures !ValidatePhoneNumber(Some("+1234567890123456"))
  {
  }

  /** Fifteen digits, the most the length check allows, pass. */
  lemma FifteenDigitsAccepted()
    ensures ValidatePhoneNumber(Some("+123456789012345"))
  {
    var digits := "+123456789012345"[1..];
    assert digits == "123456789012345";
    assert AllDigits(digits);
  }

  /** A letter among the digits is refused, and null is refused even without the length check. */
  lemma LetterAndNullRefused()
    ensures !ValidatePhoneNumber(Some("+12a45"))
    ensures !ValidatePhoneNumberWith(None, true)
  {
    assert "+12a45"[1..][2] == 'a';
  }
}
