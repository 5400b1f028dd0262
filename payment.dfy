/**
 * The Payment page: the card form, its field-by-field validation into an
 * error map keyed by field name, and the submit guard.
 */
module Payment {
  import opened Wrappers
  import opened Text
  import opened CardFormat
  import opened ErrorMaps

  datatype PaymentData = PaymentData(
    cardNumber: string,
    expiryDate: string,
    securityCode: string,
    firstName: string,
    lastName: string,
    saveAsDefault: bool)

  const EmptyPayment := PaymentData("", "", "", "", "", false)

  /** The text fields of the form; the error map is keyed by them, `Key` giving the source's key string. */
  datatype PaymentField = CardNumber | ExpiryDate | SecurityCode | FirstName | LastName {
    function Key(): string {
      match this
      case CardNumber => "cardNumber"
      case ExpiryDate => "expiryDate"
      case SecurityCode => "securityCode"
      case FirstName => "firstName"
      case LastName => "lastName"
    }
  }

  const AllFields: set<PaymentField> := {CardNumber, ExpiryDate, SecurityCode, FirstName, LastName}

  function FieldText(d: PaymentData, f: PaymentField): string {
    match f
    case CardNumber => d.cardNumber
    case ExpiryDate => d.expiryDate
    case SecurityCode => d.securityCode
    case FirstName => d.firstName
    case LastName => d.lastName
  }

  function WithText(d: PaymentData, f: PaymentField, text: string): PaymentData {
    match f
    case CardNumber => d.(cardNumber := text)
    case ExpiryDate => d.(expiryDate := text)
    case SecurityCode => d.(securityCode := text)
    case FirstName => d.(firstName := text)
    case LastName => d.(lastName := text)
  }

  /** `/^\d{2}\/\d{2}$/`. */
  predicate IsExpiryFormat(s: string) {
    |s| == 5 && IsDigit(s[0]) && IsDigit(s[1]) && s[2] == '/' && IsDigit(s[3]) && IsDigit(s[4])
  }

  /** `/^\d{3,4}$/`. */
  predicate IsSecurityCodeFormat(s: string) {
    3 <= |s| <= 4 && AllDigits(s)
  }

  /** `/^[a-zA-Z\s]+$/`. */
  predicate IsLettersOnly(s: string) {
    |s| > 0 && forall i :: 0 <= i < |s| ==> IsAsciiLetter(s[i]) || IsSpace(s[i])
  }

  /** The "required" check of each field: it fails when the field is empty (whitespace aside, where the source trims or strips). */
  predicate Missing(d: PaymentData, f: PaymentField) {
    match f
    case CardNumber => RemoveWhitespace(d.cardNumber) == ""
    case ExpiryDate => d.expiryDate == ""
    case SecurityCode => d.securityCode == ""
    case FirstName => Blank(d.firstName)
    case LastName => Blank(d.lastName)
  }

  /** What a field must satisfy for the payment to go through. */
  predicate FieldValid(d: PaymentData, f: PaymentField) {
    match f
    case CardNumber => |RemoveWhitespace(d.cardNumber)| >= 13
    case ExpiryDate => IsExpiryFormat(d.expiryDate)
    case SecurityCode => IsSecurityCodeFormat(d.securityCode)
    case FirstName => !Blank(d.firstName) && IsLettersOnly(d.firstName)
    case LastName => !Blank(d.lastName) && IsLettersOnly(d.lastName)
  }

  predicate PaymentValid(d: PaymentData) {
    && |RemoveWhitespace(d.cardNumber)| >= 13
    && IsExpiryFormat(d.expiryDate)
    && IsSecurityCodeFormat(d.securityCode)
    && !Blank(d.firstName) && IsLettersOnly(d.firstName)
    && !Blank(d.lastName) && IsLettersOnly(d.lastName)
  }

  function RequiredMessage(f: PaymentField): string {
    match f
    case CardNumber => "Card number is required"
    case ExpiryDate => "Expiry date is required"
    case SecurityCode => "Security code is required"
    case FirstName => "First name is required"
    case LastName => "Last name is required"
  }

  function InvalidMessage(f: PaymentField): string {
    match f
    case CardNumber => "Invalid card number"
    case ExpiryDate => "Invalid format (MM/YY)"
    case SecurityCode => "Invalid security code"
    case FirstName => "Only letters allowed"
    case LastName => "Only letters allowed"
  }

  /**
   * The message `validateForm` records for one field: the "required" message
   * exactly when the field is missing, the format message exactly when it is
   * present but invalid, and none exactly when it is valid.
   */
  function FieldError(d: PaymentData, f: PaymentField): (e: Option<string>)
    ensures e == Some(RequiredMessage(f)) <==> Missing(d, f)
    ensures e == Some(InvalidMessage(f)) <==> !Missing(d, f) && !FieldValid(d, f)
    ensures e == None <==> FieldValid(d, f)
  {
    if Missing(d, f) then Some(RequiredMessage(f))
    else if !FieldValid(d, f) then Some(InvalidMessage(f))
    else None
  }

  /**
   * The error map `validateForm` builds: a key for every failing field and no
   * other key, holding that field's message.
   */
  function PaymentErrors(d: PaymentData): (m: map<PaymentField, string>)
    ensures forall f :: f in m <==> !FieldValid(d, f)
    ensures forall f :: f in m ==> m[f] == FieldError(d, f).value
  {
    var m1 := Record(map[], CardNumber, FieldError(d, CardNumber));
    var m2 := Record(m1, ExpiryDate, FieldError(d, ExpiryDate));
    var m3 := Record(m2, SecurityCode, FieldError(d, SecurityCode));
    var m4 := Record(m3, FirstName, FieldError(d, FirstName));
    var m := Record(m4, LastName, FieldError(d, LastName));
    assert forall f :: (f in m <==> FieldError(d, f).Some?) && (f in m ==> m[f] == FieldError(d, f).value) by {
      forall f ensures (f in m <==> FieldError(d, f).Some?) && (f in m ==> m[f] == FieldError(d, f).value) {
        RecordAt(map[], CardNumber, FieldError(d, CardNumber), f);
        RecordAt(m1, ExpiryDate, FieldError(d, ExpiryDate), f);
        RecordAt(m2, SecurityCode, FieldError(d, SecurityCode), f);
        RecordAt(m3, FirstName, FieldError(d, FirstName), f);
        RecordAt(m4, LastName, FieldError(d, LastName), f);
      }
    }
    m
  }

  /** The error map is empty exactly when the whole form is valid. */
  lemma PaymentErrorsEmptyIff(d: PaymentData)
    ensures PaymentErrors(d) == map[] <==> PaymentValid(d)
  {
    var m := PaymentErrors(d);
    assert CardNumber !in m && ExpiryDate !in m && SecurityCode !in m && FirstName !in m && LastName !in m <==> PaymentValid(d);
    if m != map[] {
      var f :| f in m;
    }
  }

  /*
   * The five blocks of `validateForm`, one per field: each records the
   * "required" message when its field is missing, otherwise the format
   * message when it is malformed, otherwise nothing, and leaves the other
   * keys as they were.
   */

  /** The card number, whitespace removed, must have at least 13 characters. */
  method CheckCardNumber(m: map<PaymentField, string>, d: PaymentData) returns (r: map<PaymentField, string>)
    ensures r == Record(m, CardNumber, FieldError(d, CardNumber))
  {
    var card := RemoveWhitespace(d.cardNumber);
    r := m;
    if card == "" {
      r := r[CardNumber := "Card number is required"];
    } else if |card| < 13 {
      r := r[CardNumber := "Invalid card number"];
    }
  }

  /** The expiry date must read `MM/YY`. */
  method CheckExpiryDate(m: map<PaymentField, string>, d: PaymentData) returns (r: map<PaymentField, string>)
    ensures r == Record(m, ExpiryDate, FieldError(d, ExpiryDate))
  {
    r := m;
    if d.expiryDate == "" {
      r := r[ExpiryDate := "Expiry date is required"];
    } else if !IsExpiryFormat(d.expiryDate) {
      r := r[ExpiryDate := "Invalid format (MM/YY)"];
    }
  }

  /** The security code must be three or four digits. */
  method CheckSecurityCode(m: map<PaymentField, string>, d: PaymentData) returns (r: map<PaymentField, string>)
    ensures r == Record(m, SecurityCode, FieldError(d, SecurityCode))
  {
    r := m;
    if d.securityCode == "" {
      r := r[SecurityCode := "Security code is required"];
    } else if !IsSecurityCodeFormat(d.securityCode) {
      r := r[SecurityCode := "Invalid security code"];
    }
  }

  /** The first name must be non-blank letters and whitespace. */
  method CheckFirstName(m: map<PaymentField, string>, d: PaymentData) returns (r: map<PaymentField, string>)
    ensures r == Record(m, FirstName, FieldError(d, FirstName))
  {
    var blank := IsTrimmedEmpty(d.firstName);
    r := m;
    if blank {
      r := r[FirstName := "First name is required"];
    } else if !IsLettersOnly(d.firstName) {
      r := r[FirstName := "Only letters allowed"];
    }
  }

  /** The last name must be non-blank letters and whitespace. */
  method CheckLastName(m: map<PaymentField, string>, d: PaymentData) returns (r: map<PaymentField, string>)
    ensures r == Record(m, LastName, FieldError(d, LastName))
  {
    var blank := IsTrimmedEmpty(d.lastName);
    r := m;
    if blank {
      r := r[LastName := "Last name is required"];
    } else if !IsLettersOnly(d.lastName) {
      r := r[LastName := "Only letters allowed"];
    }
  }

  /** The value `handleInputChange` stores for `field` when the user types `value`. */
  function InputText(field: PaymentField, value: string): string {
    match field
    case CardNumber => CardNumberText(value)
    case ExpiryDate => ExpiryDateText(value)
    case SecurityCode => SecurityCodeText(value)
    case FirstName => value
    case LastName => value
  }

  /**
   * A typed card number passes the length check exactly when the user
   * typed at least 13 digits: the formatter keeps up to 16 of them.
   */
  lemma FormattedCardNumberValid(value: string)
    ensures |RemoveWhitespace(CardNumberText(value))| >= 13 <==> |Digits(value)| >= 13
  {
    CardNumberShape(value);
  }

  /** A typed expiry date has the `MM/YY` shape exactly when the user typed at least four digits. */
  lemma FormattedExpiryDateValid(value: string)
    ensures IsExpiryFormat(ExpiryDateText(value)) <==> |Digits(value)| >= 4
  {
    var v, r := Digits(value), ExpiryDateText(value);
    if |v| >= 4 {
      assert r[0] == v[0] && r[1] == v[1] by { assert r[..2] == v[..2]; }
      assert r[3] == v[2] && r[4] == v[3] by { assert r[3..] == v[2..4]; }
    }
  }

  /** A typed security code has three or four digits exactly when the user typed at least three. */
  lemma FormattedSecurityCodeValid(value: string)
    ensures IsSecurityCodeFormat(SecurityCodeText(value)) <==> |Digits(value)| >= 3
  {
  }

  /** `errors[key]` is truthy: present and not the empty string. */
  predicate HasError(errors: map<PaymentField, string>, key: PaymentField) {
    key in errors && errors[key] != ""
  }

  class PaymentPage {
    var paymentData: PaymentData
    var errors: map<PaymentField, string>

    constructor ()
      ensures paymentData == EmptyPayment && errors == map[]
    {
      paymentData := EmptyPayment;
      errors := map[];
    }

    /** `validateForm`: replaces the error map and reports whether it is empty. */
    method ValidateForm() returns (ok: bool)
      modifies this`errors
      ensures errors == PaymentErrors(paymentData)
      ensures ok <==> PaymentValid(paymentData)
    {
      var newErrors: map<PaymentField, string> := map[];
      var d := paymentData;
      newErrors := CheckCardNumber(newErrors, d);
      newErrors := CheckExpiryDate(newErrors, d);
      newErrors := CheckSecurityCode(newErrors, d);
      newErrors := CheckFirstName(newErrors, d);
      newErrors := CheckLastName(newErrors, d);
      assert newErrors == PaymentErrors(d);
      PaymentErrorsEmptyIff(d);
      NoKeysIffEmpty(newErrors);
      errors := newErrors;
      ok := |newErrors| == 0;
    }

    /**
     * `handleInputChange`: stores the formatted value in the edited field only,
     * and blanks that field's error if it was showing one.
     */
    method HandleInputChange(field: PaymentField, value: string)
      modifies this
      ensures paymentData == WithText(old(paymentData), field, InputText(field, value))
      ensures errors == if HasError(old(errors), field) then old(errors)[field := ""] else old(errors)
    {
      var formattedValue := value;
      match field {
        case CardNumber =>
          formattedValue := FormatCardNumber(value);
        case ExpiryDate =>
          formattedValue := ExpiryDateText(value);
        case SecurityCode =>
          formattedValue := SecurityCodeText(value);
        case FirstName =>
        case LastName =>
      }
      paymentData := WithText(paymentData, field, formattedValue);
      if HasError(errors, field) {
        errors := errors[field := ""];
      }
    }

    /** The "save as default" checkbox. */
    method SetSaveAsDefault(checked: bool)
      modifies this`paymentData
      ensures paymentData == old(paymentData).(saveAsDefault := checked)
    {
      paymentData := paymentData.(saveAsDefault := checked);
    }

    /** `handleSubmit`: proceeds to the confirmation page only when validation succeeds. */
    method HandleSubmit() returns (proceeds: bool)
      modifies this`errors
      ensures errors == PaymentErrors(paymentData)
      ensures proceeds <==> PaymentValid(paymentData)
    {
      proceeds := ValidateForm();
    }
  }
}
