/**
 * The Profile page: the email, phone and zip-code validators, the two form
 * validations that share one error map, and the edit/save/cancel flags.
 */
module Profile {
  import opened Wrappers
  import opened Text
  import opened ErrorMaps
  import opened Seqs

  // ----- The validators -----

  /** `[^\s@]`: a character an email part may hold. */
  predicate EmailChar(c: char) {
    !IsSpace(c) && c != '@'
  }

  /** `[^\s@]+`. */
  predicate EmailPart(t: string) {
    |t| > 0 && forall k :: 0 <= k < |t| ==> EmailChar(t[k])
  }

  /**
   * `/^[^\s@]+@[^\s@]+\.[^\s@]+$/` as the regular expression reads: a local
   * part, `@`, a part, `.`, and a last part.
   */
  ghost predicate EmailPattern(s: string) {
    exists i, j :: 0 < i && i + 1 < j && j + 1 < |s| && s[i] == '@' && s[j] == '.'
      && EmailPart(s[..i]) && EmailPart(s[i + 1..j]) && EmailPart(s[j + 1..])
  }

  /**
   * `validateEmail`, computed: split at the first `@`; both sides must be
   * parts, and the domain must hold a `.` with text on either side.
   */
  function ValidateEmail(s: string): (b: bool)
    ensures b ==> |s| >= 5 && '@' in s && s[0] != '@'
  {
    match IndexOf(s, '@')
    case None => false
    case Some(i) =>
      var domain := s[i + 1..];
      EmailPart(s[..i]) && EmailPart(domain) && |domain| >= 3 && '.' in domain[1..|domain| - 1]
  }

  /** An email part keeps its characters' class in every slice. */
  lemma EmailPartSlice(t: string, a: int, b: int)
    requires EmailPart(t) && 0 <= a < b <= |t|
    ensures EmailPart(t[a..b])
  {
    forall k | 0 <= k < b - a ensures EmailChar(t[a..b][k]) {
      assert t[a..b][k] == t[a + k];
    }
  }

  lemma ValidateEmailSound(s: string)
    requires ValidateEmail(s)
    ensures EmailPattern(s)
  {
    var i := IndexOf(s, '@').value;
    var domain := s[i + 1..];
    var inner := domain[1..|domain| - 1];
    var k :| 0 <= k < |inner| && inner[k] == '.';
    var j := i + 2 + k;
    assert s[j] == domain[k + 1] == '.';
    assert s[i + 1..j] == domain[..k + 1];
    assert s[j + 1..] == domain[k + 2..];
    EmailPartSlice(domain, 0, k + 1);
    EmailPartSlice(domain, k + 2, |domain|);
  }

  lemma ValidateEmailComplete(s: string, i: int, j: int)
    requires 0 < i && i + 1 < j && j + 1 < |s| && s[i] == '@' && s[j] == '.'
    requires EmailPart(s[..i]) && EmailPart(s[i + 1..j]) && EmailPart(s[j + 1..])
    ensures ValidateEmail(s)
  {
    var r := IndexOf(s, '@');
    assert r.Some?;
    assert r.value == i;
    var domain := s[i + 1..];
    forall k | 0 <= k < |domain| ensures EmailChar(domain[k]) {
      if i + 1 + k < j {
        assert domain[k] == s[i + 1..j][k];
      } else if i + 1 + k > j {
        assert domain[k] == s[j + 1..][k - (j - i)];
      }
    }
    var inner := domain[1..|domain| - 1];
    assert inner[j - i - 2] == '.';
  }

  /** The computed check accepts exactly the strings the regular expression matches. */
  lemma ValidateEmailIff(s: string)
    ensures ValidateEmail(s) <==> EmailPattern(s)
  {
    if ValidateEmail(s) {
      ValidateEmailSound(s);
    }
    if EmailPattern(s) {
      var i, j :| 0 < i && i + 1 < j && j + 1 < |s| && s[i] == '@' && s[j] == '.'
        && EmailPart(s[..i]) && EmailPart(s[i + 1..j]) && EmailPart(s[j + 1..]);
      ValidateEmailComplete(s, i, j);
    }
  }

  /** A valid email holds exactly one `@` and no whitespace. */
  lemma ValidEmailShape(s: string)
    requires ValidateEmail(s)
    ensures multiset(s)['@'] == 1
    ensures forall k :: 0 <= k < |s| ==> !IsSpace(s[k])
  {
    var i := IndexOf(s, '@').value;
    var local, domain := s[..i], s[i + 1..];
    assert s == local + [s[i]] + domain;
    assert '@' !in domain by {
      forall k | 0 <= k < |domain| ensures domain[k] != '@' {
        assert EmailChar(domain[k]);
      }
    }
    assert multiset(s) == multiset(local) + multiset([s[i]]) + multiset(domain);
    forall k | 0 <= k < |s| ensures !IsSpace(s[k]) {
      if k < i {
        assert s[k] == local[k];
      } else if k > i {
        assert s[k] == domain[k - i - 1];
      }
    }
  }

  /** `[\d\s\-\(\)]`. */
  predicate PhoneChar(c: char) {
    IsDigit(c) || IsSpace(c) || c == '-' || c == '(' || c == ')'
  }

  /** `[\d\s\-\(\)]+`. */
  predicate PhoneBody(t: string) {
    |t| > 0 && forall k :: 0 <= k < |t| ==> PhoneChar(t[k])
  }

  /** `/^[\+]?[\d\s\-\(\)]+$/`: an optional leading `+`, then phone characters. */
  predicate PhonePattern(s: string) {
    PhoneBody(s) || (|s| > 0 && s[0] == '+' && PhoneBody(s[1..]))
  }

  /** `validatePhone`: the pattern, and at least ten digits. */
  function ValidatePhone(s: string): (b: bool)
    ensures b ==> |s| >= 10 && (s[0] == '+' || PhoneChar(s[0]))
  {
    PhonePattern(s) && |Digits(s)| >= 10
  }

  /** A valid phone number is at least ten characters long, and a `+` can only lead it. */
  lemma ValidPhoneShape(s: string)
    requires ValidatePhone(s)
    ensures |s| >= 10
    ensures forall k :: 0 < k < |s| ==> s[k] != '+'
  {
    if !PhoneBody(s) {
      forall k | 0 < k < |s| ensures s[k] != '+' {
        assert s[k] == s[1..][k - 1];
      }
    }
  }

  /** `/^\d{5}(-\d{4})?$/`: five digits, optionally a hyphen and four more. */
  function ValidateZipCode(s: string): (b: bool)
    ensures b ==> |s| == 5 || (|s| == 10 && s[5] == '-')
    ensures b ==> forall k :: 0 <= k < |s| && k != 5 ==> IsDigit(s[k])
  {
    if |s| == 10 && AllDigits(s[..5]) && s[5] == '-' && AllDigits(s[6..]) then
      ZipCodeHalves(s);
      true
    else
      |s| == 5 && AllDigits(s)
  }

  /** Both digit runs of a hyphenated zip code, read in place. */
  lemma ZipCodeHalves(s: string)
    requires |s| == 10 && AllDigits(s[..5]) && AllDigits(s[6..])
    ensures forall k :: 0 <= k < |s| && k != 5 ==> IsDigit(s[k])
  {
    forall k | 0 <= k < |s| && k != 5 ensures IsDigit(s[k]) {
      if k < 5 {
        assert s[k] == s[..5][k];
      } else {
        assert s[k] == s[6..][k - 6];
      }
    }
  }

  /** A valid zip code carries five or nine digits and nothing else but the hyphen. */
  lemma ValidZipCodeDigits(s: string)
    requires ValidateZipCode(s)
    ensures |s| == 5 ==> Digits(s) == s
    ensures |s| == 10 ==> Digits(s) == s[..5] + s[6..]
    ensures |Digits(s)| == 5 || |Digits(s)| == 9
  {
    if |s| == 10 {
      HyphenatedDigits(s[..5], s[6..]);
      assert s == s[..5] + "-" + s[6..];
    }
  }

  lemma HyphenatedDigits(a: string, b: string)
    requires AllDigits(a) && AllDigits(b)
    ensures Digits(a + "-" + b) == a + b
  {
    var h: string := "-";
    calc {
      Digits(a + h + b);
      Filter(a + h + b, IsDigit);
      { FilterConcat(a + h, b, IsDigit); }
      Filter(a + h, IsDigit) + Filter(b, IsDigit);
      { FilterConcat(a, h, IsDigit); }
      Filter(a, IsDigit) + Filter(h, IsDigit) + Filter(b, IsDigit);
      { FilterAll(a, IsDigit); FilterAll(b, IsDigit); NonDigitDropped('-'); }
      a + [] + b;
      a + b;
    }
  }

  lemma NonDigitDropped(c: char)
    requires !IsDigit(c)
    ensures Filter([c], IsDigit) == []
  {
    assert [c][1..] == [];
  }

  lemma ZipCodeExamples()
    ensures ValidateZipCode("94105") && ValidateZipCode("94105-1234")
    ensures !ValidateZipCode("9410") && !ValidateZipCode("94105-123") && !ValidateZipCode("94105 1234")
  {
  }

  // ----- The forms and their error map -----

  datatype ProfileData = ProfileData(fullName: string, email: string, phone: string, interestedTopics: seq<string>)

  datatype BillingData = BillingData(
    fullName: string,
    companyName: string,
    country: string,
    state: string,
    address: string,
    city: string,
    zipCode: string,
    vatNumber: string,
    emailInvoices: bool)

  /** The keys of the page's one error map; `Key` gives the source's key string. */
  datatype ErrorKey = FullName | Email | Phone | BillingFullName | Country | Address | City | ZipCode {
    function Key(): string {
      match this
      case FullName => "fullName"
      case Email => "email"
      case Phone => "phone"
      case BillingFullName => "billingFullName"
      case Country => "country"
      case Address => "address"
      case City => "city"
      case ZipCode => "zipCode"
    }

    predicate IsProfileKey() {
      this == FullName || this == Email || this == Phone
    }
  }

  /** What the profile form demands of one key; billing keys demand nothing. */
  predicate ProfileFieldValid(p: ProfileData, k: ErrorKey) {
    match k
    case FullName => !Blank(p.fullName)
    case Email => !Blank(p.email) && ValidateEmail(p.email)
    case Phone => !Blank(p.phone) && ValidatePhone(p.phone)
    case _ => true
  }

  predicate ProfileValid(p: ProfileData) {
    !Blank(p.fullName) && !Blank(p.email) && ValidateEmail(p.email) && !Blank(p.phone) && ValidatePhone(p.phone)
  }

  /**
   * The message `validateProfileForm` records under `k`: none exactly when
   * the key's check passes, the "required" message whenever the field is
   * blank, the format message when it is present but malformed.
   */
  function ProfileFieldError(p: ProfileData, k: ErrorKey): (e: Option<string>)
    ensures e.None? <==> ProfileFieldValid(p, k)
    ensures k == Email ==> (e == Some("Email is required") <==> Blank(p.email))
    ensures k == Email ==> (e == Some("Invalid email format") <==> !Blank(p.email) && !ValidateEmail(p.email))
    ensures k == Phone ==> (e == Some("Phone number is required") <==> Blank(p.phone))
    ensures k == Phone ==> (e == Some("Invalid phone number") <==> !Blank(p.phone) && !ValidatePhone(p.phone))
  {
    match k
    case FullName => if Blank(p.fullName) then Some("Full name is required") else None
    case Email =>
      if Blank(p.email) then Some("Email is required")
      else if !ValidateEmail(p.email) then Some("Invalid email format") else None
    case Phone =>
      if Blank(p.phone) then Some("Phone number is required")
      else if !ValidatePhone(p.phone) then Some("Invalid phone number") else None
    case _ => None
  }

  /**
   * The error map `validateProfileForm` builds: a key is present exactly
   * when its check fails, holding that check's message, and only profile
   * keys occur.
   */
  function ProfileErrors(p: ProfileData): (m: map<ErrorKey, string>)
    ensures forall k :: k in m <==> !ProfileFieldValid(p, k)
    ensures forall k :: k in m ==> m[k] == ProfileFieldError(p, k).value && k.IsProfileKey()
  {
    var m1 := Record(map[], FullName, ProfileFieldError(p, FullName));
    var m2 := Record(m1, Email, ProfileFieldError(p, Email));
    var m := Record(m2, Phone, ProfileFieldError(p, Phone));
    assert forall k :: (k in m <==> ProfileFieldError(p, k).Some?) && (k in m ==> m[k] == ProfileFieldError(p, k).value) by {
      forall k ensures (k in m <==> ProfileFieldError(p, k).Some?) && (k in m ==> m[k] == ProfileFieldError(p, k).value) {
        RecordAt(map[], FullName, ProfileFieldError(p, FullName), k);
        RecordAt(m1, Email, ProfileFieldError(p, Email), k);
        RecordAt(m2, Phone, ProfileFieldError(p, Phone), k);
      }
    }
    m
  }

  lemma ProfileErrorsEmptyIff(p: ProfileData)
    ensures ProfileErrors(p) == map[] <==> ProfileValid(p)
  {
    var m := ProfileErrors(p);
    assert FullName !in m && Email !in m && Phone !in m <==> ProfileValid(p);
    if m != map[] {
      var k :| k in m;
    }
  }

  /** What the billing form demands of one key; the profile keys demand nothing. */
  predicate BillingFieldValid(b: BillingData, k: ErrorKey) {
    match k
    case BillingFullName => !Blank(b.fullName)
    case Country => !Blank(b.country)
    case Address => !Blank(b.address)
    case City => !Blank(b.city)
    case ZipCode => !Blank(b.zipCode) && ValidateZipCode(b.zipCode)
    case _ => true
  }

  predicate BillingValid(b: BillingData) {
    !Blank(b.fullName) && !Blank(b.country) && !Blank(b.address) && !Blank(b.city)
    && !Blank(b.zipCode) && ValidateZipCode(b.zipCode)
  }

  /** The message `validateBillingForm` records under `k`. */
  function BillingFieldError(b: BillingData, k: ErrorKey): (e: Option<string>)
    ensures e.None? <==> BillingFieldValid(b, k)
    ensures k == ZipCode ==> (e == Some("Zip code is required") <==> Blank(b.zipCode))
    ensures k == ZipCode ==> (e == Some("Invalid zip code format") <==> !Blank(b.zipCode) && !ValidateZipCode(b.zipCode))
  {
    match k
    case BillingFullName => if Blank(b.fullName) then Some("Full name is required") else None
    case Country => if Blank(b.country) then Some("Country is required") else None
    case Address => if Blank(b.address) then Some("Address is required") else None
    case City => if Blank(b.city) then Some("City is required") else None
    case ZipCode =>
      if Blank(b.zipCode) then Some("Zip code is required")
      else if !ValidateZipCode(b.zipCode) then Some("Invalid zip code format") else None
    case _ => None
  }

  /**
   * The error map `validateBillingForm` builds: a key is present exactly
   * when its check fails, holding that check's message; the full name is
   * reported under `billingFullName`, never under the profile's `fullName`.
   */
  function BillingErrors(b: BillingData): (m: map<ErrorKey, string>)
    ensures forall k :: k in m <==> !BillingFieldValid(b, k)
    ensures forall k :: k in m ==> m[k] == BillingFieldError(b, k).value && !k.IsProfileKey()
  {
    var m1 := Record(map[], BillingFullName, BillingFieldError(b, BillingFullName));
    var m2 := Record(m1, Country, BillingFieldError(b, Country));
    var m3 := Record(m2, Address, BillingFieldError(b, Address));
    var m4 := Record(m3, City, BillingFieldError(b, City));
    var m := Record(m4, ZipCode, BillingFieldError(b, ZipCode));
    assert forall k :: (k in m <==> BillingFieldError(b, k).Some?) && (k in m ==> m[k] == BillingFieldError(b, k).value) by {
      forall k ensures (k in m <==> BillingFieldError(b, k).Some?) && (k in m ==> m[k] == BillingFieldError(b, k).value) {
        RecordAt(map[], BillingFullName, BillingFieldError(b, BillingFullName), k);
        RecordAt(m1, Country, BillingFieldError(b, Country), k);
        RecordAt(m2, Address, BillingFieldError(b, Address), k);
        RecordAt(m3, City, BillingFieldError(b, City), k);
        RecordAt(m4, ZipCode, BillingFieldError(b, ZipCode), k);
      }
    }
    m
  }

  lemma BillingErrorsEmptyIff(b: BillingData)
    ensures BillingErrors(b) == map[] <==> BillingValid(b)
  {
    var m := BillingErrors(b);
    assert BillingFullName !in m && Country !in m && Address !in m && City !in m && ZipCode !in m <==> BillingValid(b);
    if m != map[] {
      var k :| k in m;
    }
  }

  /** The company name, state, VAT number and invoice choice are never checked. */
  lemma BillingIgnoresOptionalFields(b: BillingData, companyName: string, state: string, vatNumber: string, emailInvoices: bool)
    ensures BillingErrors(b.(companyName := companyName, state := state, vatNumber := vatNumber, emailInvoices := emailInvoices))
         == BillingErrors(b)
  {
    var b' := b.(companyName := companyName, state := state, vatNumber := vatNumber, emailInvoices := emailInvoices);
    assert forall k :: BillingFieldError(b', k) == BillingFieldError(b, k);
  }

  /*
   * The blocks of the two validations, one per key: each records that key's
   * message, if any, and leaves the other keys as they were.
   */

  method CheckFullName(m: map<ErrorKey, string>, p: ProfileData) returns (r: map<ErrorKey, string>)
    ensures r == Record(m, FullName, ProfileFieldError(p, FullName))
  {
    var blank := IsTrimmedEmpty(p.fullName);
    r := m;
    if blank {
      r := r[FullName := "Full name is required"];
    }
  }

  method CheckEmail(m: map<ErrorKey, string>, p: ProfileData) returns (r: map<ErrorKey, string>)
    ensures r == Record(m, Email, ProfileFieldError(p, Email))
  {
    var blank := IsTrimmedEmpty(p.email);
    r := m;
    if blank {
      r := r[Email := "Email is required"];
    } else if !ValidateEmail(p.email) {
      r := r[Email := "Invalid email format"];
    }
  }

  method CheckPhone(m: map<ErrorKey, string>, p: ProfileData) returns (r: map<ErrorKey, string>)
    ensures r == Record(m, Phone, ProfileFieldError(p, Phone))
  {
    var blank := IsTrimmedEmpty(p.phone);
    r := m;
    if blank {
      r := r[Phone := "Phone number is required"];
    } else if !ValidatePhone(p.phone) {
      r := r[Phone := "Invalid phone number"];
    }
  }

  method CheckBillingFullName(m: map<ErrorKey, string>, b: BillingData) returns (r: map<ErrorKey, string>)
    ensures r == Record(m, BillingFullName, BillingFieldError(b, BillingFullName))
  {
    var blank := IsTrimmedEmpty(b.fullName);
    r := m;
    if blank {
      r := r[BillingFullName := "Full name is required"];
    }
  }

  method CheckCountry(m: map<ErrorKey, string>, b: BillingData) returns (r: map<ErrorKey, string>)
    ensures r == Record(m, Country, BillingFieldError(b, Country))
  {
    var blank := IsTrimmedEmpty(b.country);
    r := m;
    if blank {
      r := r[Country := "Country is required"];
    }
  }

  method CheckAddress(m: map<ErrorKey, string>, b: BillingData) returns (r: map<ErrorKey, string>)
    ensures r == Record(m, Address, BillingFieldError(b, Address))
  {
    var blank := IsTrimmedEmpty(b.address);
    r := m;
    if blank {
      r := r[Address := "Address is required"];
    }
  }

  method CheckCity(m: map<ErrorKey, string>, b: BillingData) returns (r: map<ErrorKey, string>)
    ensures r == Record(m, City, BillingFieldError(b, City))
  {
    var blank := IsTrimmedEmpty(b.city);
    r := m;
    if blank {
      r := r[City := "City is required"];
    }
  }

  method CheckZipCode(m: map<ErrorKey, string>, b: BillingData) returns (r: map<ErrorKey, string>)
    ensures r == Record(m, ZipCode, BillingFieldError(b, ZipCode))
  {
    var blank := IsTrimmedEmpty(b.zipCode);
    r := m;
    if blank {
      r := r[ZipCode := "Zip code is required"];
    } else if !ValidateZipCode(b.zipCode) {
      r := r[ZipCode := "Invalid zip code format"];
    }
  }

  /** The two edit modes `cancelEdit` chooses between. */
  datatype EditKind = ProfileEdit | BillingEdit

  class ProfilePage {
    var profileData: ProfileData
    var billingData: BillingData
    var isEditingProfile: bool
    var isEditingBilling: bool
    var errors: map<ErrorKey, string>

    /** The page's initial state: the sample account, nothing being edited, no errors. */
    constructor ()
      ensures profileData == ProfileData("John Doe", "john.doe@example.com", "+1 (555) 123-4567",
                                         ["web-development", "graphic-design"])
      ensures billingData == BillingData("John Doe", "Acme Corp", "United States", "California",
                                         "123 Main Street", "San Francisco", "94105", "", true)
      ensures !isEditingProfile && !isEditingBilling && errors == map[]
    {
      profileData := ProfileData("John Doe", "john.doe@example.com", "+1 (555) 123-4567",
                                 ["web-development", "graphic-design"]);
      billingData := BillingData("John Doe", "Acme Corp", "United States", "California",
                                 "123 Main Street", "San Francisco", "94105", "", true);
      isEditingProfile := false;
      isEditingBilling := false;
      errors := map[];
    }

    /** The profile card's Edit button. */
    method StartEditProfile()
      modifies this`isEditingProfile
      ensures isEditingProfile
    {
      isEditingProfile := true;
    }

    /** The billing card's Edit button. */
    method StartEditBilling()
      modifies this`isEditingBilling
      ensures isEditingBilling
    {
      isEditingBilling := true;
    }

    /** `validateProfileForm`: replaces the error map and reports whether it is empty. */
    method ValidateProfileForm() returns (ok: bool)
      modifies this`errors
      ensures errors == ProfileErrors(profileData)
      ensures ok <==> ProfileValid(profileData)
    {
      var p := profileData;
      var newErrors: map<ErrorKey, string> := map[];
      newErrors := CheckFullName(newErrors, p);
      newErrors := CheckEmail(newErrors, p);
      newErrors := CheckPhone(newErrors, p);
      ProfileErrorsEmptyIff(p);
      NoKeysIffEmpty(newErrors);
      errors := newErrors;
      ok := |newErrors| == 0;
    }

    /** `validateBillingForm`: replaces the error map and reports whether it is empty. */
    method ValidateBillingForm() returns (ok: bool)
      modifies this`errors
      ensures errors == BillingErrors(billingData)
      ensures ok <==> BillingValid(billingData)
    {
      var b := billingData;
      var newErrors: map<ErrorKey, string> := map[];
      newErrors := CheckBillingFullName(newErrors, b);
      newErrors := CheckCountry(newErrors, b);
      newErrors := CheckAddress(newErrors, b);
      newErrors := CheckCity(newErrors, b);
      newErrors := CheckZipCode(newErrors, b);
      BillingErrorsEmptyIff(b);
      NoKeysIffEmpty(newErrors);
      errors := newErrors;
      ok := |newErrors| == 0;
    }

    /** `saveProfile`: leaves profile editing only when the profile validates. */
    method SaveProfile()
      modifies this`errors, this`isEditingProfile
      ensures errors == ProfileErrors(profileData)
      ensures isEditingProfile == (old(isEditingProfile) && !ProfileValid(profileData))
    {
      var ok := ValidateProfileForm();
      if ok {
        isEditingProfile := false;
      }
    }

    /** `saveBilling`: leaves billing editing only when the billing details validate. */
    method SaveBilling()
      modifies this`errors, this`isEditingBilling
      ensures errors == BillingErrors(billingData)
      ensures isEditingBilling == (old(isEditingBilling) && !BillingValid(billingData))
    {
      var ok := ValidateBillingForm();
      if ok {
        isEditingBilling := false;
      }
    }

    /** `cancelEdit`: leaves the chosen edit mode only, and clears every error. */
    method CancelEdit(kind: EditKind)
      modifies this`isEditingProfile, this`isEditingBilling, this`errors
      ensures kind == ProfileEdit ==> !isEditingProfile && isEditingBilling == old(isEditingBilling)
      ensures kind == BillingEdit ==> !isEditingBilling && isEditingProfile == old(isEditingProfile)
      ensures errors == map[]
    {
      if kind == ProfileEdit {
        isEditingProfile := false;
      } else {
        isEditingBilling := false;
      }
      errors := map[];
    }
  }
}
