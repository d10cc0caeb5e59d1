/**
  The membership application form of the web client: age from a date of birth,
  the format checks (Bangladesh phone, email, NID / birth certificate number,
  photo size), the error map that `validateForm` builds, and the error clearing
  done when a field is edited.
*/
module JoinForm {
  import opened Wrappers
  import opened Strings
  import opened Browser

  /** A calendar date: year, month (1 to 12), day of month. */
  datatype Date = Date(year: int, month: int, day: int)

  /** Calendar order of two dates. */
  predicate Earlier(a: Date, b: Date) {
    a.year < b.year || (a.year == b.year && (a.month < b.month || (a.month == b.month && a.day < b.day)))
  }

  /** The date on which someone born on `birth` turns `n`. */
  function Anniversary(birth: Date, n: int): Date {
    Date(birth.year + n, birth.month, birth.day)
  }

  /** Today's month and day come before the birthday's in the calendar year. */
  predicate BirthdayStillAhead(today: Date, birth: Date) {
    today.month < birth.month || (today.month == birth.month && today.day < birth.day)
  }

  /** Completed years of life on `today`: the year difference, one less while this
      year's birthday is still ahead. */
  function Age(today: Date, birth: Date): int {
    today.year - birth.year - (if BirthdayStillAhead(today, birth) then 1 else 0)
  }

  /** `calculateAge`: starts from the year difference and takes one off when the
      birthday of the current year has not come yet. */
  method CalculateAge(today: Date, birth: Date) returns (age: int)
    ensures age == Age(today, birth)
  {
    age := today.year - birth.year;
    var monthDiff := today.month - birth.month;
    if monthDiff < 0 || (monthDiff == 0 && today.day < birth.day) {
      age := age - 1;
    }
  }

  /** The age is the year difference or one less, one less exactly while this year's
      birthday is still ahead, and it reaches `n` exactly when the `n`-th birthday is
      not after today. */
  lemma AgeCountsCompletedYears(today: Date, birth: Date)
    ensures var age := Age(today, birth);
      && (age == today.year - birth.year || age == today.year - birth.year - 1)
      && (age == today.year - birth.year - 1 <==> BirthdayStillAhead(today, birth))
      && forall n :: age >= n <==> !Earlier(today, Anniversary(birth, n))
  {
  }

  // ---------------------------------------------------------------------------
  // Format checks

  /** The page's `!value.trim()`: the field is empty or whitespace only. */
  predicate IsBlank(s: string)
    decreases |s|
  {
    s == [] || (s[0] in JsWhitespace && IsBlank(s[1..]))
  }

  /** Blank means every character is whitespace. */
  lemma {:induction false} BlankIffAllWhitespace(s: string)
    ensures IsBlank(s) <==> AllIn(s, JsWhitespace)
    decreases |s|
  {
    if s != [] {
      BlankIffAllWhitespace(s[1..]);
      assert forall k :: 0 < k < |s| ==> s[k] == s[1..][k - 1];
    }
  }

  /** `IsBlank` is the page's `!value.trim()`: trimming leaves nothing. */
  lemma BlankIffTrimmedEmpty(s: string)
    ensures IsBlank(s) <==> Strip(s, JsWhitespace) == []
  {
    BlankIffAllWhitespace(s);
  }

  /** A string containing a character outside the whitespace class is not blank. */
  lemma NotBlank(s: string, k: int)
    requires 0 <= k < |s| && s[k] !in JsWhitespace
    ensures !IsBlank(s)
  {
    BlankIffAllWhitespace(s);
  }

  /** A character of `[^\s@]`. */
  predicate EmailChar(c: char) {
    c !in JsWhitespace && c != '@'
  }

  predicate AllEmailChars(s: string) {
    forall k :: 0 <= k < |s| ==> EmailChar(s[k])
  }

  /** `s` splits as `local @ host . tld` with `@` at `i`, `.` at `j` and three
      non-empty runs of `[^\s@]`: one way for `^[^\s@]+@[^\s@]+\.[^\s@]+$` to match. */
  ghost predicate EmailSplit(s: string, i: int, j: int) {
    && 0 < i && i + 1 < j && j + 1 < |s|
    && s[i] == '@' && s[j] == '.'
    && AllEmailChars(s[..i]) && AllEmailChars(s[i + 1..j]) && AllEmailChars(s[j + 1..])
  }

  /** The language of the email regular expression. */
  ghost predicate MatchesEmailPattern(s: string) {
    exists i, j :: EmailSplit(s, i, j)
  }

  /** The part after the `@`: free of whitespace and `@`, with a `.` that is neither
      its first nor its last character. */
  predicate DomainOk(d: string) {
    AllEmailChars(d) && exists j | 0 < j < |d| - 1 :: d[j] == '.'
  }

  /** The `@` at position `i` ends a non-empty local part free of whitespace and `@`
      and starts an acceptable domain. */
  predicate AtSplits(s: string, i: int) {
    0 < i < |s| && s[i] == '@' && AllEmailChars(s[..i]) && DomainOk(s[i + 1..])
  }

  /** Some position from `i` on is an `@` that splits `s` acceptably. */
  predicate SplitFrom(s: string, i: nat)
    decreases |s| - i
  {
    i < |s| && (AtSplits(s, i) || SplitFrom(s, i + 1))
  }

  /** The email check: the address has an `@` after its first character that splits
      it acceptably. */
  predicate EmailValid(s: string) {
    SplitFrom(s, 1)
  }

  /** The scan from `i` finds a split exactly when one exists at or after `i`. */
  lemma {:induction false} SplitFromIff(s: string, i: nat)
    ensures SplitFrom(s, i) <==> exists k :: i <= k && AtSplits(s, k)
    decreases |s| - i
  {
    if i < |s| {
      SplitFromIff(s, i + 1);
      if exists k :: i <= k && AtSplits(s, k) {
        var k :| i <= k && AtSplits(s, k);
        assert k == i || (i + 1 <= k && AtSplits(s, k));
      }
    }
  }

  /** The email check accepts exactly the strings the regular expression matches. */
  lemma EmailValidIffPattern(s: string)
    ensures EmailValid(s) <==> MatchesEmailPattern(s)
  {
    SplitFromIff(s, 1);
    if EmailValid(s) {
      var i :| 1 <= i && AtSplits(s, i);
      CheckGivesSplit(s, i);
    }
    if MatchesEmailPattern(s) {
      var i, j :| EmailSplit(s, i, j);
      SplitGivesDomain(s, i, j);
      assert AtSplits(s, i);
    }
  }

  /** A domain with an inner `.` yields a split of the whole address. */
  lemma CheckGivesSplit(s: string, i: int)
    requires AtSplits(s, i)
    ensures MatchesEmailPattern(s)
  {
    var d := s[i + 1..];
    var j :| 0 < j < |d| - 1 && d[j] == '.';
    assert d[..j] == s[i + 1..i + 1 + j];
    assert d[j + 1..] == s[i + 1 + j + 1..];
    assert EmailSplit(s, i, i + 1 + j);
  }

  /** The host and top-level parts of a split together form an acceptable domain. */
  lemma SplitGivesDomain(s: string, i: int, j: int)
    requires EmailSplit(s, i, j)
    ensures DomainOk(s[i + 1..])
  {
    var d := s[i + 1..];
    forall k | 0 <= k < |d| ensures EmailChar(d[k]) {
      if k < j - (i + 1) {
        assert d[k] == s[i + 1..j][k];
      } else if k > j - (i + 1) {
        assert d[k] == s[j + 1..][k - (j - i)];
      }
    }
    assert d[j - (i + 1)] == '.';
  }

  /** An address the check accepts has a character that is not whitespace (its `@`),
      so it is not blank; equivalently, a blank address always fails the check. */
  lemma ValidEmailNotBlank(s: string)
    ensures EmailValid(s) ==> !IsBlank(s)
  {
    if EmailValid(s) {
      SplitFromIff(s, 1);
      var i :| 1 <= i && AtSplits(s, i);
      NotBlank(s, i);
    }
  }

  /** `[3-9]\d{8}`: the operator digit and the eight subscriber digits. */
  predicate OperatorAndSubscriber(t: string) {
    |t| == 9 && '3' <= t[0] <= '9' && AllDigits(t[1..])
  }

  /** `^(\+8801|01)[3-9]\d{8}$`, the Bangladesh mobile number check. Accepted numbers
      are 11 characters in local form or 14 in international form, all digits after
      the optional `+`. */
  predicate PhoneValid(s: string)
    ensures PhoneValid(s) ==> (|s| == 11 && s[..2] == "01") || (|s| == 14 && s[..5] == "+8801")
    ensures PhoneValid(s) ==> AllDigits(if s[0] == '+' then s[1..] else s)
  {
    PrefixedDigits(s);
    (StartsWith(s, "+8801") && OperatorAndSubscriber(s[5..]))
    || (StartsWith(s, "01") && OperatorAndSubscriber(s[2..]))
  }

  /** The prefixes `+8801` and `01` add only digits in front of the nine checked ones. */
  lemma PrefixedDigits(s: string)
    ensures StartsWith(s, "+8801") && OperatorAndSubscriber(s[5..]) ==> AllDigits(s[1..])
    ensures StartsWith(s, "01") && OperatorAndSubscriber(s[2..]) ==> AllDigits(s)
  {
    if StartsWith(s, "+8801") && OperatorAndSubscriber(s[5..]) {
      forall k | 0 <= k < |s| - 1 ensures IsDigit(s[1..][k]) {
        if k >= 5 {
          assert s[1..][k] == s[5..][1..][k - 5];
        } else if k == 4 {
          assert s[1..][k] == s[5..][0];
        } else {
          assert s[1..][k] == s[..5][k + 1];
        }
      }
    }
    if StartsWith(s, "01") && OperatorAndSubscriber(s[2..]) {
      forall k | 0 <= k < |s| ensures IsDigit(s[k]) {
        if k >= 3 {
          assert s[k] == s[2..][1..][k - 3];
        } else if k == 2 {
          assert s[k] == s[2..][0];
        } else {
          assert s[k] == s[..2][k];
        }
      }
    }
  }

  /** `^\d{10}$|^\d{13}$|^\d{17}$`: a National ID number has 10, 13 or 17 digits. */
  predicate NidNumberValid(number: string) {
    AllDigits(number) && (|number| == 10 || |number| == 13 || |number| == 17)
  }

  /** `^\d{17}$`: a birth certificate number has 17 digits. */
  predicate BirthCertificateNumberValid(number: string) {
    AllDigits(number) && |number| == 17
  }

  /** A value of the ID document type select other than its two options. */
  type OtherDocName = name: string | name != "nid" && name != "birth_certificate" witness ""

  /** The value of the ID document type select. Its two options are `"nid"` and
      `"birth_certificate"`; any other value would skip the number's format check. */
  datatype DocType = Nid | BirthCertificate | OtherDoc(name: OtherDocName)

  /** The value the select submits for each document type. */
  function DocTypeName(t: DocType): string {
    match t
    case Nid => "nid"
    case BirthCertificate => "birth_certificate"
    case OtherDoc(name) => name
  }

  /** Every value of the select stands for one document type. */
  lemma DocTypeNameInjective(a: DocType, b: DocType)
    ensures DocTypeName(a) == DocTypeName(b) ==> a == b
  {
  }

  /** The number check for the chosen document type; other types have no format check. */
  predicate IdNumberValid(docType: DocType, number: string) {
    match docType
    case Nid => NidNumberValid(number)
    case BirthCertificate => BirthCertificateNumberValid(number)
    case OtherDoc(_) => true
  }

  /** The photo size ceiling, 5 MiB. */
  const MaxPhotoBytes: nat := 5 * 1024 * 1024

  /** A photo is refused only when it is strictly larger than the ceiling. */
  predicate TooLarge(f: File)
    ensures TooLarge(f) <==> f.size >= 5_242_881
  {
    f.size > MaxPhotoBytes
  }

  // ---------------------------------------------------------------------------
  // Form state

  /** The application form's fields; `dateOfBirth` is `None` while the date input is empty. */
  datatype Form = Form(
    fullName: string,
    email: string,
    phone: string,
    dateOfBirth: Option<Date>,
    bloodGroup: string,
    idDocumentType: DocType,
    idDocumentNumber: string,
    idDocumentPhoto: Option<File>,
    holdingIdPhoto: Option<File>,
    address: string,
    zone: string,
    emergencyContact: string,
    emergencyPhone: string,
    hasMotorbike: bool,
    motorcycleBrand: string,
    motorcycleModel: string,
    motorcycleYear: string,
    ridingExperience: string,
    agreeTerms: bool,
    citizenshipConfirm: bool)

  /** Field names: the keys of the form and of the error map. */
  datatype Field =
    | FullName | Email | Phone | DateOfBirth | BloodGroup | IdDocumentType
    | IdDocumentNumber | IdDocumentPhoto | HoldingIdPhoto | Address | Zone
    | EmergencyContact | EmergencyPhone | HasMotorbike | MotorcycleBrand
    | MotorcycleModel | MotorcycleYear | RidingExperience | AgreeTerms | CitizenshipConfirm

  /** What an input delivers: text, a checkbox state, the first chosen file (or none),
      a date, or the document type select's option. */
  datatype Value =
    | Text(text: string) | Flag(flag: bool) | Upload(file: Option<File>) | Day(date: Option<Date>)
    | Choice(doc: DocType)

  /** The field's current value. */
  function Get(form: Form, f: Field): Value {
    match f
    case FullName => Text(form.fullName)
    case Email => Text(form.email)
    case Phone => Text(form.phone)
    case DateOfBirth => Day(form.dateOfBirth)
    case BloodGroup => Text(form.bloodGroup)
    case IdDocumentType => Choice(form.idDocumentType)
    case IdDocumentNumber => Text(form.idDocumentNumber)
    case IdDocumentPhoto => Upload(form.idDocumentPhoto)
    case HoldingIdPhoto => Upload(form.holdingIdPhoto)
    case Address => Text(form.address)
    case Zone => Text(form.zone)
    case EmergencyContact => Text(form.emergencyContact)
    case EmergencyPhone => Text(form.emergencyPhone)
    case HasMotorbike => Flag(form.hasMotorbike)
    case MotorcycleBrand => Text(form.motorcycleBrand)
    case MotorcycleModel => Text(form.motorcycleModel)
    case MotorcycleYear => Text(form.motorcycleYear)
    case RidingExperience => Text(form.ridingExperience)
    case AgreeTerms => Flag(form.agreeTerms)
    case CitizenshipConfirm => Flag(form.citizenshipConfirm)
  }

  /** The input bound to `f` delivers values of this kind (checkboxes for the three
      booleans, file inputs for the two photos, a date input for the birth date). */
  predicate Fits(f: Field, v: Value) {
    match f
    case DateOfBirth => v.Day?
    case IdDocumentType => v.Choice?
    case IdDocumentPhoto | HoldingIdPhoto => v.Upload?
    case HasMotorbike | AgreeTerms | CitizenshipConfirm => v.Flag?
    case _ => v.Text?
  }

  /** `{ ...prev, [name]: value }`: the form with field `f` replaced. */
  function Set(form: Form, f: Field, v: Value): (r: Form)
    requires Fits(f, v)
    ensures Get(r, f) == v
  {
    match f
    case FullName => form.(fullName := v.text)
    case Email => form.(email := v.text)
    case Phone => form.(phone := v.text)
    case DateOfBirth => form.(dateOfBirth := v.date)
    case BloodGroup => form.(bloodGroup := v.text)
    case IdDocumentType => form.(idDocumentType := v.doc)
    case IdDocumentNumber => form.(idDocumentNumber := v.text)
    case IdDocumentPhoto => form.(idDocumentPhoto := v.file)
    case HoldingIdPhoto => form.(holdingIdPhoto := v.file)
    case Address => form.(address := v.text)
    case Zone => form.(zone := v.text)
    case EmergencyContact => form.(emergencyContact := v.text)
    case EmergencyPhone => form.(emergencyPhone := v.text)
    case HasMotorbike => form.(hasMotorbike := v.flag)
    case MotorcycleBrand => form.(motorcycleBrand := v.text)
    case MotorcycleModel => form.(motorcycleModel := v.text)
    case MotorcycleYear => form.(motorcycleYear := v.text)
    case RidingExperience => form.(ridingExperience := v.text)
    case AgreeTerms => form.(agreeTerms := v.flag)
    case CitizenshipConfirm => form.(citizenshipConfirm := v.flag)
  }

  /** Replacing one field leaves every other field as it was. */
  lemma SetLeavesOthers(form: Form, f: Field, v: Value, g: Field)
    requires Fits(f, v) && g != f
    ensures Get(Set(form, f, v), g) == Get(form, g)
  {
    match f
    case FullName =>
    case Email =>
    case Phone =>
    case DateOfBirth =>
    case BloodGroup =>
    case IdDocumentType =>
    case IdDocumentNumber =>
    case IdDocumentPhoto =>
    case HoldingIdPhoto =>
    case Address =>
    case Zone =>
    case EmergencyContact =>
    case EmergencyPhone =>
    case HasMotorbike =>
    case MotorcycleBrand =>
    case MotorcycleModel =>
    case MotorcycleYear =>
    case RidingExperience =>
    case AgreeTerms =>
    case CitizenshipConfirm =>
  }

  /** The error messages under the fields. The page only ever stores messages under
      these fourteen keys, so an absent key is a `None` slot. */
  datatype Errors = Errors(
    fullName: Option<Msg>,
    email: Option<Msg>,
    phone: Option<Msg>,
    dateOfBirth: Option<Msg>,
    bloodGroup: Option<Msg>,
    idDocumentNumber: Option<Msg>,
    idDocumentPhoto: Option<Msg>,
    holdingIdPhoto: Option<Msg>,
    address: Option<Msg>,
    zone: Option<Msg>,
    emergencyContact: Option<Msg>,
    emergencyPhone: Option<Msg>,
    agreeTerms: Option<Msg>,
    citizenshipConfirm: Option<Msg>)

  /** `{}`: no key at all. */
  const NoErrors := Errors(None, None, None, None, None, None, None, None, None, None, None, None, None, None)

  /** `errors[f]`: the entry under key `f`, if there is one. */
  function Message(e: Errors, f: Field): Option<Msg> {
    match f
    case FullName => e.fullName
    case Email => e.email
    case Phone => e.phone
    case DateOfBirth => e.dateOfBirth
    case BloodGroup => e.bloodGroup
    case IdDocumentNumber => e.idDocumentNumber
    case IdDocumentPhoto => e.idDocumentPhoto
    case HoldingIdPhoto => e.holdingIdPhoto
    case Address => e.address
    case Zone => e.zone
    case EmergencyContact => e.emergencyContact
    case EmergencyPhone => e.emergencyPhone
    case AgreeTerms => e.agreeTerms
    case CitizenshipConfirm => e.citizenshipConfirm
    case IdDocumentType | HasMotorbike | MotorcycleBrand | MotorcycleModel | MotorcycleYear | RidingExperience => None
  }

  /** `{ ...prev, [f]: '' }` for a key the map already holds. */
  function Blanked(e: Errors, f: Field): Errors {
    match f
    case FullName => e.(fullName := Some(Cleared))
    case Email => e.(email := Some(Cleared))
    case Phone => e.(phone := Some(Cleared))
    case DateOfBirth => e.(dateOfBirth := Some(Cleared))
    case BloodGroup => e.(bloodGroup := Some(Cleared))
    case IdDocumentNumber => e.(idDocumentNumber := Some(Cleared))
    case IdDocumentPhoto => e.(idDocumentPhoto := Some(Cleared))
    case HoldingIdPhoto => e.(holdingIdPhoto := Some(Cleared))
    case Address => e.(address := Some(Cleared))
    case Zone => e.(zone := Some(Cleared))
    case EmergencyContact => e.(emergencyContact := Some(Cleared))
    case EmergencyPhone => e.(emergencyPhone := Some(Cleared))
    case AgreeTerms => e.(agreeTerms := Some(Cleared))
    case CitizenshipConfirm => e.(citizenshipConfirm := Some(Cleared))
    case IdDocumentType | HasMotorbike | MotorcycleBrand | MotorcycleModel | MotorcycleYear | RidingExperience => e
  }

  /** The page's state: the form and the error messages shown under its fields. */
  datatype Page = Page(form: Form, errors: Errors)

  /** `handleInputChange`: stores the new value of field `f` and, when `f` shows a
      non-empty error, replaces that message with the empty string. No other field
      and no other error entry changes, and no error key is added or removed. */
  function HandleInputChange(page: Page, f: Field, v: Value): (r: Page)
    requires Fits(f, v)
    ensures forall g :: Get(r.form, g) == if g == f then v else Get(page.form, g)
    ensures forall g :: g != f ==> Message(r.errors, g) == Message(page.errors, g)
    ensures Message(r.errors, f) == if Message(page.errors, f).Some? then Some(Cleared) else None
  {
    var form := Set(page.form, f, v);
    forall g | g != f ensures Get(form, g) == Get(page.form, g) {
      SetLeavesOthers(page.form, f, v, g);
    }
    var errors := if Message(page.errors, f).Some? && Message(page.errors, f).value != Cleared then Blanked(page.errors, f) else page.errors;
    Page(form, errors)
  }

  // ---------------------------------------------------------------------------
  // validateForm

  /** The messages the page shows under a field; `Cleared` is the empty message left
      behind once the user edits a field that had an error. */
  datatype Msg =
    | FullNameRequired
    | EmailRequired
    | PhoneRequired
    | DateOfBirthRequired
    | BloodGroupRequired
    | IdNumberRequired
    | IdPhotoRequired
    | HoldingPhotoRequired
    | AddressRequired
    | ZoneRequired
    | EmergencyContactRequired
    | EmergencyPhoneRequired
    | EmailInvalid
    | PhoneInvalid
    | TooYoung
    | NidInvalid
    | BirthCertificateInvalid
    | IdPhotoTooLarge
    | HoldingPhotoTooLarge
    | TermsRequired
    | CitizenshipRequired
    | Cleared

  /** The text shown for each message. */
  function MessageText(m: Msg): string {
    match m
    case FullNameRequired => "Full name is required"
    case EmailRequired => "Email is required"
    case PhoneRequired => "Phone number is required"
    case DateOfBirthRequired => "Date of birth is required"
    case BloodGroupRequired => "Blood group is required"
    case IdNumberRequired => "ID document number is required"
    case IdPhotoRequired => "ID document photo is required"
    case HoldingPhotoRequired => "Photo holding ID is required"
    case AddressRequired => "Address is required"
    case ZoneRequired => "Zone is required"
    case EmergencyContactRequired => "Emergency contact is required"
    case EmergencyPhoneRequired => "Emergency phone is required"
    case EmailInvalid => "Please enter a valid email address"
    case PhoneInvalid => "Please enter a valid Bangladesh phone number"
    case TooYoung => "You must be at least 15 years old to join"
    case NidInvalid => "Please enter a valid Bangladesh NID number"
    case BirthCertificateInvalid => "Please enter a valid birth certificate number"
    case IdPhotoTooLarge => "ID document photo must be less than 5MB"
    case HoldingPhotoTooLarge => "Photo holding ID must be less than 5MB"
    case TermsRequired => "You must agree to the terms and conditions"
    case CitizenshipRequired => "You must confirm your Bangladesh citizenship"
    case Cleared => ""
  }

  /** The minimum age to join. */
  const MinimumAge := 15

  /** The error object the validation should build: under every key the LAST check
      that fires wins, so each slot lists the checks from last to first. */
  function ExpectedErrors(form: Form, today: Date): Errors {
    Errors(
      fullName := Check(IsBlank(form.fullName), FullNameRequired, None),
      email := Check(form.email != "" && !EmailValid(form.email), EmailInvalid,
        Check(IsBlank(form.email), EmailRequired, None)),
      phone := Check(form.phone != "" && !PhoneValid(form.phone), PhoneInvalid,
        Check(IsBlank(form.phone), PhoneRequired, None)),
      dateOfBirth := Check(form.dateOfBirth.Some? && Age(today, form.dateOfBirth.value) < MinimumAge, TooYoung,
        Check(form.dateOfBirth.None?, DateOfBirthRequired, None)),
      bloodGroup := Check(form.bloodGroup == "", BloodGroupRequired, None),
      idDocumentNumber :=
        Check(form.idDocumentNumber != "" && form.idDocumentType == BirthCertificate
          && !BirthCertificateNumberValid(form.idDocumentNumber), BirthCertificateInvalid,
        Check(form.idDocumentNumber != "" && form.idDocumentType == Nid
          && !NidNumberValid(form.idDocumentNumber), NidInvalid,
        Check(IsBlank(form.idDocumentNumber), IdNumberRequired, None))),
      idDocumentPhoto := Check(form.idDocumentPhoto.Some? && TooLarge(form.idDocumentPhoto.value), IdPhotoTooLarge,
        Check(form.idDocumentPhoto.None?, IdPhotoRequired, None)),
      holdingIdPhoto := Check(form.holdingIdPhoto.Some? && TooLarge(form.holdingIdPhoto.value), HoldingPhotoTooLarge,
        Check(form.holdingIdPhoto.None?, HoldingPhotoRequired, None)),
      address := Check(IsBlank(form.address), AddressRequired, None),
      zone := Check(form.zone == "", ZoneRequired, None),
      emergencyContact := Check(IsBlank(form.emergencyContact), EmergencyContactRequired, None),
      emergencyPhone := Check(IsBlank(form.emergencyPhone), EmergencyPhoneRequired, None),
      agreeTerms := Check(!form.agreeTerms, TermsRequired, None),
      citizenshipConfirm := Check(!form.citizenshipConfirm, CitizenshipRequired, None))
  }

  /** One `if (…) newErrors.key = message` of the validation: the message when the
      check fails, and what the key held before otherwise. */
  function Check(failed: bool, message: Msg, before: Option<Msg>): Option<Msg> {
    if failed then Some(message) else before
  }

  /** Every check passes: what a submittable application looks like. */
  predicate Acceptable(form: Form, today: Date) {
    && !IsBlank(form.fullName)
    && EmailValid(form.email)
    && PhoneValid(form.phone)
    && form.dateOfBirth.Some? && Age(today, form.dateOfBirth.value) >= MinimumAge
    && form.bloodGroup != ""
    && !IsBlank(form.idDocumentNumber) && IdNumberValid(form.idDocumentType, form.idDocumentNumber)
    && form.idDocumentPhoto.Some? && !TooLarge(form.idDocumentPhoto.value)
    && form.holdingIdPhoto.Some? && !TooLarge(form.holdingIdPhoto.value)
    && !IsBlank(form.address)
    && form.zone != ""
    && !IsBlank(form.emergencyContact)
    && !IsBlank(form.emergencyPhone)
    && form.agreeTerms
    && form.citizenshipConfirm
  }

  /** Key by key, the validation leaves no message exactly when the field passes:
      a required text field is not blank, the email and phone match their patterns,
      the applicant is at least fifteen, the ID number is filled in and fits its
      document type, each photo is present and within the size limit, and both
      boxes are ticked. */
  lemma KeyClearIff(form: Form, today: Date)
    ensures ExpectedErrors(form, today).fullName.None? <==> !IsBlank(form.fullName)
    ensures ExpectedErrors(form, today).email.None? <==> EmailValid(form.email)
    ensures ExpectedErrors(form, today).phone.None? <==> PhoneValid(form.phone)
    ensures ExpectedErrors(form, today).dateOfBirth.None? <==> form.dateOfBirth.Some? && Age(today, form.dateOfBirth.value) >= MinimumAge
    ensures ExpectedErrors(form, today).bloodGroup.None? <==> form.bloodGroup != ""
    ensures ExpectedErrors(form, today).idDocumentNumber.None? <==> !IsBlank(form.idDocumentNumber) && IdNumberValid(form.idDocumentType, form.idDocumentNumber)
    ensures ExpectedErrors(form, today).idDocumentPhoto.None? <==> form.idDocumentPhoto.Some? && !TooLarge(form.idDocumentPhoto.value)
    ensures ExpectedErrors(form, today).holdingIdPhoto.None? <==> form.holdingIdPhoto.Some? && !TooLarge(form.holdingIdPhoto.value)
    ensures ExpectedErrors(form, today).address.None? <==> !IsBlank(form.address)
    ensures ExpectedErrors(form, today).zone.None? <==> form.zone != ""
    ensures ExpectedErrors(form, today).emergencyContact.None? <==> !IsBlank(form.emergencyContact)
    ensures ExpectedErrors(form, today).emergencyPhone.None? <==> !IsBlank(form.emergencyPhone)
    ensures ExpectedErrors(form, today).agreeTerms.None? <==> form.agreeTerms
    ensures ExpectedErrors(form, today).citizenshipConfirm.None? <==> form.citizenshipConfirm
  {
    ValidEmailNotBlank(form.email);
    if PhoneValid(form.phone) {
      NotBlank(form.phone, 0);
    }
  }

  /** No key carries a message exactly when every check passes. */
  lemma NoErrorsIffAcceptable(form: Form, today: Date)
    ensures ExpectedErrors(form, today) == NoErrors <==> Acceptable(form, today)
  {
    KeyClearIff(form, today);
  }

  /** `validateForm`: fills the error object key by key, later checks overwriting
      earlier messages under the same key, and reports whether it stayed empty. The
      object holds exactly the messages `ExpectedErrors` gives, and it is empty exactly
      when the form is acceptable. */
  method ValidateForm(form: Form, today: Date) returns (errors: Errors, ok: bool)
    ensures errors == ExpectedErrors(form, today)
    ensures ok <==> errors == NoErrors
    ensures ok <==> Acceptable(form, today)
  {
    // One variable per key of the error object; `None` while the key is absent.
    var fullName, email, phone, dateOfBirth, bloodGroup: Option<Msg> := None, None, None, None, None;
    var idDocumentNumber, idDocumentPhoto, holdingIdPhoto: Option<Msg> := None, None, None;
    var address, zone, emergencyContact, emergencyPhone: Option<Msg> := None, None, None, None;
    var agreeTerms, citizenshipConfirm: Option<Msg> := None, None;

    // Required fields.
    fullName := Check(IsBlank(form.fullName), FullNameRequired, fullName);
    email := Check(IsBlank(form.email), EmailRequired, email);
    phone := Check(IsBlank(form.phone), PhoneRequired, phone);
    dateOfBirth := Check(form.dateOfBirth.None?, DateOfBirthRequired, dateOfBirth);
    bloodGroup := Check(form.bloodGroup == "", BloodGroupRequired, bloodGroup);
    idDocumentNumber := Check(IsBlank(form.idDocumentNumber), IdNumberRequired, idDocumentNumber);
    idDocumentPhoto := Check(form.idDocumentPhoto.None?, IdPhotoRequired, idDocumentPhoto);
    holdingIdPhoto := Check(form.holdingIdPhoto.None?, HoldingPhotoRequired, holdingIdPhoto);
    address := Check(IsBlank(form.address), AddressRequired, address);
    zone := Check(form.zone == "", ZoneRequired, zone);
    emergencyContact := Check(IsBlank(form.emergencyContact), EmergencyContactRequired, emergencyContact);
    emergencyPhone := Check(IsBlank(form.emergencyPhone), EmergencyPhoneRequired, emergencyPhone);

    // Format checks, overwriting the messages above.
    email := Check(form.email != "" && !EmailValid(form.email), EmailInvalid, email);
    phone := Check(form.phone != "" && !PhoneValid(form.phone), PhoneInvalid, phone);
    if form.dateOfBirth.Some? {
      var age := CalculateAge(today, form.dateOfBirth.value);
      dateOfBirth := Check(age < MinimumAge, TooYoung, dateOfBirth);
    }
    idDocumentNumber := Check(form.idDocumentNumber != "" && form.idDocumentType == Nid
      && !NidNumberValid(form.idDocumentNumber), NidInvalid, idDocumentNumber);
    idDocumentNumber := Check(form.idDocumentNumber != "" && form.idDocumentType == BirthCertificate
      && !BirthCertificateNumberValid(form.idDocumentNumber), BirthCertificateInvalid, idDocumentNumber);
    idDocumentPhoto := Check(form.idDocumentPhoto.Some? && TooLarge(form.idDocumentPhoto.value), IdPhotoTooLarge, idDocumentPhoto);
    holdingIdPhoto := Check(form.holdingIdPhoto.Some? && TooLarge(form.holdingIdPhoto.value), HoldingPhotoTooLarge, holdingIdPhoto);

    // Checkboxes.
    agreeTerms := Check(!form.agreeTerms, TermsRequired, agreeTerms);
    citizenshipConfirm := Check(!form.citizenshipConfirm, CitizenshipRequired, citizenshipConfirm);

    errors := Errors(fullName, email, phone, dateOfBirth, bloodGroup, idDocumentNumber, idDocumentPhoto,
      holdingIdPhoto, address, zone, emergencyContact, emergencyPhone, agreeTerms, citizenshipConfirm);
    ok := errors == NoErrors;
    NoErrorsIffAcceptable(form, today);
  }

  /** The ID number carries a format message exactly when it is filled in and fails
      the check of the chosen document type; any other document type is only checked
      for being filled in. */
  lemma IdNumberMessage(form: Form, today: Date)
    ensures var m := ExpectedErrors(form, today).idDocumentNumber;
      && (m == Some(NidInvalid) <==>
            form.idDocumentNumber != "" && form.idDocumentType == Nid && !NidNumberValid(form.idDocumentNumber))
      && (m == Some(BirthCertificateInvalid) <==>
            form.idDocumentNumber != "" && form.idDocumentType == BirthCertificate
            && !BirthCertificateNumberValid(form.idDocumentNumber))
      && (form.idDocumentType.OtherDoc? ==>
            m == if IsBlank(form.idDocumentNumber) then Some(IdNumberRequired) else None)
  {
  }

  /** An applicant younger than fifteen gets the age message, whatever else the date
      field reported. */
  lemma TooYoungReported(form: Form, today: Date)
    requires form.dateOfBirth.Some? && Age(today, form.dateOfBirth.value) < MinimumAge
    ensures ExpectedErrors(form, today).dateOfBirth == Some(TooYoung)
  {
  }

  /** A non-empty but whitespace-only email ends up with the format message, which
      overwrites "Email is required". */
  lemma WhitespaceEmailReportedInvalid(form: Form, today: Date)
    requires form.email != "" && IsBlank(form.email)
    ensures ExpectedErrors(form, today).email == Some(EmailInvalid)
  {
    ValidEmailNotBlank(form.email);
  }
}
