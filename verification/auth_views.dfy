/**
  The authentication views of the Django backend: phone-number login with both
  spellings of a Bangladesh number, the profile of the signed-in user with its
  fall-backs, and the password change with its order of checks.
*/
module AuthViews {
  import opened Wrappers
  import opened Strings
  import LoginPage

  // ---------------------------------------------------------------------------
  // Users

  /** A row of Django's user table as these views read it; `password` stands for the
      stored credential that `authenticate` and `check_password` compare against. */
  datatype User = User(id: nat, username: string, password: string, firstName: string, lastName: string, email: string)

  /** The user table, keyed by the unique `username` (the phone number the rider
      registered with). */
  type Users = map<string, User>

  /** Every row is filed under its own username. */
  predicate WellKeyed(users: Users) {
    forall name :: name in users ==> users[name].username == name
  }

  /** A request field after `request.data.get(...)`: absent, or the text sent. */
  type Field = Option<string>

  /** Python truthiness of the field: present and not the empty string. */
  predicate Given(f: Field) {
    f.Some? && f.value != ""
  }

  // ---------------------------------------------------------------------------
  // Login

  /** The spellings of `phone` to look up, the one sent first: a `+880…` number is
      also tried with `+88` dropped, a `01…` number also with `+880` put in place of
      its leading `0`, any other phone only as sent. */
  function PhoneCandidates(phone: string): (r: seq<string>)
    ensures 1 <= |r| <= 2 && r[0] == phone
    ensures |r| == 2 <==> StartsWith(phone, "+880") || StartsWith(phone, "01")
    ensures StartsWith(phone, "+880") ==> r == [phone, "0" + phone[4..]]
    ensures !StartsWith(phone, "+880") && StartsWith(phone, "01") ==> r == [phone, "+880" + phone[1..]]
  {
    if StartsWith(phone, "+880") then [phone, "0" + phone[4..]]
    else if StartsWith(phone, "01") then [phone, "+880" + phone[1..]]
    else [phone]
  }

  /** A local `01…` number's second spelling is international, and that spelling's
      own second spelling is the number again. */
  lemma LocalRoundTrip(phone: string)
    requires StartsWith(phone, "01")
    ensures var c := PhoneCandidates(phone);
      |c| == 2 && StartsWith(c[1], "+8801") && PhoneCandidates(c[1]) == [c[1], phone]
  {
    var i := "+880" + phone[1..];
    assert i[..4] == "+880" && i[..5] == "+8801";
    assert "0" + i[4..] == phone by {
      assert i[4..] == phone[1..];
      assert phone == [phone[0]] + phone[1..];
    }
  }

  /** A `+880…` number comes back to itself through its local spelling exactly when
      the digit after `+880` is `1`; `+8802…` turns into `02…`, which has no second
      spelling. */
  lemma InternationalRoundTrip(phone: string)
    requires StartsWith(phone, "+880")
    ensures var c := PhoneCandidates(phone);
      |c| == 2 && (PhoneCandidates(c[1]) == [c[1], phone] <==> StartsWith(phone, "+8801"))
  {
    var l := "0" + phone[4..];
    assert l[1..] == phone[4..];
    if StartsWith(phone, "+8801") {
      assert l[0] == '0' && l[..2] == "01";
      assert !StartsWith(l, "+880");
      assert "+880" + l[1..] == phone by {
        assert phone == phone[..4] + phone[4..];
      }
    } else {
      assert !StartsWith(l, "+880") && !StartsWith(l, "01") by {
        assert l[0] == '0';
        assert |phone| > 4 ==> phone[4] != '1';
      }
      assert PhoneCandidates(l) == [l];
    }
  }

  /** The first candidate registered in the table, if any. */
  function FirstMatch(users: Users, candidates: seq<string>): (r: Option<User>)
    ensures r.Some? <==> exists k :: 0 <= k < |candidates| && candidates[k] in users
    ensures r.Some? ==> exists k :: 0 <= k < |candidates| && candidates[k] in users && r.value == users[candidates[k]] &&
                                    forall j :: 0 <= j < k ==> candidates[j] !in users
  {
    if candidates == [] then None
    else if candidates[0] in users then Some(users[candidates[0]])
    else
      var r := FirstMatch(users, candidates[1..]);
      if r.Some? then
        var k :| 0 <= k < |candidates[1..]| && candidates[1..][k] in users && r.value == users[candidates[1..][k]]
          && forall j :: 0 <= j < k ==> candidates[1..][j] !in users;
        ShiftFirst(users, candidates, k);
        r
      else
        ShiftNone(users, candidates);
        r
  }

  /** A first registered candidate of the tail, behind an unregistered head, is
      the first registered candidate of the whole list. */
  lemma ShiftFirst(users: Users, candidates: seq<string>, k: nat)
    requires 0 < |candidates| && candidates[0] !in users
    requires k < |candidates| - 1 && candidates[1..][k] in users
    requires forall j :: 0 <= j < k ==> candidates[1..][j] !in users
    ensures candidates[k + 1] == candidates[1..][k]
    ensures forall j :: 0 <= j < k + 1 ==> candidates[j] !in users
  {
    forall j | 0 < j < k + 1 ensures candidates[j] !in users {
      assert candidates[j] == candidates[1..][j - 1];
    }
  }

  /** No candidate is registered when neither the head nor any of the tail is. */
  lemma ShiftNone(users: Users, candidates: seq<string>)
    requires 0 < |candidates| && candidates[0] !in users
    requires forall k :: 0 <= k < |candidates[1..]| ==> candidates[1..][k] !in users
    ensures forall k :: 0 <= k < |candidates| ==> candidates[k] !in users
  {
    forall k | 0 < k < |candidates| ensures candidates[k] !in users {
      assert candidates[k] == candidates[1..][k - 1];
    }
  }

  /** The lookup loop: tries the candidates in order and stops at the first
      username in the table. */
  method FindUser(users: Users, candidates: seq<string>) returns (user: Option<User>)
    ensures user == FirstMatch(users, candidates)
  {
    user := None;
    var i := 0;
    while i < |candidates|
      invariant 0 <= i <= |candidates|
      invariant user.None?
      invariant FirstMatch(users, candidates) == FirstMatch(users, candidates[i..])
    {
      if candidates[i] in users {
        user := Some(users[candidates[i]]);
        break;
      }
      assert candidates[i..][1..] == candidates[i + 1..];
      i := i + 1;
    }
  }

  /** The `user` part of a successful login. */
  datatype UserSummary = UserSummary(id: nat, phone: string, fullName: string, email: string)

  /** A login either answers with the user (the tokens are not modelled) or fails
      with an HTTP status and a detail message. */
  datatype LoginResponse = LoginOk(user: UserSummary) | LoginFailed(status: nat, detail: string)

  const MissingCredentialsDetail := "Phone number and password are required"
  const InvalidCredentialsDetail := "Invalid credentials"

  /** `"first last".strip() or username`: the trimmed full name, or the username when
      both names are blank. */
  function FullName(user: User): (r: string)
    ensures AllIn(user.firstName, PyWhitespace) && AllIn(user.lastName, PyWhitespace) ==> r == user.username
    ensures !(AllIn(user.firstName, PyWhitespace) && AllIn(user.lastName, PyWhitespace)) ==>
      r == Strip(user.firstName + " " + user.lastName, PyWhitespace) && r != ""
  {
    SpacedBlankIff(user.firstName, user.lastName);
    var joined := Strip(user.firstName + " " + user.lastName, PyWhitespace);
    if joined != "" then joined else user.username
  }

  /** "first last" is all whitespace exactly when both names are. */
  lemma SpacedBlankIff(first: string, last: string)
    ensures AllIn(first + " " + last, PyWhitespace) <==> AllIn(first, PyWhitespace) && AllIn(last, PyWhitespace)
  {
    var spaced := first + " " + last;
    assert ' ' in PyWhitespace;
    assert forall i :: 0 <= i < |first| ==> spaced[i] == first[i];
    assert forall i :: 0 <= i < |last| ==> spaced[|first| + 1 + i] == last[i];
    if AllIn(first, PyWhitespace) && AllIn(last, PyWhitespace) {
      forall i | 0 <= i < |spaced| ensures spaced[i] in PyWhitespace {
        if i > |first| {
          assert spaced[i] == last[i - |first| - 1];
        }
      }
    }
  }

  /** Names without outer whitespace are shown as "first last". */
  lemma CleanNamesJoined(user: User)
    requires user.firstName != "" && user.firstName[0] !in PyWhitespace
    requires user.lastName != "" && user.lastName[|user.lastName| - 1] !in PyWhitespace
    ensures FullName(user) == user.firstName + " " + user.lastName
  {
    var spaced := user.firstName + " " + user.lastName;
    assert spaced[0] == user.firstName[0];
    assert spaced[|spaced| - 1] == user.lastName[|user.lastName| - 1];
  }

  /** The user part of the login and profile answers. */
  function Summary(user: User): UserSummary {
    UserSummary(user.id, user.username, FullName(user), user.email)
  }

  /** `login_view`: a missing or empty phone or password is refused with 400 before
      any lookup; otherwise the first registered spelling of the phone is the user,
      and the login succeeds exactly when the password matches. */
  method LoginView(users: Users, phone: Field, password: Field) returns (response: LoginResponse)
    requires WellKeyed(users)
    ensures !Given(phone) || !Given(password) ==> response == LoginFailed(400, MissingCredentialsDetail)
    ensures Given(phone) && Given(password) ==>
      match FirstMatch(users, PhoneCandidates(phone.value))
      case None => response == LoginFailed(401, InvalidCredentialsDetail)
      case Some(u) =>
        response == if u.password == password.value then LoginOk(Summary(u)) else LoginFailed(401, InvalidCredentialsDetail)
  {
    if !Given(phone) || !Given(password) {
      return LoginFailed(400, MissingCredentialsDetail);
    }
    var phoneFormats := PhoneCandidates(phone.value);
    var user := FindUser(users, phoneFormats);
    if user.None? {
      return LoginFailed(401, InvalidCredentialsDetail);
    }
    // `authenticate` looks the user up again by username and checks the password.
    var name := user.value.username;
    if users[name].password != password.value {
      return LoginFailed(401, InvalidCredentialsDetail);
    }
    response := LoginOk(Summary(users[name]));
  }

  /** A rider who registered with a local number signs in with either spelling, as
      long as the other spelling is not someone else's username. */
  lemma EitherSpellingFindsLocalUser(users: Users, local: string)
    requires StartsWith(local, "01") && local in users
    requires "+880" + local[1..] !in users
    ensures FirstMatch(users, PhoneCandidates(local)) == Some(users[local])
    ensures FirstMatch(users, PhoneCandidates("+880" + local[1..])) == Some(users[local])
  {
    LocalRoundTrip(local);
  }

  /** What the web client sends for a typed local number finds the rider who
      registered with that number, unless the international spelling is itself a
      username. */
  lemma ClientSpellingFindsLocalUser(users: Users, typed: string)
    requires LoginPage.LocalForm(Strip(typed, JsWhitespace))
    requires Strip(typed, JsWhitespace) in users
    requires LoginPage.ClientFormat(typed) !in users
    ensures FirstMatch(users, PhoneCandidates(LoginPage.ClientFormat(typed))) == Some(users[Strip(typed, JsWhitespace)])
  {
    var t := Strip(typed, JsWhitespace);
    SentIsInternational(typed);
    LocalRoundTrip(t);
    SecondCandidateFound(users, LoginPage.ClientFormat(typed), t);
  }

  /** The web client sends a typed local number as `+880` and the number without
      its `0`. */
  lemma SentIsInternational(typed: string)
    requires LoginPage.LocalForm(Strip(typed, JsWhitespace))
    ensures LoginPage.ClientFormat(typed) == "+880" + Strip(typed, JsWhitespace)[1..]
  {
    var t := Strip(typed, JsWhitespace);
    LoginPage.LocalRewriteKeepsDigits(typed);
    assert t == [t[0]] + t[1..];
  }

  /** When the phone as sent is no username, its registered second spelling is found. */
  lemma SecondCandidateFound(users: Users, sent: string, other: string)
    requires PhoneCandidates(sent) == [sent, other]
    requires sent !in users && other in users
    ensures FirstMatch(users, PhoneCandidates(sent)) == Some(users[other])
  {
    assert PhoneCandidates(sent)[1..] == [other];
  }

  // ---------------------------------------------------------------------------
  // Profile

  datatype MembershipStatus = Pending | Approved | Rejected

  /** The stored value of each status. */
  function StatusName(s: MembershipStatus): string {
    match s
    case Pending => "pending"
    case Approved => "approved"
    case Rejected => "rejected"
  }

  /** Every status is stored under its own value. */
  lemma StatusNameInjective(a: MembershipStatus, b: MembershipStatus)
    ensures StatusName(a) == StatusName(b) ==> a == b
  {
  }

  datatype Zone = Zone(id: nat, name: string, isActive: bool)

  /** The rider record linked to a user, with the two fields the views read. */
  datatype Rider = Rider(membershipStatus: MembershipStatus, zone: Option<Zone>)

  /** `{'id': zone.id, 'name': zone.name}`. */
  datatype ZoneRef = ZoneRef(id: nat, name: string)

  datatype Profile = Profile(user: UserSummary, membershipStatus: MembershipStatus, zone: Option<ZoneRef>)

  /** `user_profile_view`: a user without a rider record is reported as pending with no
      zone; otherwise the rider's status, and the zone's id and name when it has one. */
  function UserProfileView(user: User, rider: Option<Rider>): (r: Profile)
    ensures r.user == Summary(user)
    ensures rider.None? ==> r.membershipStatus == Pending && r.zone == None
    ensures rider.Some? ==> r.membershipStatus == rider.value.membershipStatus
    ensures rider.Some? ==> (r.zone.Some? <==> rider.value.zone.Some?)
    ensures rider.Some? && rider.value.zone.Some? ==>
      r.zone == Some(ZoneRef(rider.value.zone.value.id, rider.value.zone.value.name))
  {
    var (status, zone) :=
      match rider
      case Some(rd) => (rd.membershipStatus, rd.zone)
      case None => (Pending, None);
    Profile(Summary(user), status, match zone case Some(z) => Some(ZoneRef(z.id, z.name)) case None => None)
  }

  // ---------------------------------------------------------------------------
  // Password change

  /** The reasons a password change is refused, in the order they are checked. */
  datatype PasswordError = FieldsRequired | Mismatch | TooShort | WrongCurrent

  function PasswordErrorDetail(e: PasswordError): string {
    match e
    case FieldsRequired => "Current password, new password, and confirmation are required"
    case Mismatch => "New passwords do not match"
    case TooShort => "Password must be at least 6 characters long"
    case WrongCurrent => "Current password is incorrect"
  }

  const PasswordChangedDetail := "Password changed successfully"

  /** Every answer of the password change has its own detail text. */
  lemma PasswordDetailsDistinct(a: PasswordError, b: PasswordError)
    ensures PasswordErrorDetail(a) == PasswordErrorDetail(b) ==> a == b
    ensures PasswordErrorDetail(a) != PasswordChangedDetail
  {
  }

  /** The shortest new password accepted. */
  const MinPasswordLength := 6

  /** The first check of `change_password_view` that fails, or `None` when all pass. */
  function FirstPasswordError(stored: string, current: Field, newPassword: Field, confirm: Field): (r: Option<PasswordError>)
    ensures r.None? <==>
      Given(current) && Given(newPassword) && Given(confirm) && newPassword.value == confirm.value
      && |newPassword.value| >= MinPasswordLength && current.value == stored
    ensures r == Some(FieldsRequired) <==> !Given(current) || !Given(newPassword) || !Given(confirm)
    ensures r == Some(Mismatch) <==>
      Given(current) && Given(newPassword) && Given(confirm) && newPassword.value != confirm.value
    ensures r == Some(TooShort) <==>
      Given(current) && Given(newPassword) && Given(confirm) && newPassword.value == confirm.value
      && |newPassword.value| < MinPasswordLength
    ensures r == Some(WrongCurrent) <==>
      Given(current) && Given(newPassword) && Given(confirm) && newPassword.value == confirm.value
      && |newPassword.value| >= MinPasswordLength && current.value != stored
  {
    if !Given(current) || !Given(newPassword) || !Given(confirm) then Some(FieldsRequired)
    else if newPassword.value != confirm.value then Some(Mismatch)
    else if |newPassword.value| < MinPasswordLength then Some(TooShort)
    else if current.value != stored then Some(WrongCurrent)
    else None
  }

  /** A wrong current password is reported only once everything else is right: a
      short or mismatched new password is reported instead, whatever the current
      password was. */
  lemma FormatCheckedBeforeCurrent(stored: string, current: Field, newPassword: Field, confirm: Field)
    requires Given(current) && Given(newPassword) && Given(confirm)
    requires newPassword.value != confirm.value || |newPassword.value| < MinPasswordLength
    ensures FirstPasswordError(stored, current, newPassword, confirm) != Some(WrongCurrent)
    ensures FirstPasswordError(stored, current, newPassword, confirm)
      == FirstPasswordError(current.value, current, newPassword, confirm)
  {
  }

  /** The signed-in user's account; only the stored credential changes here. */
  class Account {
    var password: string

    constructor (password: string)
      ensures this.password == password
    {
      this.password := password;
    }

    /** `change_password_view`: refuses with the first failing check and leaves the
        password alone, or stores the new password. */
    method ChangePassword(current: Field, newPassword: Field, confirm: Field) returns (error: Option<PasswordError>)
      modifies this
      ensures error == FirstPasswordError(old(password), current, newPassword, confirm)
      ensures error.None? ==> password == newPassword.value
      ensures error.Some? ==> password == old(password)
    {
      if !Given(current) || !Given(newPassword) || !Given(confirm) {
        return Some(FieldsRequired);
      }
      if newPassword.value != confirm.value {
        return Some(Mismatch);
      }
      if |newPassword.value| < MinPasswordLength {
        return Some(TooShort);
      }
      if current.value != password {
        return Some(WrongCurrent);
      }
      password := newPassword.value;
      error := None;
    }
  }
}
