/**
  The sign-in page of the web client: the two credential inputs, the error line
  under them, the empty-field guard of `handleSubmit` and the rewriting of a local
  `01…` number into its `+880…` international spelling before the login request.
*/
module LoginPage {
  import opened Strings
  import JoinForm

  /** What the user typed. */
  datatype Credentials = Credentials(phone: string, password: string)

  /** The names of the two inputs. */
  datatype CredentialField = PhoneInput | PasswordInput

  /** The page's state: the credentials and the error line (empty when none is shown). */
  datatype LoginState = LoginState(credentials: Credentials, error: string)

  /** `handleInputChange`: stores the value under the named credential and clears a
      shown error (when none is shown the line is already empty). The other
      credential keeps its value. */
  function HandleInputChange(state: LoginState, field: CredentialField, value: string): (r: LoginState)
    ensures field == PhoneInput ==> r.credentials == Credentials(value, state.credentials.password)
    ensures field == PasswordInput ==> r.credentials == Credentials(state.credentials.phone, value)
    ensures r.error == ""
  {
    var credentials :=
      match field
      case PhoneInput => state.credentials.(phone := value)
      case PasswordInput => state.credentials.(password := value);
    LoginState(credentials, "")
  }

  /** The message shown when a credential is left empty. */
  const EmptyFieldsMessage := "Please enter both phone number and password"

  /** The body of the login request. */
  datatype LoginRequest = LoginRequest(phone: string, password: string)

  /** What a submit does: show an error without calling the server, or send a request. */
  datatype SubmitOutcome = ShowError(message: string) | Send(request: LoginRequest)

  /** A trimmed phone in local form: 11 characters starting with `01`. */
  predicate LocalForm(t: string) {
    StartsWith(t, "01") && |t| == 11
  }

  /** The phone the client sends: trimmed, and a local number rewritten as `+880`
      followed by the number without its leading `0`. */
  function ClientFormat(phone: string): (r: string)
    ensures LocalForm(Strip(phone, JsWhitespace)) ==> |r| == 14 && StartsWith(r, "+8801")
    ensures !LocalForm(Strip(phone, JsWhitespace)) ==> r == Strip(phone, JsWhitespace)
    ensures AllIn(phone, JsWhitespace) ==> r == ""
  {
    var t := Strip(phone, JsWhitespace);
    if LocalForm(t) then
      InternationalSpelling(t);
      "+880" + t[1..]
    else t
  }

  /** The `+880` spelling of a local number has 14 characters and starts `+8801`. */
  lemma InternationalSpelling(t: string)
    requires LocalForm(t)
    ensures |"+880" + t[1..]| == 14 && StartsWith("+880" + t[1..], "+8801")
  {
    var r := "+880" + t[1..];
    assert r[4] == t[1] == '1';
    assert r[..5] == "+880" + [r[4]];
  }

  /** `handleSubmit`: an empty phone or password (checked before trimming) shows the
      message and sends nothing; otherwise the request carries the formatted phone and
      the password exactly as typed. */
  method HandleSubmit(credentials: Credentials) returns (outcome: SubmitOutcome)
    ensures credentials.phone == "" || credentials.password == "" ==> outcome == ShowError(EmptyFieldsMessage)
    ensures credentials.phone != "" && credentials.password != "" ==>
      outcome == Send(LoginRequest(ClientFormat(credentials.phone), credentials.password))
  {
    if credentials.phone == "" || credentials.password == "" {
      return ShowError(EmptyFieldsMessage);
    }
    var formattedPhone := Strip(credentials.phone, JsWhitespace);
    if StartsWith(formattedPhone, "01") && |formattedPhone| == 11 {
      formattedPhone := "+880" + formattedPhone[1..];
    }
    outcome := Send(LoginRequest(formattedPhone, credentials.password));
  }

  /** The rewritten number drops only the leading `0`: the eleven-digit local number
      is the `+880` form with `+88` removed. */
  lemma {:induction false} LocalRewriteKeepsDigits(phone: string)
    requires LocalForm(Strip(phone, JsWhitespace))
    ensures "+88" + Strip(phone, JsWhitespace) == ClientFormat(phone)
  {
    var t := Strip(phone, JsWhitespace);
    assert t == [t[0]] + t[1..];
    assert t[0] == '0';
  }

  /** Formatting twice is formatting once: a `+880…` result is already trimmed and
      never starts with `01`. */
  lemma ClientFormatIdempotent(phone: string)
    ensures ClientFormat(ClientFormat(phone)) == ClientFormat(phone)
  {
    var t := Strip(phone, JsWhitespace);
    if LocalForm(t) {
      assert ClientFormat(phone) == "+880" + t[1..];
      InternationalIsFinal(t);
    } else {
      assert ClientFormat(phone) == t;
      TrimmedIsFinal(t);
    }
  }

  /** A trimmed local number is sent in its `+880` spelling. */
  lemma TrimmedLocalFormat(t: string)
    requires LocalForm(t) && t[|t| - 1] !in JsWhitespace
    ensures ClientFormat(t) == "+880" + t[1..]
  {
    assert t[0] == '0';
    assert Strip(t, JsWhitespace) == t;
  }

  /** The `+880` spelling of a trimmed local number is left alone by a second pass. */
  lemma InternationalIsFinal(t: string)
    requires LocalForm(t) && t[|t| - 1] !in JsWhitespace
    ensures ClientFormat("+880" + t[1..]) == "+880" + t[1..]
  {
    var r := "+880" + t[1..];
    assert |r| == 14 && r[0] == '+' && r[13] == t[10];
    assert !LocalForm(r) by { assert r[0] != '0'; }
    TrimmedIsFinal(r);
  }

  /** A trimmed phone that is not in local form is left alone by a second pass. */
  lemma TrimmedIsFinal(t: string)
    requires t == [] || (t[0] !in JsWhitespace && t[|t| - 1] !in JsWhitespace)
    requires !LocalForm(t)
    ensures ClientFormat(t) == t
  {
  }

  /** A number the join page accepts in local form is sent in the international form
      the join page also accepts. */
  lemma ValidLocalStaysValid(phone: string)
    requires JoinForm.PhoneValid(phone) && StartsWith(phone, "01")
    ensures JoinForm.PhoneValid(ClientFormat(phone))
    ensures StartsWith(ClientFormat(phone), "+8801")
  {
    assert |phone| == 11 && AllDigits(phone);
    assert IsDigit(phone[10]);
    TrimmedLocalFormat(phone);
    InternationalSpelling(phone);
    InternationalStaysValid(phone);
  }

  /** The `+880` spelling of a valid local number is valid. */
  lemma InternationalStaysValid(phone: string)
    requires StartsWith(phone, "01") && JoinForm.OperatorAndSubscriber(phone[2..])
    ensures JoinForm.PhoneValid("+880" + phone[1..])
  {
    var r := "+880" + phone[1..];
    assert r[5..] == phone[2..];
    assert r[..5] == "+8801";
  }
}
