/**
 * The sign-up form (cabBuddy/src/pages/signup.jsx): every field is checked,
 * each failing field leaves one message in an error map, the register
 * request goes out only when that map is empty, and editing a field blanks
 * that field's entry. The register call is a success flag; the alert and
 * the navigation that follow it are not part of this model.
 */
module Signup {
  import opened JsText

  // --------------------------------------------------------- error map keys

  /** The keys `handleSignup` can put into the error object, each named
      by the property it sets */
  datatype ErrorKey = FullnameKey | EmailKey | RoleKey | PhoneKey | PasswordKey | PasswordMatchKey

  const NameRequired: string := "Name required"
  const EmailRequired: string := "Email required"
  const InvalidEmail: string := "Enter a valid email"
  const RoleRequired: string := "Role required"
  const PhoneRequired: string := "Phone required"
  const PhoneLength: string := "Phone number must be 10 digits"
  const InvalidPhone: string := "Enter a valid Indian phone number"
  const ShortPassword: string := "Password must be at least 8 characters"
  const PasswordMismatch: string := "Password and confirm password should be same"

  /** The form's fields when Sign Up is pressed */
  datatype SignupDraft = SignupDraft(
    fullname: string, email: string, phone: string, role: string,
    password: string, confirmPassword: string)

  /** The body of the register request */
  datatype SignupRequest = SignupRequest(
    name: string, email: string, password: string, phone: string, role: string)

  // ----------------------------------------------------------- the checks

  /** `/^[6-9]\d{9}$/`: ten ASCII digits, the first of them 6 to 9 */
  function IsIndianMobile(p: string): (ok: bool)
    ensures ok <==> |p| == 10 && AllDigits(p) && '6' <= p[0] <= '9'
  {
    DigitsOfTail(p);
    |p| == 10 && '6' <= p[0] <= '9' && AllDigits(p[1..])
  }

  lemma DigitsOfTail(p: string)
    ensures p != [] && IsDigit(p[0]) ==> (AllDigits(p) <==> AllDigits(p[1..]))
  {
    if p != [] && IsDigit(p[0]) && AllDigits(p[1..]) {
      forall i | 0 <= i < |p| ensures IsDigit(p[i]) {
        if i > 0 { assert p[i] == p[1..][i - 1]; }
      }
    }
  }

  /** The phone message, the first of three rules that fails: empty, then
      not ten characters long, then not an Indian mobile number. */
  function PhoneError(phone: string): (r: Option<string>)
    ensures phone == "" <==> r == Some(PhoneRequired)
    ensures phone != "" && |phone| != 10 <==> r == Some(PhoneLength)
    ensures |phone| == 10 && !IsIndianMobile(phone) <==> r == Some(InvalidPhone)
    ensures r.None? <==> IsIndianMobile(phone)
  {
    if phone == "" then Some(PhoneRequired)
    else if |phone| != 10 then Some(PhoneLength)
    else if !IsIndianMobile(phone) then Some(InvalidPhone)
    else None
  }

  /** What the checks of `handleSignup` say about one key of the error
      map, each key judged on its own */
  function FieldError(d: SignupDraft, key: ErrorKey): (r: Option<string>)
    ensures r.Some? ==> r.value != ""
    ensures key == PhoneKey ==> r == PhoneError(d.phone)
  {
    match key
    case FullnameKey => if d.fullname == "" then Some(NameRequired) else None
    case EmailKey =>
      if d.email == "" then Some(EmailRequired)
      else if '@' !in d.email then Some(InvalidEmail)
      else None
    case RoleKey => if d.role == "" then Some(RoleRequired) else None
    case PhoneKey => PhoneError(d.phone)
    case PasswordKey => if d.password != "" && |d.password| < 8 then Some(ShortPassword) else None
    case PasswordMatchKey => if d.password != d.confirmPassword then Some(PasswordMismatch) else None
  }

  /** The error map of a draft: one entry for every key whose check fails */
  function SignupErrors(d: SignupDraft): (err: map<ErrorKey, string>)
    ensures forall k :: k in err <==> FieldError(d, k).Some?
    ensures forall k :: k in err ==> err[k] == FieldError(d, k).value
  {
    map k: ErrorKey | FieldError(d, k).Some? :: FieldError(d, k).value
  }

  /** The `err` object of `handleSignup`, built by its sequence of ifs */
  method BuildErrors(d: SignupDraft) returns (err: map<ErrorKey, string>)
    ensures err == SignupErrors(d)
  {
    err := RequiredFieldErrors(d);
    if d.phone == "" {
      err := err[PhoneKey := PhoneRequired];
    } else if |d.phone| != 10 {
      err := err[PhoneKey := PhoneLength];
    } else if !IsIndianMobile(d.phone) {
      err := err[PhoneKey := InvalidPhone];
    }
    assert Agrees(err, d, {FullnameKey, EmailKey, RoleKey, PhoneKey});
    if d.password != "" && |d.password| < 8 {
      err := err[PasswordKey := ShortPassword];
    }
    assert Agrees(err, d, {FullnameKey, EmailKey, RoleKey, PhoneKey, PasswordKey});
    if d.password != d.confirmPassword {
      err := err[PasswordMatchKey := PasswordMismatch];
    }
    AgreesEverywhere(err, d);
  }

  /** The first four checks of `handleSignup`: name, email, role, and the
      '@' check, whose entry would overwrite the emptiness check's (the two
      never both fire) */
  method RequiredFieldErrors(d: SignupDraft) returns (err: map<ErrorKey, string>)
    ensures Agrees(err, d, {FullnameKey, EmailKey, RoleKey})
  {
    err := map[];
    if d.fullname == "" {
      err := err[FullnameKey := NameRequired];
    }
    if d.email == "" {
      err := err[EmailKey := EmailRequired];
    }
    if d.role == "" {
      err := err[RoleKey := RoleRequired];
    }
    if d.email != "" && '@' !in d.email {
      err := err[EmailKey := InvalidEmail];
    }
  }

  /** `err` holds exactly the entries of the checks of the keys `ks` */
  ghost predicate Agrees(err: map<ErrorKey, string>, d: SignupDraft, ks: set<ErrorKey>) {
    && AgreesAt(err, d, ks, FullnameKey) && AgreesAt(err, d, ks, EmailKey)
    && AgreesAt(err, d, ks, RoleKey) && AgreesAt(err, d, ks, PhoneKey)
    && AgreesAt(err, d, ks, PasswordKey) && AgreesAt(err, d, ks, PasswordMatchKey)
  }

  ghost predicate AgreesAt(err: map<ErrorKey, string>, d: SignupDraft, ks: set<ErrorKey>, k: ErrorKey) {
    && (k in err <==> k in ks && FieldError(d, k).Some?)
    && (k in err ==> err[k] == FieldError(d, k).value)
  }

  lemma AgreesEverywhere(err: map<ErrorKey, string>, d: SignupDraft)
    requires Agrees(err, d, {FullnameKey, EmailKey, RoleKey, PhoneKey, PasswordKey, PasswordMatchKey})
    ensures err == SignupErrors(d)
  {
    var all := {FullnameKey, EmailKey, RoleKey, PhoneKey, PasswordKey, PasswordMatchKey};
    forall k ensures AgreesAt(err, d, all, k) {
      match k
      case FullnameKey =>
      case EmailKey =>
      case RoleKey =>
      case PhoneKey =>
      case PasswordKey =>
      case PasswordMatchKey =>
    }
    SameErrorMaps(err, SignupErrors(d));
  }

  lemma SameErrorMaps(a: map<ErrorKey, string>, b: map<ErrorKey, string>)
    requires forall k :: k in a <==> k in b
    requires forall k :: k in a ==> a[k] == b[k]
    ensures a == b
  {
  }

  // ------------------------------------------------ properties of the checks

  /** The name and role entries exist exactly when those fields are empty;
      any non-empty role passes, whatever the select offered. */
  lemma NameAndRoleEntries(d: SignupDraft)
    ensures FullnameKey in SignupErrors(d) <==> d.fullname == ""
    ensures RoleKey in SignupErrors(d) <==> d.role == ""
  {
    assert FieldError(d, FullnameKey).Some? <==> d.fullname == "";
    assert FieldError(d, RoleKey).Some? <==> d.role == "";
  }

  /** An empty email is "required", a non-empty one without '@' is
      "invalid", and one with '@' has no entry. */
  lemma EmailEntry(d: SignupDraft)
    ensures d.email == "" ==> SignupErrors(d)[EmailKey] == EmailRequired
    ensures d.email != "" && '@' !in d.email ==> SignupErrors(d)[EmailKey] == InvalidEmail
    ensures '@' in d.email <==> EmailKey !in SignupErrors(d)
  {
    assert FieldError(d, EmailKey).None? <==> '@' in d.email;
  }

  /** The phone entry is exactly the phone rule's message. */
  lemma PhoneEntry(d: SignupDraft)
    ensures PhoneKey in SignupErrors(d) <==> !IsIndianMobile(d.phone)
    ensures PhoneKey in SignupErrors(d) ==> Some(SignupErrors(d)[PhoneKey]) == PhoneError(d.phone)
  {
    assert FieldError(d, PhoneKey) == PhoneError(d.phone);
  }

  /** An empty password never gets the length message. */
  lemma EmptyPasswordHasNoLengthEntry(d: SignupDraft)
    requires d.password == ""
    ensures PasswordKey !in SignupErrors(d)
  {
    assert FieldError(d, PasswordKey).None?;
  }

  /** The match entry exists exactly when the two passwords differ. */
  lemma PasswordMatchEntry(d: SignupDraft)
    ensures PasswordMatchKey in SignupErrors(d) <==> d.password != d.confirmPassword
  {
    assert FieldError(d, PasswordMatchKey).Some? <==> d.password != d.confirmPassword;
  }

  /** The map is empty exactly when every field passes: a name, a role, an
      email with '@', an Indian mobile number, a password that is empty or
      at least 8 long, and a matching confirmation. */
  lemma NoErrorsIffAllPass(d: SignupDraft)
    ensures SignupErrors(d) == map[] <==>
      && d.fullname != "" && d.role != "" && '@' in d.email
      && IsIndianMobile(d.phone)
      && (d.password == "" || |d.password| >= 8)
      && d.password == d.confirmPassword
  {
    NameAndRoleEntries(d);
    EmailEntry(d);
    PhoneEntry(d);
    PasswordMatchEntry(d);
    assert FieldError(d, PasswordKey).None? <==> d.password == "" || |d.password| >= 8;
    if SignupErrors(d) != map[] {
      var k :| k in SignupErrors(d);
    }
  }

  lemma ValidMobile(p: string)
    requires p == "9876543210"
    ensures PhoneError(p) == None
  {
    assert p[1..] == "876543210";
  }

  lemma ShortMobile(p: string)
    requires p == "98765432"
    ensures PhoneError(p) == Some(PhoneLength)
  {
  }

  lemma MobileWithWrongLeadingDigit(p: string)
    requires p == "1234567890"
    ensures PhoneError(p) == Some(InvalidPhone)
  {
    assert p[0] == '1';
  }

  // ---------------------------------------------------------- displayed

  /** The keys whose message is shown under the form: the password-length
      entry has no place in the page. */
  const ShownKeys: set<ErrorKey> := {FullnameKey, EmailKey, PhoneKey, RoleKey, PasswordMatchKey}

  /** The messages shown for an error map (an entry "" shows nothing) */
  function ShownErrors(err: map<ErrorKey, string>): (shown: set<ErrorKey>)
    ensures shown <= err.Keys
    ensures forall k :: k in shown ==> err[k] != ""
    ensures PasswordKey !in shown
    ensures forall k :: k in err && k != PasswordKey && err[k] != "" ==> k in shown
  {
    ShownKeysCover();
    set k | k in err && k in ShownKeys && err[k] != ""
  }

  /** Every key but the password-length one has a place in the page. */
  lemma ShownKeysCover()
    ensures forall k: ErrorKey :: k != PasswordKey ==> k in ShownKeys
  {
    forall k: ErrorKey | k != PasswordKey ensures k in ShownKeys {
      match k
      case FullnameKey =>
      case EmailKey =>
      case RoleKey =>
      case PhoneKey =>
      case PasswordMatchKey =>
    }
  }

  /** A draft whose only fault is a short password is refused, yet shows
      no message at all. */
  lemma ShortPasswordRefusedSilently(d: SignupDraft)
    requires d.password == "secret" && d.confirmPassword == "secret"
    requires d.fullname != "" && d.role != "" && '@' in d.email && IsIndianMobile(d.phone)
    ensures SignupErrors(d) != map[]
    ensures ShownErrors(SignupErrors(d)) == {}
  {
    assert FieldError(d, PasswordKey) == Some(ShortPassword);
    assert PasswordKey in SignupErrors(d);
    NameAndRoleEntries(d);
    EmailEntry(d);
    PhoneEntry(d);
    PasswordMatchEntry(d);
  }

  /** The keys shown once the password-length entry is given a place */
  const ShownKeysWithPassword: set<ErrorKey> := ShownKeys + {PasswordKey}

  function ShownErrorsWithPassword(err: map<ErrorKey, string>): (shown: set<ErrorKey>)
    ensures shown <= err.Keys
    ensures forall k :: k in err && err[k] != "" ==> k in shown
  {
    ShownKeysCover();
    set k | k in err && k in ShownKeysWithPassword && err[k] != ""
  }

  /** With the password-length entry shown, every refused draft shows at
      least one message. */
  lemma RefusalAlwaysShown(d: SignupDraft)
    ensures SignupErrors(d) != map[] ==> ShownErrorsWithPassword(SignupErrors(d)) != {}
  {
    var err := SignupErrors(d);
    if err != map[] {
      var k :| k in err;
      assert err[k] != "" by {
        assert err[k] == FieldError(d, k).value;
      }
      assert k in ShownErrorsWithPassword(err);
    }
  }

  // ------------------------------------------------------------ the page

  datatype SignupOutcome =
    | Refused(errors: map<ErrorKey, string>)
    | Registered(request: SignupRequest)
    | RegisterFailed(request: SignupRequest)

  /** The state of the Signup page */
  class SignupForm {
    var fullname: string
    var email: string
    var phone: string
    var role: string
    var password: string
    var confirmPassword: string
    var errors: map<ErrorKey, string>

    function Draft(): SignupDraft
      reads this
    {
      SignupDraft(fullname, email, phone, role, password, confirmPassword)
    }

    constructor()
      ensures Draft() == SignupDraft("", "", "", "", "", "") && errors == map[]
    {
      fullname, email, phone, role, password, confirmPassword := "", "", "", "", "", "";
      errors := map[];
    }

    /** `handleSignup`; `registerOk` is the outcome of the register call.
        A refused draft replaces the error map; an accepted one leaves it
        as it was. */
    method HandleSignup(registerOk: bool) returns (outcome: SignupOutcome)
      modifies this
      ensures Draft() == old(Draft())
      ensures var err := SignupErrors(old(Draft()));
        var request := SignupRequest(fullname, email, password, phone, role);
        && (err != map[] ==> outcome == Refused(err) && errors == err)
        && (err == map[] ==> errors == old(errors))
        && (err == map[] && registerOk ==> outcome == Registered(request))
        && (err == map[] && !registerOk ==> outcome == RegisterFailed(request))
    {
      var err := BuildErrors(Draft());
      if |err| > 0 {
        errors := err;
        return Refused(err);
      }
      var request := SignupRequest(fullname, email, password, phone, role);
      if registerOk {
        outcome := Registered(request);
      } else {
        outcome := RegisterFailed(request);
      }
    }

    method SetFullname(v: string)
      modifies this
      ensures Draft() == old(Draft()).(fullname := v)
      ensures errors == old(errors)[FullnameKey := ""]
    {
      fullname := v;
      errors := errors[FullnameKey := ""];
    }

    method SetEmail(v: string)
      modifies this
      ensures Draft() == old(Draft()).(email := v)
      ensures errors == old(errors)[EmailKey := ""]
    {
      email := v;
      errors := errors[EmailKey := ""];
    }

    method SetPhone(v: string)
      modifies this
      ensures Draft() == old(Draft()).(phone := v)
      ensures errors == old(errors)[PhoneKey := ""]
    {
      phone := v;
      errors := errors[PhoneKey := ""];
    }

    method SetRole(v: string)
      modifies this
      ensures Draft() == old(Draft()).(role := v)
      ensures errors == old(errors)[RoleKey := ""]
    {
      role := v;
      errors := errors[RoleKey := ""];
    }

    /** Editing the password blanks only the match entry. */
    method SetPassword(v: string)
      modifies this
      ensures Draft() == old(Draft()).(password := v)
      ensures errors == old(errors)[PasswordMatchKey := ""]
    {
      password := v;
      errors := errors[PasswordMatchKey := ""];
    }

    method SetConfirmPassword(v: string)
      modifies this
      ensures Draft() == old(Draft()).(confirmPassword := v)
      ensures errors == old(errors)[PasswordMatchKey := ""]
    {
      confirmPassword := v;
      errors := errors[PasswordMatchKey := ""];
    }
  }

  /** Blanking one entry leaves every other entry as it was and hides that
      entry's message. */
  lemma ClearingOneEntry(err: map<ErrorKey, string>, key: ErrorKey)
    ensures forall k :: k != key && k in err ==> k in err[key := ""] && err[key := ""][k] == err[k]
    ensures key !in ShownErrors(err[key := ""])
    ensures ShownErrors(err[key := ""]) == ShownErrors(err) - {key}
  {
  }
}
