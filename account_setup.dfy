/**
 * The first wizard step: name, e-mail address and password, with the step's own checks
 * and error messages.
 */
module AccountSetup {
  import opened JsText
  import opened FilterState
  import opened Onboarding

  /** No white space and no `@`: the class `[^\s@]`. */
  predicate Plain(t: string) {
    forall k :: 0 <= k < |t| ==> !IsSpace(t[k]) && t[k] != '@'
  }

  /** `s` splits as a plain local part before position `i`, `@` at `i`, a plain part up to
      position `j`, a dot at `j` and a plain rest, all three parts non-empty. */
  predicate EmailSplit(s: string, i: int, j: int) {
    && 0 < i && i + 1 < j && j + 1 < |s|
    && s[i] == '@' && s[j] == '.'
    && Plain(s[..i]) && Plain(s[i + 1..j]) && Plain(s[j + 1..])
  }

  /** `/^[^\s@]+@[^\s@]+\.[^\s@]+$/`: a non-empty plain local part, `@`, a non-empty plain
      part, a dot, and a non-empty plain rest (both of the last two may hold further dots). */
  predicate ValidateEmail(s: string) {
    exists i, j | 0 < i < j < |s| :: EmailSplit(s, i, j)
  }

  /** Any three non-empty plain parts form an address. */
  lemma EmailOfParts(local: string, domain: string, top: string)
    requires local != [] && domain != [] && top != []
    requires Plain(local) && Plain(domain) && Plain(top)
    ensures ValidateEmail(local + "@" + domain + "." + top)
  {
    var s := local + "@" + domain + "." + top;
    var i, j := |local|, |local| + 1 + |domain|;
    assert s[..i] == local;
    assert s[i + 1..j] == domain;
    assert s[j + 1..] == top;
    assert s[i] == '@' && s[j] == '.';
    assert EmailSplit(s, i, j);
  }

  lemma PlainAt(t: string, k: int)
    requires Plain(t) && 0 <= k < |t|
    ensures !IsSpace(t[k]) && t[k] != '@'
  {
  }

  /** A valid address has no white space and exactly one `@`, which is neither first nor
      last. */
  lemma EmailHasOneAt(s: string)
    requires ValidateEmail(s)
    ensures forall k :: 0 <= k < |s| ==> !IsSpace(s[k])
    ensures exists i :: 0 < i < |s| - 1 && s[i] == '@' && forall k :: 0 <= k < |s| && k != i ==> s[k] != '@'
  {
    var i, j :| 0 < i < j < |s| && EmailSplit(s, i, j);
    assert i + 1 < j && j + 1 < |s| && Plain(s[..i]) && Plain(s[i + 1..j]) && Plain(s[j + 1..]);
    forall k | 0 <= k < |s| && k != i
      ensures s[k] != '@' && !IsSpace(s[k])
    {
      if k < i {
        PlainAt(s[..i], k);
      } else if k < j {
        PlainAt(s[i + 1..j], k - i - 1);
      } else if k > j {
        PlainAt(s[j + 1..], k - j - 1);
      }
    }
    assert !IsSpace(s[i]);
  }

  /** An address needs a dot after its `@`. */
  lemma EmailWithoutDot()
    ensures !ValidateEmail("anna@example")
  {
    var s := "anna@example";
    forall i, j ensures !EmailSplit(s, i, j) {
      if 0 <= j < |s| {
        assert s[j] != '.';
      }
    }
  }

  /** `validatePassword`: at least eight characters. */
  predicate ValidatePassword(p: string) {
    |p| >= 8
  }

  const EmailRequired: string := "E-Mail-Adresse ist erforderlich"
  const EmailInvalid: string := "Bitte geben Sie eine gültige E-Mail-Adresse ein"
  const PasswordRequired: string := "Passwort ist erforderlich"
  const PasswordTooShort: string := "Passwort muss mindestens 8 Zeichen lang sein"
  const ConfirmRequired: string := "Passwort bestätigen ist erforderlich"
  const PasswordsDiffer: string := "Passwörter stimmen nicht überein"
  const FirstNameRequired: string := "Vorname ist erforderlich"
  const LastNameRequired: string := "Nachname ist erforderlich"

  /** The message a field gets on continuing, if any: "required" when it is empty,
      otherwise its format or match check. */
  function Message(f: FormData, field: TextField): (m: Option<string>)
    ensures FieldText(f, field) == "" && field != PostalCode ==> m.Some?
    ensures field == PostalCode ==> m.None?
  {
    match field
    case Email =>
      if f.email == "" then Some(EmailRequired)
      else if !ValidateEmail(f.email) then Some(EmailInvalid)
      else None
    case Password =>
      if f.password == "" then Some(PasswordRequired)
      else if !ValidatePassword(f.password) then Some(PasswordTooShort)
      else None
    case ConfirmPassword =>
      if f.confirmPassword == "" then Some(ConfirmRequired)
      else if f.password != f.confirmPassword then Some(PasswordsDiffer)
      else None
    case FirstName => if f.firstName == "" then Some(FirstNameRequired) else None
    case LastName => if f.lastName == "" then Some(LastNameRequired) else None
    case PostalCode => None
  }

  /** The keys of the five account fields. */
  const AccountKeys: set<string> := {"email", "password", "confirmPassword", "firstName", "lastName"}

  /** The account field a key names. */
  function FieldOfKey(k: string): (field: TextField)
    ensures k in AccountKeys ==> FieldKey(field) == k && field != PostalCode
  {
    if k == "email" then Email else if k == "password" then Password
    else if k == "confirmPassword" then ConfirmPassword else if k == "firstName" then FirstName
    else if k == "lastName" then LastName else PostalCode
  }

  /** The error object `handleContinue` builds: one message per field that has one. */
  function AccountErrors(f: FormData): (e: map<string, string>)
    ensures e.Keys <= AccountKeys
    ensures forall field :: field != PostalCode ==> (FieldKey(field) in e <==> Message(f, field).Some?)
    ensures forall field :: field != PostalCode && FieldKey(field) in e ==> e[FieldKey(field)] == Message(f, field).value
  {
    var e := map k | k in AccountKeys && Message(f, FieldOfKey(k)).Some? :: Message(f, FieldOfKey(k)).value;
    forall field | field != PostalCode
      ensures FieldKey(field) in AccountKeys && FieldOfKey(FieldKey(field)) == field
    {
    }
    e
  }

  /** The step lets the wizard go on exactly when all five fields are filled in, the
      address is well formed, the password is long enough and both passwords agree. */
  lemma AccountErrorsEmpty(f: FormData)
    ensures AccountErrors(f) == map[] <==>
      && f.firstName != "" && f.lastName != ""
      && f.email != "" && ValidateEmail(f.email)
      && ValidatePassword(f.password) && f.password == f.confirmPassword
  {
    var e := AccountErrors(f);
    if e == map[] {
      assert FieldKey(Email) !in e && FieldKey(Password) !in e && FieldKey(ConfirmPassword) !in e;
      assert FieldKey(FirstName) !in e && FieldKey(LastName) !in e;
    } else {
      var k :| k in e;
      assert FieldKey(FieldOfKey(k)) in e;
    }
  }

  /** The step's own check is stricter than the wizard's gate for the first step: whatever it
      accepts the gate accepts. */
  lemma AccountCheckImpliesGate(f: FormData)
    requires AccountErrors(f) == map[]
    ensures CanProceed(1, f)
  {
    AccountErrorsEmpty(f);
  }

  /** The gate alone accepts an address the step rejects, and a short password. */
  lemma GateIgnoresFormat()
    ensures var f := InitialFormData.(firstName := "A", lastName := "B", email := "x",
                                       password := "p", confirmPassword := "p");
      CanProceed(1, f) && AccountErrors(f) != map[]
  {
    var f := InitialFormData.(firstName := "A", lastName := "B", email := "x",
                              password := "p", confirmPassword := "p");
    assert Message(f, Password) == Some(PasswordTooShort);
    assert FieldKey(Password) in AccountErrors(f);
  }

  /** The step's own state: the messages shown under the fields. */
  class AccountSetupStep {
    var errors: map<string, string>

    constructor()
      ensures errors == map[]
    {
      errors := map[];
    }

    /** `handleInputChange(field, value)`: the new form data, and the field's message
        cleared. */
    method InputChange(f: FormData, field: TextField, value: string) returns (g: FormData)
      modifies this
      ensures g == SetText(f, field, value)
      ensures errors == ClearError(old(errors), FieldKey(field))
    {
      g := SetText(f, field, value);
      if FieldKey(field) in errors && errors[FieldKey(field)] != "" {
        errors := errors[FieldKey(field) := ""];
      }
    }

    /** `handleContinue`: the messages are collected field by field and shown, and the
        wizard moves on only when there is none. */
    method Continue(f: FormData) returns (next: bool)
      modifies this
      ensures errors == AccountErrors(f)
      ensures next <==> errors == map[]
    {
      var newErrors: map<string, string> := map[];
      if f.email == "" {
        newErrors := newErrors["email" := EmailRequired];
      } else if !ValidateEmail(f.email) {
        newErrors := newErrors["email" := EmailInvalid];
      }
      assert newErrors == AddMessage(map[], f, Email);
      ghost var e1 := newErrors;
      if f.password == "" {
        newErrors := newErrors["password" := PasswordRequired];
      } else if !ValidatePassword(f.password) {
        newErrors := newErrors["password" := PasswordTooShort];
      }
      assert newErrors == AddMessage(e1, f, Password);
      ghost var e2 := newErrors;
      if f.confirmPassword == "" {
        newErrors := newErrors["confirmPassword" := ConfirmRequired];
      } else if f.password != f.confirmPassword {
        newErrors := newErrors["confirmPassword" := PasswordsDiffer];
      }
      assert newErrors == AddMessage(e2, f, ConfirmPassword);
      ghost var e3 := newErrors;
      if f.firstName == "" {
        newErrors := newErrors["firstName" := FirstNameRequired];
      }
      assert newErrors == AddMessage(e3, f, FirstName);
      ghost var e4 := newErrors;
      if f.lastName == "" {
        newErrors := newErrors["lastName" := LastNameRequired];
      }
      assert newErrors == AddMessage(e4, f, LastName);
      AllMessages(f);
      errors := newErrors;
      next := |errors| == 0;
    }
  }

  /** The error object with the message of `field` added when it has one. */
  function AddMessage(e: map<string, string>, f: FormData, field: TextField): map<string, string> {
    if Message(f, field).Some? then e[FieldKey(field) := Message(f, field).value] else e
  }

  /** Adding the five fields' messages one after the other builds the error object. */
  lemma AllMessages(f: FormData)
    ensures AddMessage(AddMessage(AddMessage(AddMessage(AddMessage(map[], f, Email), f, Password),
      f, ConfirmPassword), f, FirstName), f, LastName) == AccountErrors(f)
  {
    var e1 := AddMessage(map[], f, Email);
    var e2 := AddMessage(e1, f, Password);
    var e3 := AddMessage(e2, f, ConfirmPassword);
    var e4 := AddMessage(e3, f, FirstName);
    var e := AddMessage(e4, f, LastName);
    assert e.Keys <= AccountKeys;
    forall field | field != PostalCode
      ensures FieldKey(field) in e <==> Message(f, field).Some?
      ensures FieldKey(field) in e ==> e[FieldKey(field)] == Message(f, field).value
    {
      match field
      case Email =>
      case Password =>
      case ConfirmPassword =>
      case FirstName =>
      case LastName =>
    }
    SameErrors(f, e);
  }

  /** A map holding exactly the messages of the five account fields is the error object. */
  lemma SameErrors(f: FormData, e: map<string, string>)
    requires forall field :: field != PostalCode ==>
      (FieldKey(field) in e <==> Message(f, field).Some?)
    requires forall field :: field != PostalCode && FieldKey(field) in e ==> e[FieldKey(field)] == Message(f, field).value
    requires e.Keys <= AccountKeys
    ensures e == AccountErrors(f)
  {
    var a := AccountErrors(f);
    forall k | k in e ensures k in a && a[k] == e[k] {
      assert FieldKey(FieldOfKey(k)) == k;
    }
    forall k | k in a ensures k in e {
      assert FieldKey(FieldOfKey(k)) == k;
    }
  }
}
