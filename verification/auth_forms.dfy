/** The sign-in / registration form (src/components/auth/AuthForms.tsx): the field validator,
    the submit gate in front of the session store, and the field-edit and mode-toggle handlers. */
module AuthForms {
  import opened Wrappers
  import opened Text
  import opened Domain
  import opened Api
  import opened Storage
  import opened Session

  datatype FormData = FormData(email: string, password: string, name: string, confirmPassword: string)

  datatype Field = EmailField | PasswordField | NameField | ConfirmField

  const EmptyForm := FormData("", "", "", "")

  function FieldValue(d: FormData, f: Field): string {
    match f
    case EmailField => d.email
    case PasswordField => d.password
    case NameField => d.name
    case ConfirmField => d.confirmPassword
  }

  /** `{ ...prev, [field]: value }`. */
  function WithField(d: FormData, f: Field, value: string): (r: FormData)
    ensures FieldValue(r, f) == value
    ensures forall g :: g != f ==> FieldValue(r, g) == FieldValue(d, g)
  {
    match f
    case EmailField => d.(email := value)
    case PasswordField => d.(password := value)
    case NameField => d.(name := value)
    case ConfirmField => d.(confirmPassword := value)
  }

  /** One match of `\S+@\S+\.\S+` whose `@` is at `at` and whose `.` is at `dot`: at least one
      non-space character before the `@`, at least one between it and the dot, one after. */
  predicate EmailShapeAt(s: string, at: nat, dot: nat) {
    && 1 <= at && at + 2 <= dot && dot + 1 < |s|
    && s[at] == '@' && s[dot] == '.'
    && !IsSpace(s[at - 1]) && !IsSpace(s[dot + 1])
    && forall k :: at < k < dot ==> !IsSpace(s[k])
  }

  /** `/\S+@\S+\.\S+/.test(s)`: an unanchored search, so the match may sit anywhere in `s`. */
  predicate LooksLikeEmail(s: string) {
    exists at: nat, dot: nat | at < dot < |s| :: EmailShapeAt(s, at, dot)
  }

  /** The search is unanchored: text around an address does not make it invalid. */
  lemma LooksLikeEmailInContext(s: string, prefix: string, suffix: string)
    requires LooksLikeEmail(s)
    ensures LooksLikeEmail(prefix + s + suffix)
  {
    var at: nat, dot: nat :| at < dot < |s| && EmailShapeAt(s, at, dot);
    var t := prefix + s + suffix;
    var n := |prefix|;
    assert forall k :: 0 <= k < |s| ==> t[n + k] == s[k];
    assert forall k :: n + at < k < n + dot ==> !IsSpace(t[k]) by {
      forall k | n + at < k < n + dot ensures !IsSpace(t[k]) {
        assert t[k] == s[k - n];
      }
    }
    assert EmailShapeAt(t, n + at, n + dot);
  }

  /** The shortest address the pattern accepts. A single-input example; the all-inputs fact
      about the pattern is `LooksLikeEmailInContext`. */
  lemma ShortestEmail(s: string)
    requires s == "a@b.c"
    ensures LooksLikeEmail(s)
  {
    assert EmailShapeAt(s, 1, 3);
  }

  function EmailError(email: string): (r: Option<string>)
    ensures r.None? <==> LooksLikeEmail(email)
    ensures r == Some("Email is required") <==> email == ""
  {
    if email == "" then Some("Email is required")
    else if !LooksLikeEmail(email) then Some("Please enter a valid email")
    else None
  }

  function PasswordError(password: string, isLogin: bool): Option<string> {
    if password == "" then Some("Password is required")
    else if !isLogin && |password| < 6 then Some("Password must be at least 6 characters")
    else None
  }

  function NameError(name: string, isLogin: bool): Option<string> {
    if !isLogin && name == "" then Some("Name is required") else None
  }

  function ConfirmError(password: string, confirmPassword: string, isLogin: bool): Option<string> {
    if isLogin then None
    else if confirmPassword == "" then Some("Please confirm your password")
    else if password != confirmPassword then Some("Passwords do not match")
    else None
  }

  /** The single message (if any) a field gets: each check is an if / else-if chain. */
  function ErrorOf(d: FormData, isLogin: bool, f: Field): Option<string> {
    match f
    case EmailField => EmailError(d.email)
    case PasswordField => PasswordError(d.password, isLogin)
    case NameField => NameError(d.name, isLogin)
    case ConfirmField => ConfirmError(d.password, d.confirmPassword, isLogin)
  }

  const AllFields: set<Field> := {EmailField, PasswordField, NameField, ConfirmField}

  /** `validateForm`'s error record: one entry per field that has a message. Every message
      is non-empty. */
  function ValidationErrors(d: FormData, isLogin: bool): (errors: map<Field, string>)
    ensures forall f :: f in errors <==> ErrorOf(d, isLogin, f).Some?
    ensures forall f :: f in errors ==> errors[f] == ErrorOf(d, isLogin, f).value && errors[f] != ""
  {
    map f | f in AllFields && ErrorOf(d, isLogin, f).Some? :: ErrorOf(d, isLogin, f).value
  }

  /** What a submittable form looks like, stated directly: a plausible address and a password;
      registration also needs six characters, a name and a matching confirmation. */
  predicate Acceptable(d: FormData, isLogin: bool) {
    && LooksLikeEmail(d.email)
    && d.password != ""
    && (isLogin || (|d.password| >= 6 && d.name != "" && d.confirmPassword == d.password))
  }

  /** Validation passes exactly for acceptable forms. */
  lemma ValidIffAcceptable(d: FormData, isLogin: bool)
    ensures ValidationErrors(d, isLogin) == map[] <==> Acceptable(d, isLogin)
  {
    var errors := ValidationErrors(d, isLogin);
    if errors == map[] {
      assert EmailField !in errors && PasswordField !in errors;
      assert NameField !in errors && ConfirmField !in errors;
    } else {
      var f :| f in errors;
      assert ErrorOf(d, isLogin, f).Some?;
    }
  }

  /** Signing in checks only that an address and some password are present: never the
      password's length, the name or the confirmation. */
  lemma LoginChecksLess(d: FormData)
    ensures NameField !in ValidationErrors(d, true) && ConfirmField !in ValidationErrors(d, true)
    ensures PasswordField in ValidationErrors(d, true) <==> d.password == ""
    ensures ValidationErrors(d, true) == ValidationErrors(d.(name := "", confirmPassword := "x"), true)
  {
    assert ErrorOf(d, true, NameField).None? && ErrorOf(d, true, ConfirmField).None?;
  }

  /** Registering rejects any password shorter than six characters, and a confirmation that
      differs from the password is reported as a mismatch once it is non-empty. */
  lemma RegisterChecksMore(d: FormData)
    ensures PasswordField in ValidationErrors(d, false) <==> |d.password| < 6
    ensures ConfirmField in ValidationErrors(d, false) <==> d.confirmPassword != d.password || d.confirmPassword == ""
    ensures d.confirmPassword != "" && d.confirmPassword != d.password ==>
      ValidationErrors(d, false)[ConfirmField] == "Passwords do not match"
  {
    assert PasswordField in ValidationErrors(d, false) <==> ErrorOf(d, false, PasswordField).Some?;
    assert ConfirmField in ValidationErrors(d, false) <==> ErrorOf(d, false, ConfirmField).Some?;
  }

  class AuthForm {
    var isLogin: bool
    var data: FormData
    var errors: map<Field, string>
    const session: SessionStore

    constructor (session: SessionStore)
      ensures isLogin && data == EmptyForm && errors == map[] && this.session == session
    {
      isLogin := true;
      data := EmptyForm;
      errors := map[];
      this.session := session;
    }

    /** `validateForm`: replaces the error record; true iff it is empty. */
    method Validate() returns (valid: bool)
      modifies this
      ensures errors == ValidationErrors(data, isLogin)
      ensures valid <==> Acceptable(data, isLogin)
      ensures data == old(data) && isLogin == old(isLogin)
    {
      errors := ValidationErrors(data, isLogin);
      ValidIffAcceptable(data, isLogin);
      valid := |errors| == 0;
    }

    /** `handleSubmit`: no call at all when validation fails; otherwise one login or one
        registration with the form's values. `onSuccess` runs iff that call succeeded; a
        failure is swallowed here (the session store keeps its message). */
    method Submit(response: Result<AuthResponse>) returns (succeeded: bool)
      modifies this, session, session.storage
      ensures errors == ValidationErrors(data, isLogin)
      ensures data == old(data) && isLogin == old(isLogin)
      ensures !Acceptable(data, isLogin) ==>
        && session.calls == old(session.calls)
        && session.user == old(session.user)
        && session.error == old(session.error)
        && session.loading == old(session.loading)
        && session.storage.entries == old(session.storage.entries)
        && !succeeded
      ensures Acceptable(data, isLogin) ==>
        && session.calls == old(session.calls) + [
             if isLogin then LoginCall(data.email, data.password)
             else RegisterCall(data.email, data.password, data.name)]
        && (succeeded <==> response.Ok?)
        && !session.loading
      ensures Acceptable(data, isLogin) && response.Ok? ==>
        && session.user == Some(response.value.user)
        && session.storage.entries == WithSession(old(session.storage.entries), response.value)
        && session.error == None
      ensures Acceptable(data, isLogin) && response.Err? ==>
        && session.user == old(session.user)
        && session.storage.entries == old(session.storage.entries)
        && session.error == Some(ErrorText(response.failure,
             if isLogin then "Login failed" else "Registration failed"))
    {
      var valid := Validate();
      if !valid {
        return false;
      }
      var outcome;
      if isLogin {
        outcome := session.Login(data.email, data.password, response);
      } else {
        outcome := session.Register(data.email, data.password, data.name, response);
      }
      succeeded := outcome.Completed?;
    }

    /** `handleInputChange`: sets one field; a shown error for that field is blanked. */
    method Edit(field: Field, value: string)
      modifies this
      ensures FieldValue(data, field) == value
      ensures forall g :: g != field ==> FieldValue(data, g) == FieldValue(old(data), g)
      ensures errors.Keys == old(errors).Keys
      ensures field in errors ==> errors[field] == ""
      ensures forall g :: g in errors && g != field ==> errors[g] == old(errors)[g]
      ensures isLogin == old(isLogin)
    {
      data := WithField(data, field, value);
      if field in errors && errors[field] != "" {
        errors := errors[field := ""];
      }
    }

    /** `toggleMode`: switch between sign-in and registration, keeping only the address. */
    method ToggleMode()
      modifies this
      ensures isLogin == !old(isLogin)
      ensures errors == map[]
      ensures data == FormData(old(data).email, "", "", "")
    {
      isLogin := !isLogin;
      errors := map[];
      data := FormData(data.email, "", "", "");
    }
  }

  /** A fresh form submitted at once is empty, so it fails validation with "Email is required"
      and signs nobody in. */
  method SubmitEmptyForm(entries: map<string, string>, response: Result<AuthResponse>)
    returns (succeeded: bool, emailMessage: Option<string>, user: Option<User>)
    ensures !succeeded && user == None
    ensures emailMessage == Some("Email is required")
  {
    var storage := new LocalStorage(entries);
    var session := new SessionStore(storage);
    var form := new AuthForm(session);
    succeeded := form.Submit(response);
    emailMessage := if EmailField in form.errors then Some(form.errors[EmailField]) else None;
    user := session.user;
  }
}
