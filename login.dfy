/** The sign-in form: the remembered-email pre-fill, `validate`, and the
    part of the submit handler that touches storage and the session. */
module Login {
  import opened Domain
  import opened FormRules
  import Auth

  /** The error map `validate` builds: one message for each failing field and nothing else. */
  function LoginErrors(email: string, password: string): (errors: map<Field, string>)
    ensures errors.Keys <= {Email, Password}
    ensures Email in errors <==> EmailError(email).Some?
    ensures Email in errors ==> errors[Email] == EmailError(email).value
    ensures Password in errors <==> LoginPasswordError(password).Some?
    ensures Password in errors ==> errors[Password] == LoginPasswordError(password).value
  {
    Record(Record(map[], Email, EmailError(email)), Password, LoginPasswordError(password))
  }

  /** The form passes exactly when the email matches the pattern and the password has six characters. */
  lemma LoginValidIff(email: string, password: string)
    ensures |LoginErrors(email, password)| == 0 <==> EmailPattern(email) && |password| >= 6
  {
    var errors := LoginErrors(email, password);
    if |errors| == 0 {
      assert errors == map[];
    } else {
      var k :| k in errors;
    }
  }

  /** The email a mount would pre-fill: a saved, non-empty string under `raffine_remember_email`. */
  function SavedEmail(entries: map<string, Stored>): (r: Option<string>)
    ensures r.Some? <==> RememberKey in entries && entries[RememberKey].Raw? && entries[RememberKey].text != ""
    ensures r.Some? ==> entries[RememberKey] == Raw(r.value)
  {
    if RememberKey in entries && entries[RememberKey].Raw? && entries[RememberKey].text != "" then
      Some(entries[RememberKey].text)
    else None
  }

  /** The remember-me rule of the submit handler: save the email, or forget any saved one. */
  function Remembered(entries: map<string, Stored>, rememberMe: bool, email: string): (r: map<string, Stored>)
    ensures RememberKey in r <==> rememberMe
    ensures rememberMe ==> r[RememberKey] == Raw(email)
    ensures forall k | k != RememberKey :: (k in r <==> k in entries) && (k in r ==> r[k] == entries[k])
  {
    if rememberMe then entries[RememberKey := Raw(email)] else entries - {RememberKey}
  }

  /** A remembered valid email is pre-filled by the next mount. */
  lemma RememberedEmailIsPrefilled(entries: map<string, Stored>, email: string)
    requires EmailPattern(email)
    ensures SavedEmail(Remembered(entries, true, email)) == Some(email)
  {
    assert EmailError(email).None?;
  }

  /** After a submit without remember-me, the next mount pre-fills nothing. */
  lemma ForgottenEmailIsNotPrefilled(entries: map<string, Stored>, email: string)
    ensures SavedEmail(Remembered(entries, false, email)).None?
  {
  }

  class LoginForm {
    var email: string
    var password: string
    var rememberMe: bool
    var errors: map<Field, string>
    var isLoading: bool
    const storage: LocalStorage
    const session: Auth.Session

    constructor (storage: LocalStorage, session: Auth.Session)
      ensures this.storage == storage && this.session == session
      ensures email == "" && password == "" && !rememberMe && errors == map[] && !isLoading
    {
      this.storage := storage;
      this.session := session;
      email := "";
      password := "";
      rememberMe := false;
      errors := map[];
      isLoading := false;
    }

    /** The mount effect: a saved email pre-fills the form and ticks remember-me. */
    method OnMount()
      modifies this`email, this`rememberMe
      ensures SavedEmail(storage.entries).Some? ==> email == SavedEmail(storage.entries).value && rememberMe
      ensures SavedEmail(storage.entries).None? ==> email == old(email) && rememberMe == old(rememberMe)
    {
      var saved := storage.GetItem(RememberKey);
      if saved.Some? && saved.value.Raw? && saved.value.text != "" {
        email := saved.value.text;
        rememberMe := true;
      }
    }

    /** `validate`: replace the error map by the fresh one and report whether it is empty. */
    method Validate() returns (ok: bool)
      modifies this`errors
      ensures errors == LoginErrors(email, password)
      ensures ok <==> |errors| == 0
    {
      var newErrors: map<Field, string> := map[];
      if email == "" {
        newErrors := newErrors[Email := EmailRequired];
      } else if !MatchesEmail(email) {
        newErrors := newErrors[Email := EmailInvalid];
      }
      if password == "" {
        newErrors := newErrors[Password := PasswordRequired];
      } else if |password| < 6 {
        newErrors := newErrors[Password := PasswordTooShort];
      }
      errors := newErrors;
      ok := |newErrors| == 0;
    }

    /** The remember-me step of the submit handler. */
    method ApplyRemember()
      modifies storage
      ensures storage.entries == Remembered(old(storage.entries), rememberMe, email)
    {
      if rememberMe {
        storage.SetItem(RememberKey, Raw(email));
      } else {
        storage.RemoveItem(RememberKey);
      }
    }

    /** The submit handler past a passing `validate`: the remember-me rule,
        then the outcome of the sign-in request. */
    method SignInWith(outcome: Result<User>)
      requires session.storage == storage
      modifies this`errors, this`isLoading, storage, session
      ensures !isLoading
      ensures outcome.Ok? ==>
                errors == old(errors) && session.user == Some(outcome.value) && session.isAuthenticated
                && storage.entries == Remembered(old(storage.entries), rememberMe, email)[UserKey := Json(UserDoc(outcome.value))]
      ensures outcome.Err? ==>
                errors == map[Form := outcome.message]
                && session.user == old(session.user) && session.isAuthenticated == old(session.isAuthenticated)
                && storage.entries == Remembered(old(storage.entries), rememberMe, email)
    {
      isLoading := true;
      ApplyRemember();
      match outcome {
        case Ok(u) =>
          session.Login(u);
        case Err(message) =>
          errors := map[Form := message];
      }
      isLoading := false;
    }

    /** `handleSubmit`, with the sign-in request's outcome as a parameter.
        An invalid form stops after `validate`; otherwise the remember-me rule
        runs first, then the outcome signs in or becomes the one form error.
        `called` says whether the sign-in request was made. */
    method Submit(outcome: Result<User>) returns (called: bool)
      requires session.storage == storage
      modifies this, storage, session
      ensures email == old(email) && password == old(password) && rememberMe == old(rememberMe)
      ensures called <==> |LoginErrors(email, password)| == 0
      ensures !called ==> errors == LoginErrors(email, password) && isLoading == old(isLoading)
                          && storage.entries == old(storage.entries)
                          && session.user == old(session.user) && session.isAuthenticated == old(session.isAuthenticated)
      ensures called ==> !isLoading
      ensures called && outcome.Ok? ==>
                errors == map[] && session.user == Some(outcome.value) && session.isAuthenticated
                && storage.entries == Remembered(old(storage.entries), rememberMe, email)[UserKey := Json(UserDoc(outcome.value))]
      ensures called && outcome.Err? ==>
                errors == map[Form := outcome.message]
                && session.user == old(session.user) && session.isAuthenticated == old(session.isAuthenticated)
                && storage.entries == Remembered(old(storage.entries), rememberMe, email)
    {
      called := Validate();
      if called {
        assert errors == map[];
        SignInWith(outcome);
      }
    }
  }
}
