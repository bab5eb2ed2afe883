/** The sign-up form: its fields, its error map, the error-clearing change
    handlers and `validate`. */
module Register {
  import opened Domain
  import opened Strings
  import opened FormRules

  /** The four text inputs; their names are also their error keys. */
  predicate IsTextField(field: Field) {
    field != TermsAccepted && field != Form
  }

  /** The error map made of the five field results, in field order. */
  function Collect(n: Option<string>, e: Option<string>, p: Option<string>, c: Option<string>, t: Option<string>): (errors: map<Field, string>)
    ensures errors.Keys <= {Name, Email, Password, ConfirmPassword, TermsAccepted}
    ensures Name in errors <==> n.Some?
    ensures Name in errors ==> errors[Name] == n.value
    ensures Email in errors <==> e.Some?
    ensures Email in errors ==> errors[Email] == e.value
    ensures Password in errors <==> p.Some?
    ensures Password in errors ==> errors[Password] == p.value
    ensures ConfirmPassword in errors <==> c.Some?
    ensures ConfirmPassword in errors ==> errors[ConfirmPassword] == c.value
    ensures TermsAccepted in errors <==> t.Some?
    ensures TermsAccepted in errors ==> errors[TermsAccepted] == t.value
  {
    Record(Record(Record(Record(Record(map[], Name, n), Email, e), Password, p), ConfirmPassword, c), TermsAccepted, t)
  }

  /** The error map `validate` builds: one message for each failing field and nothing else. */
  function RegisterErrors(name: string, email: string, password: string, confirm: string, terms: bool): (errors: map<Field, string>)
    ensures errors.Keys <= {Name, Email, Password, ConfirmPassword, TermsAccepted}
    ensures Name in errors <==> NameError(name).Some?
    ensures Name in errors ==> errors[Name] == NameError(name).value
    ensures Email in errors <==> EmailError(email).Some?
    ensures Email in errors ==> errors[Email] == EmailError(email).value
    ensures Password in errors <==> RegisterPasswordError(password).Some?
    ensures Password in errors ==> errors[Password] == RegisterPasswordError(password).value
    ensures ConfirmPassword in errors <==> ConfirmError(password, confirm).Some?
    ensures ConfirmPassword in errors ==> errors[ConfirmPassword] == ConfirmError(password, confirm).value
    ensures TermsAccepted in errors <==> !terms
    ensures TermsAccepted in errors ==> errors[TermsAccepted] == TermsRequired
  {
    Collect(NameError(name), EmailError(email), RegisterPasswordError(password), ConfirmError(password, confirm), TermsError(terms))
  }

  /** The form passes exactly when every field is acceptable. */
  lemma RegisterValidIff(name: string, email: string, password: string, confirm: string, terms: bool)
    ensures |RegisterErrors(name, email, password, confirm, terms)| == 0 <==>
              && |Trim(name)| >= 2
              && EmailPattern(email)
              && |password| >= 6 && MeetsComplexity(password)
              && confirm == password
              && terms
  {
    var errors := RegisterErrors(name, email, password, confirm, terms);
    if |errors| == 0 {
      assert errors == map[];
    } else {
      var k :| k in errors;
    }
  }

  class RegisterForm {
    var name: string
    var email: string
    var password: string
    var confirmPassword: string
    var termsAccepted: bool
    var errors: map<Field, string>

    constructor ()
      ensures name == "" && email == "" && password == "" && confirmPassword == ""
      ensures !termsAccepted && errors == map[]
    {
      name := "";
      email := "";
      password := "";
      confirmPassword := "";
      termsAccepted := false;
      errors := map[];
    }

    /** The text input called `field`. */
    function Value(field: Field): string
      requires IsTextField(field)
      reads this
    {
      if field == Name then name
      else if field == Email then email
      else if field == Password then password
      else confirmPassword
    }

    /** `errors[field]` is truthy: present and not the empty string. */
    predicate ShowsError(field: Field)
      reads this
    {
      field in errors && errors[field] != ""
    }

    /** `handleChange`: store the typed value; blank the field's error if it shows one. */
    method HandleChange(field: Field, value: string)
      requires IsTextField(field)
      modifies this
      ensures Value(field) == value
      ensures forall f: Field | IsTextField(f) && f != field :: Value(f) == old(Value(f))
      ensures termsAccepted == old(termsAccepted)
      ensures old(ShowsError(field)) ==> errors == old(errors)[field := ""]
      ensures !old(ShowsError(field)) ==> errors == old(errors)
    {
      if field == Name {
        name := value;
      } else if field == Email {
        email := value;
      } else if field == Password {
        password := value;
      } else {
        confirmPassword := value;
      }
      if ShowsError(field) {
        errors := errors[field := ""];
      }
    }

    /** The terms checkbox: the same rule for `termsAccepted`. */
    method SetTermsAccepted(checked: bool)
      modifies this
      ensures termsAccepted == checked
      ensures name == old(name) && email == old(email) && password == old(password)
      ensures confirmPassword == old(confirmPassword)
      ensures old(ShowsError(TermsAccepted)) ==> errors == old(errors)[TermsAccepted := ""]
      ensures !old(ShowsError(TermsAccepted)) ==> errors == old(errors)
    {
      termsAccepted := checked;
      if ShowsError(TermsAccepted) {
        errors := errors[TermsAccepted := ""];
      }
    }

    /** `validate`: replace the error map by the fresh one and report whether it is empty. */
    method Validate() returns (ok: bool)
      modifies this`errors
      ensures errors == RegisterErrors(name, email, password, confirmPassword, termsAccepted)
      ensures ok <==> |errors| == 0
    {
      var newErrors := CheckName(map[]);
      newErrors := CheckEmail(newErrors);
      newErrors := CheckPassword(newErrors);
      newErrors := CheckConfirm(newErrors);
      if !termsAccepted {
        newErrors := newErrors[TermsAccepted := TermsRequired];
      }
      errors := newErrors;
      ok := |newErrors| == 0;
    }

    /** The name step of `validate`. */
    method CheckName(newErrors: map<Field, string>) returns (r: map<Field, string>)
      ensures r == Record(newErrors, Name, NameError(name))
    {
      r := newErrors;
      var t := Trim(name);
      if t == [] {
        r := r[Name := NameRequired];
      } else if |t| < 2 {
        r := r[Name := NameTooShort];
      }
    }

    /** The email step of `validate`. */
    method CheckEmail(newErrors: map<Field, string>) returns (r: map<Field, string>)
      ensures r == Record(newErrors, Email, EmailError(email))
    {
      r := newErrors;
      if email == "" {
        r := r[Email := EmailRequired];
      } else if !MatchesEmail(email) {
        r := r[Email := EmailInvalid];
      }
    }

    /** The password step of `validate`. */
    method CheckPassword(newErrors: map<Field, string>) returns (r: map<Field, string>)
      ensures r == Record(newErrors, Password, RegisterPasswordError(password))
    {
      r := newErrors;
      if password == "" {
        r := r[Password := PasswordRequired];
      } else if |password| < 6 {
        r := r[Password := PasswordTooShort];
      } else if !MeetsComplexity(password) {
        r := r[Password := PasswordTooWeak];
      }
    }

    /** The confirmation step of `validate`. */
    method CheckConfirm(newErrors: map<Field, string>) returns (r: map<Field, string>)
      ensures r == Record(newErrors, ConfirmPassword, ConfirmError(password, confirmPassword))
    {
      r := newErrors;
      if confirmPassword == "" {
        r := r[ConfirmPassword := ConfirmRequired];
      } else if password != confirmPassword {
        r := r[ConfirmPassword := ConfirmMismatch];
      }
    }
  }
}
