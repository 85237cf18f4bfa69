/**
 * The sign-up form of src/pages/RegisterPage.tsx: its check chain and the
 * guard in front of `signUp`.
 */
module Register {
  import opened Types

  datatype RegisterForm = RegisterForm(name: string, email: string, password: string, confirmPassword: string)

  /** The form starts with every field empty. */
  const InitialRegisterForm := RegisterForm("", "", "", "")

  /** The toast each failed check shows, or `Accepted`. */
  datatype RegisterCheck = MissingFields | PasswordTooShort | PasswordsDiffer | Accepted

  /** `validateForm`: the first failing check decides. */
  function CheckRegister(f: RegisterForm): RegisterCheck {
    if f.name == "" || f.email == "" || f.password == "" || f.confirmPassword == "" then MissingFields
    else if |f.password| < 6 then PasswordTooShort
    else if f.password != f.confirmPassword then PasswordsDiffer
    else Accepted
  }

  /**
   * The form is accepted exactly when every field is filled in, the password
   * has at least six characters and the confirmation repeats it; each
   * rejection names the first check, in the order missing, short, mismatch.
   */
  lemma CheckRegisterMeaning(f: RegisterForm)
    ensures CheckRegister(f) == Accepted <==>
      f.name != "" && f.email != "" && |f.password| >= 6 && f.password == f.confirmPassword
    ensures CheckRegister(f) == MissingFields <==>
      f.name == "" || f.email == "" || f.password == "" || f.confirmPassword == ""
    ensures CheckRegister(f) == PasswordTooShort <==>
      f.name != "" && f.email != "" && f.confirmPassword != "" && 0 < |f.password| < 6
    ensures CheckRegister(f) == PasswordsDiffer <==>
      f.name != "" && f.email != "" && f.confirmPassword != "" && |f.password| >= 6 && f.password != f.confirmPassword
  {
  }

  /** No format is imposed on the email: any other non-empty email gets the same answer. */
  lemma AnyNonEmptyEmail(f: RegisterForm, email: string)
    requires f.email != "" && email != ""
    ensures CheckRegister(f.(email := email)) == CheckRegister(f)
  {
  }

  datatype SignUpCall = SignUpCall(email: string, password: string, name: string)

  /** `handleSubmit`: the `signUp(email, password, name)` call it makes, if any. */
  function Submit(f: RegisterForm): (r: Option<SignUpCall>)
    ensures r.Some? <==> CheckRegister(f) == Accepted
    ensures r.Some? ==> r.value == SignUpCall(f.email, f.password, f.name)
  {
    if CheckRegister(f) == Accepted then Some(SignUpCall(f.email, f.password, f.name)) else None
  }

  /** An untouched form is never submitted. */
  lemma InitialFormNotSubmitted()
    ensures Submit(InitialRegisterForm) == None
  {
  }
}
