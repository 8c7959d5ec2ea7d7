/** The registration screen (app/register.tsx): the form state, the rule
    that enables the register button (and selects its disabled style), the
    terms check box, and the register handler, which only navigates. */
module Register {
  import opened Wrappers

  datatype RegisterForm = RegisterForm(email: string, password: string, confirmPassword: string,
                                       name: string, agreeTerms: bool)

  const InitialForm: RegisterForm := RegisterForm("", "", "", "", false)

  const AdultVerificationRoute: string := "/adult-verification"

  /** `email && password && confirmPassword && name && agreeTerms`: every
      text is non-empty (truthy) and the terms are accepted. */
  predicate CanRegister(f: RegisterForm)
  {
    f.email != "" && f.password != "" && f.confirmPassword != "" && f.name != "" && f.agreeTerms
  }

  /** `disabled={!(…)}` on the button. */
  predicate ButtonDisabled(f: RegisterForm)
  {
    !CanRegister(f)
  }

  /** `!(…) && styles.disabledButton`: the disabled style is applied. */
  predicate DisabledStyle(f: RegisterForm)
  {
    !CanRegister(f)
  }

  /** The button is disabled exactly when a field is empty or the terms are
      not accepted, and it is styled as disabled exactly when it is. */
  lemma ButtonRule(f: RegisterForm)
    ensures ButtonDisabled(f) <==>
              f.email == "" || f.password == "" || f.confirmPassword == "" || f.name == "" || !f.agreeTerms
    ensures DisabledStyle(f) <==> ButtonDisabled(f)
  {
  }

  /** The rule never compares the two passwords: a form whose confirmation
      differs from the password can still register. */
  lemma PasswordsNotCompared()
    ensures var f := RegisterForm("a@b.kr", "secret1", "secret2", "홍길동", true);
            f.password != f.confirmPassword && !ButtonDisabled(f)
  {
  }

  /** `setAgreeTerms(!agreeTerms)`: a tap on the terms row. */
  function TapTerms(f: RegisterForm): (r: RegisterForm)
    ensures r.agreeTerms == !f.agreeTerms
    ensures r.(agreeTerms := f.agreeTerms) == f
  {
    f.(agreeTerms := !f.agreeTerms)
  }

  /** The screen opens disabled; a second tap undoes the first. */
  lemma TermsToggle(f: RegisterForm)
    ensures ButtonDisabled(InitialForm) && !InitialForm.agreeTerms
    ensures TapTerms(TapTerms(f)) == f
  {
  }

  /** A press on the register button: ignored while it is disabled,
      otherwise `handleRegister`, which only pushes the adult verification
      route. */
  function PressRegister(f: RegisterForm): (route: Option<string>)
    ensures route.Some? <==> CanRegister(f)
    ensures route.Some? ==> route.value == AdultVerificationRoute
  {
    if ButtonDisabled(f) then None else Some(AdultVerificationRoute)
  }
}
