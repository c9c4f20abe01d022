/** The login form (src/components/Login.tsx): its schema, which checks the
    e-mail or the phone number depending on `loginMethod`, the request it
    builds, the method toggle, the submit button, and the fallback text of its
    failure message (`Validation.SubmitFailureMessage`).
    Yup's `.email()` test is given as the predicate `isEmail`. */
module Login {
  import opened Wrappers
  import opened Text
  import opened Validation

  datatype LoginValues = LoginValues(loginMethod: string, email: string, phone: string, password: string)

  /** What `loginUser` is given: the password and one identifier. */
  datatype LoginRequest = LoginRequest(password: string, email: Option<string>, phone: Option<string>)

  const InitialValues := LoginValues("email", "", "", "")
  const FallbackMessage := "Login failed. Please try again."

  /** The login password rule: `.min(6).required()`. */
  predicate PasswordOk(p: string) { MinLength(p, 6) }

  /** `validationSchema`: the method is one of the two, the identifier it
      names passes its rule, the other identifier is not checked, and the
      password has at least six characters. */
  function SchemaValid(v: LoginValues, isEmail: string -> bool): (ok: bool)
    ensures ok <==> && |v.password| >= 6
                    && (|| (v.loginMethod == "email" && v.email != "" && isEmail(v.email))
                        || (v.loginMethod == "phone" && |v.phone| == 10 && forall i :: 0 <= i < 10 ==> IsDigit(v.phone[i])))
  {
    && (v.loginMethod == "email" || v.loginMethod == "phone")
    && (v.loginMethod == "email" ==> Required(v.email) && isEmail(v.email))
    && (v.loginMethod == "phone" ==> TenDigits(v.phone))
    && PasswordOk(v.password)
  }

  /** `loginData`: the password and the identifier of the chosen method. */
  function LoginData(v: LoginValues): (r: LoginRequest)
    ensures r.password == v.password
    ensures v.loginMethod == "email" ==> r.email == Some(v.email) && r.phone.None?
    ensures v.loginMethod != "email" ==> r.phone == Some(v.phone) && r.email.None?
  {
    if v.loginMethod == "email" then LoginRequest(v.password, Some(v.email), None)
    else LoginRequest(v.password, None, Some(v.phone))
  }

  /** The "Email" toggle: switches the method and clears the phone. */
  function ChooseEmail(v: LoginValues): (r: LoginValues)
    ensures r.loginMethod == "email" && r.phone == ""
    ensures r.email == v.email && r.password == v.password
  {
    v.(loginMethod := "email", phone := "")
  }

  /** The "Phone" toggle: switches the method and clears the e-mail. */
  function ChoosePhone(v: LoginValues): (r: LoginValues)
    ensures r.loginMethod == "phone" && r.email == ""
    ensures r.phone == v.phone && r.password == v.password
  {
    v.(loginMethod := "phone", email := "")
  }

  /** Whether the submit button is enabled; `isValid` is the schema's verdict
      on the current values and `dirty` means they differ from the initial ones. */
  function CanSubmit(v: LoginValues, isEmail: string -> bool, isSubmitting: bool, loading: bool): (enabled: bool)
    ensures enabled <==> !isSubmitting && !loading && SchemaValid(v, isEmail) && v != InitialValues
  {
    !SubmitDisabled(isSubmitting, SchemaValid(v, isEmail), v != InitialValues, loading)
  }

  /** A request the button lets through names exactly one identifier, which
      passed its rule, and a password of at least six characters. */
  lemma SubmittedRequestIsWellFormed(v: LoginValues, isEmail: string -> bool, isSubmitting: bool, loading: bool)
    requires CanSubmit(v, isEmail, isSubmitting, loading)
    ensures var r := LoginData(v);
      && |r.password| >= 6
      && (r.email.Some? <==> r.phone.None?)
      && (r.email.Some? ==> r.email.value != "" && isEmail(r.email.value))
      && (r.phone.Some? ==> |r.phone.value| == 10 && forall i :: 0 <= i < 10 ==> IsDigit(r.phone.value[i]))
  {
  }

  /** The pristine form cannot be submitted. */
  lemma InitialFormCannotSubmit(isEmail: string -> bool, isSubmitting: bool, loading: bool)
    ensures !CanSubmit(InitialValues, isEmail, isSubmitting, loading)
  {
  }

  /** After the phone toggle the request carries no e-mail, whatever was
      typed before; after the e-mail toggle it carries no phone. */
  lemma ToggleDropsOtherIdentifier(v: LoginValues)
    ensures LoginData(ChoosePhone(v)) == LoginRequest(v.password, None, Some(v.phone))
    ensures LoginData(ChooseEmail(v)) == LoginRequest(v.password, Some(v.email), None)
  {
  }

  /** The status shown when the login request fails. */
  function FailureMessage(errorMessage: Option<string>, message: Option<string>): (m: string)
    ensures m != ""
    ensures Truthy(errorMessage) ==> m == errorMessage.value
    ensures !Truthy(errorMessage) && !Truthy(message) ==> m == "Login failed. Please try again."
  {
    SubmitFailureMessage(errorMessage, message, FallbackMessage)
  }
}
