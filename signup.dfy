/** The signup form (src/components/Signup.tsx): its schema, the submit
    button, and the fallback text of its failure message
    (`Validation.SubmitFailureMessage`). Yup's `.email()` test is given as the
    predicate `isEmail`. */
module Signup {
  import opened Wrappers
  import opened Text
  import opened Validation
  import Login

  datatype SignupValues = SignupValues(name: string, email: string, phone: string, password: string, confirmPassword: string)

  const InitialValues := SignupValues("", "", "", "", "")
  const FallbackMessage := "Signup failed. Please try again."

  /** `validationSchema`: every field is required; the e-mail passes
      `.email()`, the phone is ten digits, the password is strong and the
      confirmation repeats it. */
  function SchemaValid(v: SignupValues, isEmail: string -> bool): (ok: bool)
    ensures ok <==> && v.name != ""
                    && v.email != "" && isEmail(v.email)
                    && |v.phone| == 10 && (forall i :: 0 <= i < 10 ==> IsDigit(v.phone[i]))
                    && StrongPassword(v.password)
                    && v.confirmPassword == v.password && v.password != ""
  {
    && Required(v.name)
    && Required(v.email) && isEmail(v.email)
    && TenDigits(v.phone)
    && StrongPassword(v.password)
    && Confirms(v.confirmPassword, v.password)
  }

  /** `disabled={isSubmitting || !isValid || !dirty || loading}`. */
  function CanSubmit(v: SignupValues, isEmail: string -> bool, isSubmitting: bool, loading: bool): (enabled: bool)
    ensures enabled <==> !isSubmitting && !loading && SchemaValid(v, isEmail) && v != InitialValues
  {
    !SubmitDisabled(isSubmitting, SchemaValid(v, isEmail), v != InitialValues, loading)
  }

  /** A signup the button lets through: a named account, a ten-digit phone,
      a strong password and a matching confirmation. */
  lemma SubmittedSignupIsWellFormed(v: SignupValues, isEmail: string -> bool, isSubmitting: bool, loading: bool)
    requires CanSubmit(v, isEmail, isSubmitting, loading)
    ensures v.name != "" && v.email != "" && isEmail(v.email)
    ensures |v.phone| == 10 && forall i :: 0 <= i < 10 ==> IsDigit(v.phone[i])
    ensures |v.password| >= 8 && v.confirmPassword == v.password
    ensures StrongPassword(v.password)
    ensures exists i :: 0 <= i < |v.password| && IsUpper(v.password[i])
    ensures exists i :: 0 <= i < |v.password| && IsLower(v.password[i])
    ensures exists i :: 0 <= i < |v.password| && IsDigit(v.password[i])
    ensures exists i :: 0 <= i < |v.password| && IsSpecial(v.password[i])
  {
  }

  /** Credentials the signup form accepts pass the login form's schema, by
      e-mail and by phone. */
  lemma SignupCredentialsPassLogin(v: SignupValues, isEmail: string -> bool)
    requires SchemaValid(v, isEmail)
    ensures Login.SchemaValid(Login.LoginValues("email", v.email, "", v.password), isEmail)
    ensures Login.SchemaValid(Login.LoginValues("phone", "", v.phone, v.password), isEmail)
  {
  }

  /** The status shown when the signup request fails. */
  function FailureMessage(errorMessage: Option<string>, message: Option<string>): (m: string)
    ensures m != ""
    ensures Truthy(errorMessage) ==> m == errorMessage.value
    ensures !Truthy(errorMessage) && !Truthy(message) ==> m == "Signup failed. Please try again."
  {
    SubmitFailureMessage(errorMessage, message, FallbackMessage)
  }
}
