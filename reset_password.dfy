/** The password-reset dialog (src/components/ResetPassword.tsx): its
    schema, the request it sends, the submit button and what it does with a
    server error. */
module ResetPassword {
  import opened Wrappers
  import opened Validation

  datatype ResetValues = ResetValues(currentPassword: string, newPassword: string, confirmPassword: string)

  /** What `resetPassword` is given: the confirmation stays in the form. */
  datatype ResetRequest = ResetRequest(currentPassword: string, newPassword: string)

  const InitialValues := ResetValues("", "", "")
  const FallbackMessage := "Failed to reset password"
  const InvalidCredentials := "Invalid credentials"

  /** `ResetPasswordSchema`: a current password, a strong new password and
      a confirmation that repeats it. */
  function SchemaValid(v: ResetValues): (ok: bool)
    ensures ok <==> && v.currentPassword != ""
                    && StrongPassword(v.newPassword)
                    && v.confirmPassword == v.newPassword && v.newPassword != ""
  {
    && Required(v.currentPassword)
    && StrongPassword(v.newPassword)
    && Confirms(v.confirmPassword, v.newPassword)
  }

  function RequestOf(v: ResetValues): (r: ResetRequest)
    ensures r.currentPassword == v.currentPassword && r.newPassword == v.newPassword
  {
    ResetRequest(v.currentPassword, v.newPassword)
  }

  /** `disabled={loading || !formik.isValid || !formik.dirty}`. */
  function CanSubmit(v: ResetValues, loading: bool): (enabled: bool)
    ensures enabled <==> !loading && SchemaValid(v) && v != InitialValues
  {
    !(loading || !SchemaValid(v) || v == InitialValues)
  }

  /** What the dialog shows after a failed reset, and whether it schedules
      the move to the login page. */
  datatype FailureView = FailureView(message: string, redirectToLogin: bool)

  /** `err.error?.message || 'Failed to reset password'`; the redirect is
      scheduled only for "Invalid credentials". */
  function OnFailure(errorMessage: Option<string>): (v: FailureView)
    ensures v.message != ""
    ensures Truthy(errorMessage) ==> v.message == errorMessage.value
    ensures !Truthy(errorMessage) ==> v.message == FallbackMessage
    ensures v.redirectToLogin <==> errorMessage == Some(InvalidCredentials)
  {
    var m := OrElse(errorMessage, FallbackMessage);
    FailureView(m, m == InvalidCredentials)
  }

  /** A reset the button lets through sends a current password and a strong
      new password, and the two entries of the new password agreed. */
  lemma SubmittedResetIsWellFormed(v: ResetValues, loading: bool)
    requires CanSubmit(v, loading)
    ensures RequestOf(v).currentPassword != ""
    ensures StrongPassword(RequestOf(v).newPassword)
    ensures v.confirmPassword == RequestOf(v).newPassword
  {
  }
}
