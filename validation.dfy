/** The string rules the forms' schemas are built from: `required`,
    `min(n)`, the phone pattern `/^\d{10}$/`, and the password-strength
    patterns `/[A-Z]/`, `/[a-z]/`, `/[0-9]/`, `/[!@#$%^&*]/`. A pattern
    without anchors matches when some character of the string is in its
    class; JavaScript's `\d` is the ASCII digits. */
module Validation {
  import opened Wrappers
  import opened Text

  /** `.required()` on a string: present and not empty. */
  predicate Required(s: string) { s != "" }

  /** `.min(n)` together with `.required()`. */
  predicate MinLength(s: string, n: nat) { s != "" && |s| >= n }

  /** An unanchored one-class pattern: scans for a character of the class. */
  function SomeChar(s: string, inClass: char -> bool): (found: bool)
    ensures found <==> exists i :: 0 <= i < |s| && inClass(s[i])
  {
    if s == [] then false
    else if inClass(s[0]) then true
    else
      assert forall i :: 1 <= i < |s| ==> s[i] == s[1..][i - 1];
      SomeChar(s[1..], inClass)
  }

  /** `/^\d{10}$/`: the anchors make the whole string ten digits. */
  function TenDigits(s: string): (ok: bool)
    ensures ok <==> |s| == 10 && forall i :: 0 <= i < |s| ==> IsDigit(s[i])
  {
    |s| == 10 && !SomeChar(s, c => !IsDigit(c))
  }

  /** The password rule of the signup and reset forms. */
  predicate StrongPassword(p: string)
  {
    && MinLength(p, 8)
    && SomeChar(p, IsUpper)
    && SomeChar(p, IsLower)
    && SomeChar(p, IsDigit)
    && SomeChar(p, IsSpecial)
  }

  /** `.oneOf([Yup.ref(other), null]).required()`. */
  predicate Confirms(confirm: string, other: string)
  {
    confirm != "" && confirm == other
  }

  /** Formik's submit button: `disabled={isSubmitting || !isValid || !dirty || loading}`. */
  function SubmitDisabled(isSubmitting: bool, isValid: bool, dirty: bool, loading: bool): (disabled: bool)
    ensures !disabled ==> isValid && dirty
    ensures !disabled <==> !isSubmitting && isValid && dirty && !loading
  {
    isSubmitting || !isValid || !dirty || loading
  }

  /** The status message of a failed submit, shared by the login and signup
      forms: `err?.error?.message || err?.message || fallback`, where each
      form passes its own fixed fallback text. */
  function SubmitFailureMessage(errorMessage: Option<string>, message: Option<string>, fallback: string): (m: string)
    ensures Truthy(errorMessage) ==> m == errorMessage.value
    ensures !Truthy(errorMessage) && Truthy(message) ==> m == message.value
    ensures !Truthy(errorMessage) && !Truthy(message) ==> m == fallback
    ensures m != "" <==> Truthy(errorMessage) || Truthy(message) || fallback != ""
  {
    OrElse(errorMessage, OrElse(message, fallback))
  }

  /** The strength rule in terms of the characters of the password. */
  lemma StrongPasswordIff(p: string)
    ensures StrongPassword(p) <==>
      && |p| >= 8
      && (exists i :: 0 <= i < |p| && IsUpper(p[i]))
      && (exists i :: 0 <= i < |p| && IsLower(p[i]))
      && (exists i :: 0 <= i < |p| && IsDigit(p[i]))
      && (exists i :: 0 <= i < |p| && IsSpecial(p[i]))
  {
  }

  /** The rule can be met, and each of its classes is needed. */
  lemma StrongPasswordExamples()
    ensures StrongPassword("Passw0rd!")
    ensures !StrongPassword("passw0rd!")
    ensures !StrongPassword("Pw0!")
  {
    var p := "Passw0rd!";
    assert IsUpper(p[0]) && IsLower(p[1]) && IsDigit(p[5]) && IsSpecial(p[8]);
    var q := "passw0rd!";
    assert forall i :: 0 <= i < |q| ==> !IsUpper(q[i]);
  }
}
