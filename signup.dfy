/** The sign-up form's submit handler: two password guards, then one sign-up request. */
module Signup {
  import opened Wrappers

  const MISMATCH: string := "Passwords do not match"
  const TOO_SHORT: string := "Password must be at least 6 characters"
  const MIN_PASSWORD_LENGTH: nat := 6

  /** The confirmation check runs before the length check. */
  function PasswordError(password: string, confirm: string): (r: Option<string>)
    ensures r == Some(MISMATCH) <==> password != confirm
    ensures r == Some(TOO_SHORT) <==> password == confirm && |password| < MIN_PASSWORD_LENGTH
    ensures r == None <==> password == confirm && |password| >= MIN_PASSWORD_LENGTH
  {
    assert MISMATCH[8] != TOO_SHORT[8];
    if password != confirm then Some(MISMATCH)
    else if |password| < MIN_PASSWORD_LENGTH then Some(TOO_SHORT)
    else None
  }

  /** A short password that also differs from its confirmation is reported as a mismatch. */
  lemma MismatchReportedFirst(password: string, confirm: string)
    requires password != confirm && |password| < MIN_PASSWORD_LENGTH
    ensures PasswordError(password, confirm) == Some(MISMATCH)
  {
  }

  /** `result.error` is truthy: present and not the empty string. */
  predicate Truthy(e: Option<string>) {
    e.Some? && e.value != ""
  }

  datatype SignupRequest = SignupRequest(email: string, password: string, fullName: string, phoneNumber: string)

  class SignupForm {
    var error: string
    var isLoading: bool
    var success: bool

    constructor ()
      ensures error == "" && !isLoading && !success
    {
      error := "";
      isLoading := false;
      success := false;
    }

    /**
     * One submit. `signupError` is what the external sign-up call reports;
     * the returned request is the call the handler makes, if it makes one.
     */
    method HandleSubmit(email: string, password: string, confirm: string, fullName: string, phoneNumber: string,
                        signupError: Option<string>) returns (request: Option<SignupRequest>)
      modifies this
      ensures PasswordError(password, confirm).Some? ==>
        request == None && error == PasswordError(password, confirm).value &&
        isLoading == old(isLoading) && success == old(success)
      ensures PasswordError(password, confirm).None? ==>
        request == Some(SignupRequest(email, password, fullName, phoneNumber)) && !isLoading
      ensures PasswordError(password, confirm).None? && Truthy(signupError) ==>
        error == signupError.value && success == old(success)
      ensures PasswordError(password, confirm).None? && !Truthy(signupError) ==>
        error == "" && success
    {
      error := "";
      var check := PasswordError(password, confirm);
      if check.Some? {
        error := check.value;
        request := None;
        return;
      }
      isLoading := true;
      request := Some(SignupRequest(email, password, fullName, phoneNumber));
      isLoading := false;
      if Truthy(signupError) {
        error := signupError.value;
      } else {
        success := true;
      }
    }
  }
}
