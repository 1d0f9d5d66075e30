/** The password-reset form's submit handler. */
module ResetPassword {
  import opened Wrappers
  import Signup

  const LOGIN_ROUTE: string := "/login"

  class ResetPasswordForm {
    var error: string
    var isLoading: bool
    var success: bool

    constructor ()
      ensures error == "" && !isLoading && !success
    {
      error := "";
      isLoading := false;
      success := false;
    }

    /**
     * One submit, with the same guards as the sign-up form. `updateError` is
     * the message of the error object the update call returns, if any; the
     * results are the password update requested and the redirect it schedules.
     */
    method HandleSubmit(password: string, confirm: string, updateError: Option<string>)
      returns (update: Option<string>, redirect: Option<string>)
      modifies this
      ensures Signup.PasswordError(password, confirm).Some? ==>
        update == None && redirect == None && error == Signup.PasswordError(password, confirm).value &&
        isLoading == old(isLoading) && success == old(success)
      ensures Signup.PasswordError(password, confirm).None? ==> update == Some(password) && !isLoading
      ensures Signup.PasswordError(password, confirm).None? && updateError.Some? ==>
        error == updateError.value && redirect == None && success == old(success)
      ensures Signup.PasswordError(password, confirm).None? && updateError.None? ==>
        error == "" && success && redirect == Some(LOGIN_ROUTE)
    {
      error := "";
      redirect := None;
      var check := Signup.PasswordError(password, confirm);
      if check.Some? {
        error := check.value;
        update := None;
        return;
      }
      isLoading := true;
      update := Some(password);
      isLoading := false;
      if updateError.Some? {
        error := updateError.value;
      } else {
        success := true;
        redirect := Some(LOGIN_ROUTE);
      }
    }
  }
}
