/**
 * The registration form: its client-side checks run in a fixed order before the account is
 * requested, and the error and loading fields follow the request. The request itself and the
 * browser's own form validation are inputs to the model.
 */
module RegisterForm {
  import opened Common

  const MismatchError := "Passwords do not match"

  const ShortError := "Password must be at least 6 characters"

  const FailedError := "Failed to register"

  const MinPasswordLength := 6

  /** The call handed to the account service. */
  datatype Registration = Registration(email: string, password: string, displayName: string)

  /**
   * The checks of handleSubmit in their order: a mismatch is reported before a short password,
   * and a submission passes exactly when the two entries agree and are at least six long.
   */
  function RegistrationError(password: string, confirm: string): (e: Option<string>)
    ensures e.None? <==> password == confirm && |password| >= MinPasswordLength
    ensures password != confirm ==> e == Some(MismatchError)
    ensures password == confirm && |password| < MinPasswordLength ==> e == Some(ShortError)
  {
    if password != confirm then Some(MismatchError)
    else if |password| < MinPasswordLength then Some(ShortError)
    else None
  }

  class Form {
    var email: string
    var password: string
    var displayName: string
    var confirmPassword: string
    var error: string
    var loading: bool

    constructor ()
      ensures email == "" && password == "" && displayName == "" && confirmPassword == ""
      ensures error == "" && !loading
    {
      email, password, displayName, confirmPassword := "", "", "", "";
      error, loading := "", false;
    }

    /** The four inputs' change handlers. */
    method Edit(email': string, password': string, displayName': string, confirm': string)
      modifies this
      ensures email == email' && password == password' && displayName == displayName'
      ensures confirmPassword == confirm'
      ensures error == old(error) && loading == old(loading)
    {
      email, password, displayName, confirmPassword := email', password', displayName', confirm';
    }

    /**
     * handleSubmit up to the service call. `formValid` is the browser's verdict on the required
     * inputs; the button is disabled while loading. A failed check only sets the error; a passed
     * one clears it, starts loading and returns the call made.
     */
    method Submit(formValid: bool) returns (call: Option<Registration>)
      modifies this
      ensures email == old(email) && password == old(password)
      ensures displayName == old(displayName) && confirmPassword == old(confirmPassword)
      ensures !formValid || old(loading) ==> call.None? && error == old(error) && loading == old(loading)
      ensures formValid && !old(loading) && RegistrationError(password, confirmPassword).Some? ==>
        call.None? && error == RegistrationError(password, confirmPassword).value && !loading
      ensures call.Some? <==> formValid && !old(loading) && RegistrationError(password, confirmPassword).None?
      ensures call.Some? ==>
        call.value == Registration(email, password, displayName) && error == "" && loading
    {
      if !formValid || loading {
        return None;
      }
      var rejected := RegistrationError(password, confirmPassword);
      if rejected.Some? {
        error := rejected.value;
        return None;
      }
      error := "";
      loading := true;
      call := Some(Registration(email, password, displayName));
    }

    /**
     * handleSubmit after the service call: `failure` is what it threw, if anything. Success
     * navigates home; failure shows the message; loading ends either way.
     */
    method Finish(failure: Option<Thrown>) returns (navigateHome: bool)
      modifies this
      ensures navigateHome <==> failure.None?
      ensures failure.Some? ==> error == ErrorMessage(failure.value, FailedError)
      ensures failure.None? ==> error == old(error)
      ensures !loading
      ensures email == old(email) && password == old(password)
      ensures displayName == old(displayName) && confirmPassword == old(confirmPassword)
    {
      navigateHome := failure.None?;
      if failure.Some? {
        error := ErrorMessage(failure.value, FailedError);
      }
      loading := false;
    }
  }
}
