/** The registration form: the checks run before the account is created,
    in the order the page runs them, and the submit handler around the
    sign-up call. The sign-up call itself is remote; its outcome is a
    parameter. */
module RegisterPage {
  import opened Wrappers
  import opened JsText

  const MismatchMessage := "Passwords do not match"
  const ShortPasswordMessage := "Password must be at least 6 characters"
  const NamesMessage := "First and last name are required"
  const MinPasswordLength := 6

  /** The first failing check, or None when the form may be submitted.
      Password length counts characters. */
  function FirstError(firstName: string, lastName: string, password: string, confirmPassword: string): (r: Option<string>)
    ensures password != confirmPassword ==> r == Some(MismatchMessage)
    ensures password == confirmPassword && |password| < MinPasswordLength ==> r == Some(ShortPasswordMessage)
    ensures password == confirmPassword && |password| >= MinPasswordLength && (Blank(firstName) || Blank(lastName)) ==>
      r == Some(NamesMessage)
  {
    TrimEmptyIffBlank(firstName);
    TrimEmptyIffBlank(lastName);
    if password != confirmPassword then Some(MismatchMessage)
    else if |password| < MinPasswordLength then Some(ShortPasswordMessage)
    else if Trim(firstName) == "" || Trim(lastName) == "" then Some(NamesMessage)
    else None
  }

  /** The form passes exactly when the passwords agree, the password has at
      least six characters and both names have a non-blank character. */
  lemma FirstErrorNoneIff(firstName: string, lastName: string, password: string, confirmPassword: string)
    ensures FirstError(firstName, lastName, password, confirmPassword).None? <==>
      password == confirmPassword && |password| >= MinPasswordLength && !Blank(firstName) && !Blank(lastName)
  {
    TrimEmptyIffBlank(firstName);
    TrimEmptyIffBlank(lastName);
  }

  /** A mismatch hides every later problem: a short password or blank names
      are not reported while the passwords differ. */
  lemma MismatchFirst(firstName: string, lastName: string, password: string, confirmPassword: string)
    requires password != confirmPassword
    ensures FirstError(firstName, lastName, password, confirmPassword) == FirstError("", "", password, confirmPassword)
  {
  }

  class Register {
    var firstName: string
    var lastName: string
    var email: string
    var password: string
    var confirmPassword: string
    var error: Option<string>
    var loading: bool

    constructor ()
      ensures firstName == lastName == email == password == confirmPassword == ""
      ensures error == None && !loading
    {
      firstName, lastName, email, password, confirmPassword := "", "", "", "", "";
      error := None;
      loading := false;
    }

    /** `handleSubmit`; `signError` is the error the sign-up call would
        report. The old error is cleared first, so it never survives. */
    method HandleSubmit(signError: Option<string>) returns (signUpCalled: bool, navigatedHome: bool)
      modifies this
      ensures signUpCalled <==> FirstError(firstName, lastName, password, confirmPassword).None?
      ensures !signUpCalled ==> error == FirstError(firstName, lastName, password, confirmPassword) && !navigatedHome
      ensures signUpCalled ==> error == signError && (navigatedHome <==> signError.None?)
      ensures !loading <==> !old(loading) || signUpCalled
      ensures firstName == old(firstName) && lastName == old(lastName) && email == old(email)
      ensures password == old(password) && confirmPassword == old(confirmPassword)
    {
      TrimEmptyIffBlank(firstName);
      TrimEmptyIffBlank(lastName);
      error := None;
      signUpCalled, navigatedHome := false, false;
      if password != confirmPassword {
        error := Some(MismatchMessage);
        return;
      }
      if |password| < MinPasswordLength {
        error := Some(ShortPasswordMessage);
        return;
      }
      if Trim(firstName) == "" || Trim(lastName) == "" {
        error := Some(NamesMessage);
        return;
      }
      loading := true;
      signUpCalled := true;
      loading := false;
      if signError.Some? {
        error := signError;
      } else {
        navigatedHome := true;
      }
    }
  }
}
