/** The password change dialog: it checks the new password against its confirmation and its
    length before handing the pair to the settings screen. */
module PasswordChangeModal {
  import opened Maybe

  const MismatchMessage := "Passwords do not match"
  const TooShortMessage := "Password is too short"

  /** The error `handleSave` shows for the entered passwords, `None` when they pass. */
  function Validate(newPassword: string, confirmPassword: string): (r: Option<string>)
    ensures newPassword != confirmPassword ==> r == Some(MismatchMessage)
    ensures newPassword == confirmPassword && |newPassword| < 6 ==> r == Some(TooShortMessage)
    ensures r.None? <==> newPassword == confirmPassword && |newPassword| >= 6
  {
    if newPassword != confirmPassword then Some(MismatchMessage)
    else if |newPassword| < 6 then Some(TooShortMessage)
    else None
  }

  /** The mismatch is reported even when the password is also too short. */
  lemma MismatchTakesPrecedence(newPassword: string, confirmPassword: string)
    requires newPassword != confirmPassword && |newPassword| < 6
    ensures Validate(newPassword, confirmPassword) == Some(MismatchMessage)
  {
  }

  class Modal {
    var currentPassword: string
    var newPassword: string
    var confirmPassword: string
    var passwordError: Option<string>

    constructor ()
      ensures currentPassword == "" && newPassword == "" && confirmPassword == "" && passwordError.None?
    {
      currentPassword := "";
      newPassword := "";
      confirmPassword := "";
      passwordError := None;
    }

    /** `handleSave()`: `call` is the `onSave` invocation, made once with the entered current
        and new passwords when the checks pass. A failed check sets the error instead; a
        passing one leaves an earlier error in place. */
    method HandleSave() returns (call: Option<(string, string)>)
      modifies this
      ensures call.None? <==> Validate(newPassword, confirmPassword).Some?
      ensures call.Some? ==> call.value == (currentPassword, newPassword) && passwordError == old(passwordError)
      ensures call.None? ==> passwordError == Validate(newPassword, confirmPassword)
      ensures currentPassword == old(currentPassword) && newPassword == old(newPassword)
      ensures confirmPassword == old(confirmPassword)
    {
      if newPassword != confirmPassword {
        passwordError := Some(MismatchMessage);
        return None;
      }
      if |newPassword| < 6 {
        passwordError := Some(TooShortMessage);
        return None;
      }
      call := Some((currentPassword, newPassword));
    }
  }
}
