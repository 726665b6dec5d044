/**
 * The change-password dialog: a three-field form checked locally (the two
 * new passwords agree, then the new one is long enough) before the auth
 * context's `changePassword` is called.
 */
module ChangePassword {
  import opened Common
  import Auth

  const MismatchMessage := "New passwords do not match"
  const TooShortMessage := "Password must be at least 6 characters long"
  const MinLength := 6

  datatype Field = CurrentPassword | NewPassword | ConfirmPassword

  datatype Form = Form(currentPassword: string, newPassword: string, confirmPassword: string)

  const EmptyForm := Form("", "", "")

  /** `{...prev, [name]: value}`: the named field takes the value, the other two stay. */
  function Updated(f: Form, name: Field, value: string): (r: Form)
    ensures r.currentPassword == if name == CurrentPassword then value else f.currentPassword
    ensures r.newPassword == if name == NewPassword then value else f.newPassword
    ensures r.confirmPassword == if name == ConfirmPassword then value else f.confirmPassword
  {
    match name
    case CurrentPassword => f.(currentPassword := value)
    case NewPassword => f.(newPassword := value)
    case ConfirmPassword => f.(confirmPassword := value)
  }

  /** The local checks in the order `handleSubmit` runs them: the message of the first that fails. */
  function Validate(f: Form): (r: Option<string>)
    ensures r == Some(MismatchMessage) <==> f.newPassword != f.confirmPassword
    ensures r == Some(TooShortMessage) <==> f.newPassword == f.confirmPassword && |f.newPassword| < MinLength
    ensures r.None? <==> f.newPassword == f.confirmPassword && |f.newPassword| >= MinLength
  {
    if f.newPassword != f.confirmPassword then Some(MismatchMessage)
    else if |f.newPassword| < MinLength then Some(TooShortMessage)
    else None
  }

  /** A mismatch is reported even when the new password is also too short. */
  lemma MismatchFirst(f: Form)
    requires f.newPassword != f.confirmPassword && |f.newPassword| < MinLength
    ensures Validate(f) == Some(MismatchMessage) && Validate(f) != Some(TooShortMessage)
  {
  }

  /** Setting both new-password fields to the same text of six or more characters passes the checks. */
  lemma TypedFormPasses(f: Form, current: string, password: string)
    requires |password| >= MinLength
    ensures var g := Updated(Updated(Updated(f, CurrentPassword, current), NewPassword, password), ConfirmPassword, password);
      Validate(g).None? && g == Form(current, password, password)
  {
  }

  class ChangePasswordDialog {
    var formData: Form
    var error: Option<string>
    var loading: bool
    /** Whether the dialog has called its `onClose` callback. */
    var closeRequested: bool

    constructor()
      ensures formData == EmptyForm && error == None && !loading && !closeRequested
    {
      formData, error, loading, closeRequested := EmptyForm, None, false, false;
    }

    /** Typing into a field. */
    method HandleChange(name: Field, value: string)
      modifies this
      ensures formData == Updated(old(formData), name, value) && error == None
      ensures loading == old(loading) && closeRequested == old(closeRequested)
    {
      formData := Updated(formData, name, value);
      error := None;
    }

    /**
     * Submitting the form. `called` is the result of `changePassword`, or
     * None when a local check failed and it was not called. Success closes
     * the dialog; a failure shows the thrown message; loading ends false.
     */
    method HandleSubmit(auth: Auth.AuthProvider) returns (called: Option<Result<(), Auth.AuthError>>)
      modifies this, auth
      ensures formData == old(formData)
      ensures called.None? <==> Validate(old(formData)).Some?
      ensures called.None? ==>
        error == Validate(old(formData)) && loading == old(loading)
        && closeRequested == old(closeRequested) && unchanged(auth)
      ensures called.Some? ==> !loading && auth.Persisted()
      ensures called.Some? ==>
        (called.value.Ok? <==>
           (old(auth.user).Some? &&
            exists i :: 0 <= i < |old(auth.registeredUsers)| &&
              Auth.HasCredentials(old(auth.user).value.email, old(formData).currentPassword, old(auth.registeredUsers)[i])))
      ensures called == Some(Ok(())) ==>
        error == None && closeRequested && old(auth.user).Some?
        && auth.registeredUsers
           == Auth.WithPassword(old(auth.registeredUsers), old(auth.user).value.email, old(formData).newPassword)
        && auth.user == Some(old(auth.user).value.(isTempPassword := Some(false)))
      ensures called.Some? && called.value.Err? ==>
        error == Some(Auth.Message(called.value.error)) && closeRequested == old(closeRequested)
        && auth.registeredUsers == old(auth.registeredUsers) && auth.user == old(auth.user)
      ensures called.Some? && called.value.Err? ==>
        (called.value.error == Auth.NoUserLoggedIn <==> old(auth.user).None?)
    {
      error := None;
      var invalid := Validate(formData);
      if invalid.Some? {
        error := invalid;
        return None;
      }
      loading := true;
      var r := auth.ChangePassword(formData.currentPassword, formData.newPassword);
      if r.Ok? {
        closeRequested := true;
      } else {
        error := Some(Auth.Message(r.error));
      }
      loading := false;
      called := Some(r);
    }
  }
}
