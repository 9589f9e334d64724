/** The dialog shown after a password-recovery link
    (components/UpdatePasswordModal.tsx): a length check, then the update call
    with its loading, error and success banners. The update is a parameter:
    the message it threw, or `None` when it succeeded. */
module UpdatePasswordState {
  import opened AnimeTypes

  const MinPasswordLength: nat := 6
  const TooShortMessage: string := "Password should be at least 6 characters."
  const UpdatedMessage: string := "Your password has been updated successfully! You can now close this window."

  class UpdatePasswordModal {
    var password: string
    var error: Option<string>
    var isLoading: bool
    var successMessage: Option<string>

    constructor ()
      ensures password == "" && error == None && !isLoading && successMessage == None
    {
      password := "";
      error := None;
      isLoading := false;
      successMessage := None;
    }

    function CurrentStatus(): FormStatus
      reads this
    {
      FormStatus(error, isLoading, successMessage)
    }

    /** The password input is disabled once the update went through. */
    predicate InputDisabled()
      reads this
    {
      successMessage.Some?
    }

    predicate SubmitDisabled()
      reads this
    {
      isLoading || successMessage.Some?
    }

    /** `handleSubmit`. A password shorter than six characters only sets the
        error: the update is not called and nothing else changes. Otherwise the
        dialog shows the loading state with no banners while the update runs
        (`waiting`), and afterwards shows either the confirmation, which
        disables the form, or the thrown message. */
    method HandleSubmit(update: string -> Option<string>) returns (called: bool, waiting: Option<FormStatus>)
      modifies this
      ensures password == old(password)
      ensures called <==> |password| >= MinPasswordLength
      ensures waiting.Some? <==> called
      ensures !called ==> error == Some(TooShortMessage) && isLoading == old(isLoading)
                          && successMessage == old(successMessage)
      ensures called ==> waiting.value == FormStatus(None, true, None) && !isLoading
      ensures called && update(password).None? ==>
                error == None && successMessage == Some(UpdatedMessage) && InputDisabled() && SubmitDisabled()
      ensures called && update(password).Some? ==> error == update(password) && successMessage == None
    {
      if |password| < MinPasswordLength {
        error := Some(TooShortMessage);
        return false, None;
      }
      isLoading := true;
      error := None;
      successMessage := None;
      waiting := Some(CurrentStatus());
      called := true;
      var thrown := update(password);
      if thrown.None? {
        successMessage := Some(UpdatedMessage);
      } else {
        error := thrown;
      }
      isLoading := false;
    }
  }
}
