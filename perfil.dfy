/**
 * The profile page: the signed-in user's details and the password-change form,
 * whose checks run in order and stop before any API call.
 */
module Profile {
  import opened Wrappers
  import opened Builtins
  import opened Json
  import opened Effects
  import Api
  import Auth

  const MismatchMessage: string := "Las contraseñas no coinciden"
  const TooShortMessage: string := "La contraseña debe tener al menos 6 caracteres"
  const FailureFallback: string := "No se pudo cambiar la contraseña"
  const MinLength: nat := 6

  const ChangedToast := Toast("Contraseña actualizada", "Tu contraseña ha sido cambiada exitosamente", false)

  /** The client-side checks, in the order the handler runs them: the error the
      page reports, or `None` when the change may be sent. */
  function Validate(newPassword: string, confirmPassword: string): (r: Option<string>)
    ensures r.None? <==> newPassword == confirmPassword && |newPassword| >= MinLength
    ensures r.Some? ==> r.value == MismatchMessage || r.value == TooShortMessage
  {
    if newPassword != confirmPassword then Some(MismatchMessage)
    else if |newPassword| < MinLength then Some(TooShortMessage)
    else None
  }

  /** A mismatch is reported even when the password is also too short. */
  lemma MismatchReportedFirst(newPassword: string, confirmPassword: string)
    requires newPassword != confirmPassword
    ensures Validate(newPassword, confirmPassword) == Some(MismatchMessage)
  {
  }

  /** The length error is reported only for matching passwords. */
  lemma TooShortOnlyWhenMatching(newPassword: string, confirmPassword: string)
    ensures Validate(newPassword, confirmPassword) == Some(TooShortMessage) <==>
            newPassword == confirmPassword && |newPassword| < MinLength
  {
  }

  /** `user.email || "No registrado"`, and the same for the phone. */
  function ContactText(field: Option<string>): (r: string)
    ensures field.Some? && field.value != "" ==> r == field.value
    ensures field.None? || field.value == "" ==> r == "No registrado"
  {
    if field.Some? then OrElse(field.value, "No registrado") else "No registrado"
  }

  class ProfilePage {
    const user: Option<Auth.User>
    var oldPassword: string
    var newPassword: string
    var confirmPassword: string
    var isLoading: bool
    var trace: seq<Event>

    constructor (user: Option<Auth.User>)
      ensures this.user == user
      ensures oldPassword == "" && newPassword == "" && confirmPassword == ""
      ensures !isLoading && trace == []
    {
      this.user := user;
      oldPassword := "";
      newPassword := "";
      confirmPassword := "";
      isLoading := false;
      trace := [];
    }

    /** The page renders nothing without a signed-in user. */
    predicate Rendered()
      reads this
    {
      user.Some?
    }

    method SetOldPassword(value: string)
      modifies this`oldPassword
      ensures oldPassword == value
    {
      oldPassword := value;
    }

    method SetNewPassword(value: string)
      modifies this`newPassword
      ensures newPassword == value
    {
      newPassword := value;
    }

    method SetConfirmPassword(value: string)
      modifies this`confirmPassword
      ensures confirmPassword == value
    {
      confirmPassword := value;
    }

    /** `handlePasswordChange`: a failed check toasts its error and stops; otherwise
        the change is sent with the loading flag on, success clears the three
        fields, failure toasts the error, and loading ends either way. */
    method HandlePasswordChange(outcome: Result<Json, string>)
      modifies this`oldPassword, this`newPassword, this`confirmPassword, this`isLoading, this`trace
      ensures var check := Validate(old(newPassword), old(confirmPassword));
              check.Some? ==>
                trace == old(trace) + [Toasted(ErrorToast(check.value))]
                && oldPassword == old(oldPassword) && newPassword == old(newPassword)
                && confirmPassword == old(confirmPassword) && isLoading == old(isLoading)
      ensures var check := Validate(old(newPassword), old(confirmPassword));
              var sent := [LoadingSet(true), Called(Api.ChangePassword(old(oldPassword), old(newPassword)))];
              check.None? ==>
                !isLoading
                && (outcome.Ok? ==>
                      trace == old(trace) + sent + [Toasted(ChangedToast), LoadingSet(false)]
                      && oldPassword == "" && newPassword == "" && confirmPassword == "")
                && (outcome.Err? ==>
                      trace == old(trace) + sent + [Toasted(ErrorToast(OrElse(outcome.error, FailureFallback))), LoadingSet(false)]
                      && oldPassword == old(oldPassword) && newPassword == old(newPassword)
                      && confirmPassword == old(confirmPassword))
    {
      if newPassword != confirmPassword {
        trace := trace + [Toasted(ErrorToast(MismatchMessage))];
        return;
      }
      if |newPassword| < MinLength {
        trace := trace + [Toasted(ErrorToast(TooShortMessage))];
        return;
      }
      isLoading := true;
      trace := trace + [LoadingSet(true)];
      trace := trace + [Called(Api.ChangePassword(oldPassword, newPassword))];
      if outcome.Ok? {
        trace := trace + [Toasted(ChangedToast)];
        oldPassword := "";
        newPassword := "";
        confirmPassword := "";
      } else {
        trace := trace + [Toasted(ErrorToast(OrElse(outcome.error, FailureFallback)))];
      }
      isLoading := false;
      trace := trace + [LoadingSet(false)];
    }
  }

  /** The change request carries exactly the old and the new password. */
  lemma ChangeRequestBody(oldPassword: string, newPassword: string)
    ensures Api.Payload(Api.ChangePassword(oldPassword, newPassword))
            == Some(JObj([Member("old_password", JStr(oldPassword)), Member("new_password", JStr(newPassword))]))
    ensures !Api.IsPublic(Api.ChangePassword(oldPassword, newPassword))
  {
  }
}
