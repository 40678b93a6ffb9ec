/**
 * The password tab of the settings page: two client-side guards on the form,
 * then the session manager's password change, and the message and field
 * resets around it.
 */
module SettingsPage {
  import opened Wrappers
  import Session

  const Mismatch := "Les nouveaux mots de passe ne correspondent pas"
  const TooShort := "Le nouveau mot de passe doit contenir au moins 8 caractères"
  const Changed := "Mot de passe modifié avec succès"
  const ChangeFailed := "Erreur lors du changement de mot de passe"

  /** The form's guards, in order: the confirmation first, then the length. */
  function FormProblem(newPassword: string, confirmPassword: string): (r: Option<string>)
    ensures r.None? <==> newPassword == confirmPassword && |newPassword| >= 8
    ensures newPassword != confirmPassword ==> r == Some(Mismatch)
    ensures newPassword == confirmPassword && |newPassword| < 8 ==> r == Some(TooShort)
  {
    if newPassword != confirmPassword then Some(Mismatch)
    else if |newPassword| < 8 then Some(TooShort)
    else None
  }

  /** A mismatch is reported even when the new password is also too short. */
  lemma MismatchIsReportedFirst(newPassword: string, confirmPassword: string)
    requires |newPassword| < 8 && newPassword != confirmPassword
    ensures FormProblem(newPassword, confirmPassword) == Some(Mismatch)
  {
  }

  /** The message shown for a failed change: the error's text, or the default. */
  function FailureText(e: string): (r: string)
    ensures r != ""
    ensures e != "" ==> r == e
  {
    if e != "" then e else ChangeFailed
  }

  class PasswordTab {
    const auth: Session.SessionManager
    var oldPassword: string
    var newPassword: string
    var confirmPassword: string
    var error: string
    var success: string
    var isLoading: bool

    constructor (auth: Session.SessionManager)
      ensures this.auth == auth
      ensures oldPassword == "" && newPassword == "" && confirmPassword == ""
      ensures error == "" && success == "" && !isLoading
    {
      this.auth := auth;
      oldPassword, newPassword, confirmPassword := "", "", "";
      error, success, isLoading := "", "", false;
    }

    /** `handlePasswordChange`; the inputs are those the session manager's change needs. */
    method HandlePasswordChange(
      now: int, decode: string -> Session.Decoded,
      refreshReply: Session.Reply<string>, reply: Session.Reply<Option<string>>)
      modifies this, auth
      ensures var problem := FormProblem(old(newPassword), old(confirmPassword));
        problem.Some? ==>
          error == problem.value && success == "" && auth.Snap() == old(auth.Snap())
          && oldPassword == old(oldPassword) && newPassword == old(newPassword)
          && confirmPassword == old(confirmPassword) && isLoading == old(isLoading)
      ensures var change := Session.ChangePasswordStep(
          old(auth.Snap()), old(oldPassword), old(newPassword), now, decode, refreshReply, reply);
        FormProblem(old(newPassword), old(confirmPassword)).None? ==>
          && auth.Snap() == change.after
          && !isLoading
          && (change.result.Pass? ==>
                success == Changed && error == ""
                && oldPassword == "" && newPassword == "" && confirmPassword == "")
          && (change.result.Fail? ==>
                error == FailureText(change.result.error) && success == ""
                && oldPassword == old(oldPassword) && newPassword == old(newPassword)
                && confirmPassword == old(confirmPassword))
      ensures old(auth.Valid()) ==> auth.Valid()
    {
      error := "";
      success := "";
      if newPassword != confirmPassword {
        error := Mismatch;
        return;
      }
      if |newPassword| < 8 {
        error := TooShort;
        return;
      }
      isLoading := true;
      var outcome := auth.ChangePassword(oldPassword, newPassword, now, decode, refreshReply, reply);
      if outcome.Pass? {
        success := Changed;
        oldPassword := "";
        newPassword := "";
        confirmPassword := "";
      } else {
        error := FailureText(outcome.error);
      }
      isLoading := false;
    }
  }
}
