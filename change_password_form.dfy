/** The password form of the account page
    (`components/account/ChangePasswordForm.tsx`): checks the two new
    passwords locally, posts the three fields, and shows the outcome. */
module ChangePasswordForm {
  import opened Common
  import PasswordRoute
  import Store

  /** What came of the request: an answer, with `ok` and the body's `error`
      field, or an exception with its message (a network failure, or a body
      that is not JSON). */
  datatype FetchOutcome = Answered(ok: bool, error: Option<string>) | Threw(message: string)

  const FallbackError: string := "Failed to change password"

  /** The error shown after a failed request: the route's `error`, else the
      exception's message, else the fallback text. */
  function FailureText(o: FetchOutcome): (t: string)
    requires !(o.Answered? && o.ok)
    ensures o.Answered? && StrTruthy(o.error) ==> t == o.error.value
    ensures o.Answered? && !StrTruthy(o.error) ==> t == FallbackError
    ensures o.Threw? && o.message != "" ==> t == o.message
    ensures o.Threw? && o.message == "" ==> t == FallbackError
    ensures t != ""
  {
    if o.Answered? then StrOr(o.error, FallbackError)
    else if o.message != "" then o.message else FallbackError
  }

  /** The form's local rules, in their order: a mismatch is reported before
      the length. */
  function LocalError(newPassword: string, confirmPassword: string): (e: Option<string>)
    ensures newPassword != confirmPassword ==> e == Some("New passwords do not match")
    ensures newPassword == confirmPassword && Utf16Length(newPassword) < 8 ==>
      e == Some("Password must be at least 8 characters")
    ensures e.None? <==> newPassword == confirmPassword && Utf16Length(newPassword) >= 8
  {
    if newPassword != confirmPassword then Some("New passwords do not match")
    else if Utf16Length(newPassword) < 8 then Some("Password must be at least 8 characters")
    else None
  }

  /** A request the form sends meets the route's mismatch and length rules;
      with a non-empty current password it also has every field, so only the
      user lookup and the password check remain. */
  lemma SentRequestPassesRouteRules(currentPassword: string, newPassword: string, confirmPassword: string,
                                    id: int, users: map<int, Store.User>, verify: (string, string) -> bool)
    requires LocalError(newPassword, confirmPassword).None?
    requires currentPassword != ""
    ensures var body := PasswordRoute.PasswordRequest(Some(currentPassword), Some(newPassword), Some(confirmPassword));
            PasswordRoute.Decide(Some(id), Some(body), users, verify)
              !in {PasswordRoute.Unauthorized, PasswordRoute.FieldsRequired, PasswordRoute.PasswordsDiffer,
                   PasswordRoute.TooShort, PasswordRoute.InternalError}
  {
    assert Utf16Length(newPassword) >= 8;
  }

  class Form {
    var currentPassword: string
    var newPassword: string
    var confirmPassword: string
    var loading: bool
    var error: Option<string>
    var success: Option<string>

    constructor ()
      ensures currentPassword == newPassword == confirmPassword == ""
      ensures !loading && error.None? && success.None?
    {
      currentPassword, newPassword, confirmPassword := "", "", "";
      loading := false;
      error, success := None, None;
    }

    /** `handleSubmit`. The request is sent only when the local rules pass;
        `outcome` is what came of it. */
    method HandleSubmit(outcome: FetchOutcome) returns (sent: Option<PasswordRoute.PasswordRequest>)
      modifies this
      ensures LocalError(old(newPassword), old(confirmPassword)).Some? ==>
        && sent.None?
        && error == LocalError(old(newPassword), old(confirmPassword)) && success.None?
        && currentPassword == old(currentPassword) && newPassword == old(newPassword)
        && confirmPassword == old(confirmPassword) && loading == old(loading)
      ensures LocalError(old(newPassword), old(confirmPassword)).None? ==>
        && sent == Some(PasswordRoute.PasswordRequest(Some(old(currentPassword)), Some(old(newPassword)), Some(old(confirmPassword))))
        && !loading
      ensures LocalError(old(newPassword), old(confirmPassword)).None? && outcome.Answered? && outcome.ok ==>
        && success == Some("Password updated successfully") && error.None?
        && currentPassword == newPassword == confirmPassword == ""
      ensures LocalError(old(newPassword), old(confirmPassword)).None? && !(outcome.Answered? && outcome.ok) ==>
        && error == Some(FailureText(outcome)) && success.None?
        && currentPassword == old(currentPassword) && newPassword == old(newPassword)
        && confirmPassword == old(confirmPassword)
    {
      error := None;
      success := None;
      if newPassword != confirmPassword {
        error := Some("New passwords do not match");
        return None;
      }
      if Utf16Length(newPassword) < 8 {
        error := Some("Password must be at least 8 characters");
        return None;
      }
      loading := true;
      sent := Some(PasswordRoute.PasswordRequest(Some(currentPassword), Some(newPassword), Some(confirmPassword)));
      if outcome.Answered? && outcome.ok {
        success := Some("Password updated successfully");
        currentPassword := "";
        newPassword := "";
        confirmPassword := "";
      } else {
        error := Some(FailureText(outcome));
      }
      loading := false;
    }
  }
}
