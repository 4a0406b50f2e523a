/** The settings page (src/pages/SettingsPage.tsx): the language choice and the account deletion dialog. */
module SettingsPage {
  import opened JsValues
  import opened Types

  /** `confirmEmail !== currentUser.email` fails: the typed address is exactly the user's. */
  predicate EmailConfirmed(confirmEmail: string, user: User) {
    Some(confirmEmail) == user.email
  }

  /** The delete button's `disabled`: a mismatching address, or a deletion under way. */
  function DeleteButtonDisabled(confirmEmail: string, user: User, isDeleting: bool): (r: bool)
    ensures r <==> !EmailConfirmed(confirmEmail, user) || isDeleting
  {
    Some(confirmEmail) != user.email || isDeleting
  }

  /** A user with no address on record can never enable the button. */
  lemma NoEmailNeverConfirms(confirmEmail: string, user: User, isDeleting: bool)
    requires user.email.None?
    ensures DeleteButtonDisabled(confirmEmail, user, isDeleting)
  {
  }

  class SettingsPage {
    const currentUser: Option<User>
    var language: Language
    var isDialogOpen: bool
    var confirmEmail: string
    var isDeleting: bool

    constructor (currentUser: Option<User>)
      ensures this.currentUser == currentUser
      ensures language == ENGLISH && !isDialogOpen && confirmEmail == "" && !isDeleting
    {
      this.currentUser := currentUser;
      language := ENGLISH;
      isDialogOpen := false;
      confirmEmail := "";
      isDeleting := false;
    }

    /** `handleLanguageChange(value)`: only the page's own language field changes. */
    method HandleLanguageChange(value: Language)
      modifies this
      ensures language == value
      ensures isDialogOpen == old(isDialogOpen) && confirmEmail == old(confirmEmail) && isDeleting == old(isDeleting)
    {
      language := value;
    }

    method SetConfirmEmail(v: string)
      modifies this
      ensures confirmEmail == v
      ensures language == old(language) && isDialogOpen == old(isDialogOpen) && isDeleting == old(isDeleting)
    {
      confirmEmail := v;
    }

    method SetDialogOpen(v: bool)
      modifies this
      ensures isDialogOpen == v
      ensures language == old(language) && confirmEmail == old(confirmEmail) && isDeleting == old(isDeleting)
    {
      isDialogOpen := v;
    }

    /**
     * `handleDeleteAccount`: without a user, or when the typed address does not match, nothing
     * changes (the mismatch returns before the `try`). Otherwise the deletion is attempted, a
     * sign-out follows a successful one, and afterwards the flag is down and the dialog closed.
     */
    method HandleDeleteAccount(deleteOk: bool) returns (attempted: bool, signOutRequested: bool)
      modifies this
      ensures attempted <==> currentUser.Some? && EmailConfirmed(old(confirmEmail), currentUser.value)
      ensures signOutRequested <==> attempted && deleteOk
      ensures !attempted ==> isDialogOpen == old(isDialogOpen) && isDeleting == old(isDeleting)
      ensures attempted ==> !isDialogOpen && !isDeleting
      ensures language == old(language) && confirmEmail == old(confirmEmail)
    {
      attempted, signOutRequested := false, false;
      if currentUser.None? {
        return;
      }
      if Some(confirmEmail) != currentUser.value.email {
        return;
      }
      attempted := true;
      isDeleting := true;
      signOutRequested := deleteOk;
      isDeleting := false;
      isDialogOpen := false;
    }
  }

  /** When the button is enabled, pressing it does attempt the deletion. */
  lemma EnabledButtonAttempts(confirmEmail: string, user: User, isDeleting: bool)
    requires !DeleteButtonDisabled(confirmEmail, user, isDeleting)
    ensures EmailConfirmed(confirmEmail, user) && !isDeleting
  {
  }
}
