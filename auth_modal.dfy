/**
 * The sign-in form (components/AuthModal.tsx): name, email and password
 * fields; the password field appears, and is required, only for the
 * administrator address.
 */
module AuthModal {
  import opened Wrappers
  import opened Types
  import Text
  import Shop

  class LoginForm {
    var name: string
    var email: string
    var password: string

    constructor ()
      ensures name == "" && email == "" && password == ""
    {
      name, email, password := "", "", "";
    }

    /** The password field is shown, and required, only for the administrator address in any case. */
    predicate ShowsPasswordField()
      reads this
    {
      Shop.IsAdminEmail(email)
    }

    method SetName(v: string)
      modifies this`name
      ensures name == v
    {
      name := v;
    }

    method SetEmail(v: string)
      modifies this`email
      ensures email == v
      ensures ShowsPasswordField() <==> Text.Lower(v) == Shop.AdminEmail
    {
      email := v;
    }

    method SetPassword(v: string)
      modifies this`password
      ensures password == v
    {
      password := v;
    }

    /**
     * `handleSubmit`: sign-in is attempted only with a name and an email; the
     * form closes only when the sign-in succeeds, and a refused administrator
     * sign-in leaves it open and the session as it was. For any other address
     * the typed password plays no part.
     */
    method Submit(app: Shop.App, freshId: string)
      modifies app`user, app`currentView, app`isAuthModalOpen
      ensures name == "" || email == "" ==>
        app.user == old(app.user) && app.currentView == old(app.currentView)
        && app.isAuthModalOpen == old(app.isAuthModalOpen)
      ensures name != "" && email != "" && !Shop.IsAdminEmail(email) ==>
        && app.user == Some(User(freshId, Text.Lower(email), name, Some(Shop.AvatarPrefix + name), Some(false), None))
        && app.currentView == old(app.currentView)
        && !app.isAuthModalOpen
      ensures name != "" && email != "" && Shop.IsAdminEmail(email) ==>
        if password == Shop.AdminPasswordInEffect(app.settings) then
          && app.user == Some(User("admin-id", Shop.AdminEmail, name, Some(Shop.AdminAvatar), Some(true), None))
          && app.currentView == Shop.AdminView && app.ShowsAdminPanel()
          && !app.isAuthModalOpen
        else
          && app.user == old(app.user) && app.currentView == old(app.currentView)
          && app.isAuthModalOpen == old(app.isAuthModalOpen)
      ensures Shop.IsAdminEmail(email) && password == "" ==>
        app.user == old(app.user) && app.isAuthModalOpen == old(app.isAuthModalOpen)
    {
      if email != "" && name != "" {
        var success := app.Login(name, email, Some(password), freshId);
        if success {
          app.CloseAuthModal();
        }
      }
    }
  }
}
