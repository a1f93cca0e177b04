/** The settings page: the profile form with its password confirmation. */
module Settings {
  import opened Types
  import App

  /** What the form asks the root to apply: the name, and a password only when one was typed.
      `None` when a typed password does not match its confirmation. */
  function ProfileUpdate(name: string, password: string, confirm: string): (r: Option<(string, Option<string>)>)
    ensures r.None? <==> password != "" && password != confirm
    ensures r.Some? ==> r.value.0 == name
    ensures r.Some? ==> (r.value.1.None? <==> password == "")
    ensures r.Some? && password != "" ==> r.value.1 == Some(confirm)
  {
    if password != "" && password != confirm then None
    else Some((name, if password == "" then None else Some(password)))
  }

  /** Applied to the profile, an accepted update sets the name, and the password only when a
      matching one was typed; the email, id and role never change. */
  lemma UpdateEffect(u: User, name: string, password: string, confirm: string)
    requires ProfileUpdate(name, password, confirm).Some?
    ensures var (n, pw) := ProfileUpdate(name, password, confirm).value;
      var u' := App.ProfileEdit(u, n, pw);
      && u'.name == name && u'.id == u.id && u'.email == u.email && u'.role == u.role
      && u'.password == (if password == "" then u.password else Some(password))
  {
  }

  /** The form fields, starting from the current user's name. */
  class SettingsForm {
    var name: string
    var password: string
    var confirmPassword: string

    constructor (currentUser: User)
      ensures name == currentUser.name && password == "" && confirmPassword == ""
    {
      name := currentUser.name;
      password := "";
      confirmPassword := "";
    }

    /** `handleSubmit`: a mismatch is refused and the fields are kept; otherwise the update is
        returned and both password fields are cleared. */
    method Submit() returns (update: Option<(string, Option<string>)>)
      modifies this`password, this`confirmPassword
      ensures update == ProfileUpdate(name, old(password), old(confirmPassword))
      ensures update.Some? ==> password == "" && confirmPassword == ""
      ensures update.None? ==> password == old(password) && confirmPassword == old(confirmPassword)
    {
      if password != "" && password != confirmPassword {
        return None;
      }
      update := Some((name, if password == "" then None else Some(password)));
      password := "";
      confirmPassword := "";
    }
  }
}
