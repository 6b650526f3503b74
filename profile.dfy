/** The profile page: the token gate, the name and address it shows, and the
    password-change hand-off to the sign-in page through `localStorage`. */
module Profile {
  import opened Js
  import opened BrowserStorage
  import opened Identity
  import Auth

  const AuthPath := "/auth"

  class ProfilePage {
    var username: string
    var email: string
    var loading: bool
    const store: LocalStorage

    constructor (store: LocalStorage)
      ensures this.store == store && username == "" && email == "" && loading
    {
      this.store := store;
      username := "";
      email := "";
      loading := true;
    }

    /** The page's effect. Without a (non-empty) token it redirects and changes nothing,
        so the spinner stays; otherwise it fills the address from `useremail` when that
        is non-empty, the name from `username` or else the address's prefix, and stops
        loading. */
    method Init() returns (redirect: Option<string>)
      modifies this
      ensures !TruthyText(store.GetItem("token")) ==>
                redirect == Some(AuthPath) && username == old(username) && email == old(email) && loading == old(loading)
      ensures TruthyText(store.GetItem("token")) ==>
                && redirect.None? && !loading
                && email == (if TruthyText(store.GetItem("useremail")) then store.items["useremail"] else old(email))
                && username == DisplayName(store.GetItem("username"), store.GetItem("useremail"), old(username))
    {
      if !TruthyText(store.GetItem("token")) {
        return Some(AuthPath);
      }
      var storedEmail := store.GetItem("useremail");
      var storedUsername := store.GetItem("username");
      if TruthyText(storedEmail) {
        email := storedEmail.value;
      }
      if TruthyText(storedUsername) {
        username := storedUsername.value;
      } else if TruthyText(storedEmail) {
        username := EmailPrefix(storedEmail.value);
      }
      loading := false;
      redirect := None;
    }

    /** `handlePasswordChange`: leave the hand-off mark and go to the sign-in page. */
    method HandlePasswordChange() returns (redirect: Option<string>)
      modifies store
      ensures store.items == old(store.items)["authMode" := Auth.PasswordChangeMode]
      ensures redirect == Some(AuthPath)
      ensures username == old(username) && email == old(email) && loading == old(loading)
    {
      store.SetItem("authMode", Auth.PasswordChangeMode);
      redirect := Some(AuthPath);
    }
  }

  /** The hand-off is consumed exactly once: the sign-in page opened after
      `handlePasswordChange` shows the reset form, empties the password field and
      removes the mark, so the next sign-in page opens on the login form. */
  method PasswordChangeHandOff(store: LocalStorage) returns (first: Auth.Mode, firstPassword: string, second: Auth.Mode)
    modifies store
    ensures first == Auth.ResetForm && firstPassword == "" && second == Auth.LoginForm
    ensures store.items == old(store.items) - {"authMode"}
  {
    var profile := new ProfilePage(store);
    var redirect := profile.HandlePasswordChange();
    var page := new Auth.AuthPage(store);
    page.Init();
    first, firstPassword := page.mode, page.password;
    var again := new Auth.AuthPage(store);
    again.Init();
    second := again.mode;
  }
}
