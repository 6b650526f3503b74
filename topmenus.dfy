/** The menu bar shown on every page: the user's name and address, the avatar initial,
    the user card and logging out. */
module Menu {
  import opened Js
  import opened Text
  import opened BrowserStorage
  import opened Identity

  const DefaultName := "用户"
  const DefaultEmail := "user@example.com"
  const LogoutFailedText := "退出登录失败，请稍后再试"
  const AuthPage := "/auth"

  /** `name.charAt(0).toUpperCase()`: empty for an empty name, else one character that
      is the first one with an ASCII lower-case letter raised. */
  function AvatarInitial(name: string): (r: string)
    ensures name == [] <==> r == []
    ensures name != [] ==> |r| == 1 && !('a' <= r[0] <= 'z') && LowerChar(r[0]) == LowerChar(name[0])
    ensures name != [] && !('a' <= name[0] <= 'z') ==> r == [name[0]]
  {
    if name == [] then [] else [UpperChar(name[0])]
  }

  class TopMenu {
    var showCard: bool
    var username: string
    var email: string
    const store: LocalStorage

    constructor (store: LocalStorage)
      ensures this.store == store && !showCard && username == DefaultName && email == DefaultEmail
    {
      this.store := store;
      showCard := false;
      username := DefaultName;
      email := DefaultEmail;
    }

    /** The mount effect: a non-empty stored address replaces the shown one; the name
        follows the stored user name, else the address's prefix, else stays. */
    method Mount()
      modifies this
      ensures email == (if TruthyText(store.GetItem("email")) then store.items["email"] else old(email))
      ensures username == DisplayName(store.GetItem("username"), store.GetItem("email"), old(username))
      ensures showCard == old(showCard)
    {
      var storedEmail := store.GetItem("email");
      var storedUsername := store.GetItem("username");
      if TruthyText(storedEmail) {
        email := storedEmail.value;
      }
      if TruthyText(storedUsername) {
        username := storedUsername.value;
      } else if TruthyText(storedEmail) {
        username := EmailPrefix(storedEmail.value);
      }
    }

    /** `handleLogout`. Without a token it only alerts. Otherwise the logout call removes
        the token before its request; on success the stored identity is blanked, the
        defaults are shown and the page goes to `/auth`; on failure only the alert follows. */
    method Logout(succeeded: bool) returns (alert: Option<string>, redirect: Option<string>)
      modifies this, store
      ensures !TruthyText(old(store.GetItem("token"))) ==>
                alert == Some(LogoutFailedText) && redirect.None? && store.items == old(store.items) &&
                username == old(username) && email == old(email)
      ensures TruthyText(old(store.GetItem("token"))) && succeeded ==>
                alert.None? && redirect == Some(AuthPage) &&
                store.items == (old(store.items) - {"token"})["username" := ""]["email" := ""]["password" := ""] &&
                username == DefaultName && email == DefaultEmail
      ensures TruthyText(old(store.GetItem("token"))) && !succeeded ==>
                alert == Some(LogoutFailedText) && redirect.None? && store.items == old(store.items) - {"token"} &&
                username == old(username) && email == old(email)
      ensures showCard == old(showCard)
    {
      if !TruthyText(store.GetItem("token")) {
        return Some(LogoutFailedText), None;
      }
      ghost var signedIn := store.items;
      store.RemoveItem("token");
      if succeeded {
        store.RemoveItem("token");
        assert store.items == signedIn - {"token"};
        store.SetItem("username", "");
        store.SetItem("email", "");
        store.SetItem("password", "");
        username := DefaultName;
        email := DefaultEmail;
        alert, redirect := None, Some(AuthPage);
      } else {
        alert, redirect := Some(LogoutFailedText), None;
      }
    }

    /** The avatar button. */
    method ToggleCard()
      modifies this
      ensures showCard == !old(showCard)
      ensures username == old(username) && email == old(email)
    {
      showCard := !showCard;
    }

    /** The card's `onClose`. */
    method CloseCard()
      modifies this
      ensures !showCard
      ensures username == old(username) && email == old(email)
    {
      showCard := false;
    }
  }

  /** After a successful logout the blanked entries are falsy, so the next mount of any
      menu shows the defaults again. */
  lemma LoggedOutIdentityIsBlank(items: map<string, string>)
    ensures var after := (items - {"token"})["username" := ""]["email" := ""]["password" := ""];
            && "token" !in after
            && !TruthyText(Some(after["username"])) && !TruthyText(Some(after["email"]))
            && DisplayName(Some(after["username"]), Some(after["email"]), DefaultName) == DefaultName
  {
  }

  /** The initial of a name is the initial of the name's first character alone. */
  lemma {:induction false} AvatarInitialOnlyFirst(name: string, rest: string)
    requires name != []
    ensures AvatarInitial(name + rest) == AvatarInitial(name)
  {
    assert (name + rest)[0] == name[0];
  }
}
