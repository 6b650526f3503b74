/** The sign-in page: the password rules, the e-mail pattern, the ordered checks of
    login and registration, and their effects on `localStorage`. */
module Auth {
  import opened Js
  import opened Text
  import opened BrowserStorage
  import Http

  datatype Mode = LoginForm | RegisterForm | ResetForm

  /** Why a submission stopped before reaching the server. */
  datatype Rejection = MissingCredentials | WrongCaptcha | InvalidEmail | PasswordRulesFailed

  /** How a submission ended: refused locally, done (with its alert and redirect), or
      failed (the request rejected or reading its token threw; the page itself shows
      nothing). */
  datatype Outcome = Refused(reason: Rejection) | Done(alert: Option<string>, redirect: Option<string>) | ApiFailed

  /** The read `response.data.token` on the value the login request resolved with: it
      throws when `data` is `undefined` or `null`, which sends `Login` to its failure branch. */
  datatype TokenRead = Threw | Read(token: Option<Json>)

  function ReadToken(response: Json): (r: TokenRead)
    ensures r.Threw? <==> response.JNull? || Get(response, "data").None? || Get(response, "data").value.JNull?
    ensures r.Read? ==> r.token == Get(Get(response, "data").value, "token")
  {
    if response.JNull? then Threw
    else
      var data := Get(response, "data");
      if data.None? || data.value.JNull? then Threw else Read(Get(data.value, "token"))
  }

  const PasswordChangeMode := "passwordChange"
  const LoginOkText := "登录成功"
  const ResetOkText := "密码重置成功"

  function AlertText(reason: Rejection): string {
    match reason
    case MissingCredentials => "请输入邮箱和密码"
    case WrongCaptcha => "验证码错误"
    case InvalidEmail => "请输入有效的邮箱地址"
    case PasswordRulesFailed => "请检查密码规则"
  }

  // ---- rule1: the length --------------------------------------------------------

  /** rule1: `password.length` (UTF-16 code units) is from 8 to 16. */
  predicate Rule1(password: string) {
    8 <= Utf16Length(password) <= 16
  }

  /** For a password without characters above U+FFFF, rule1 is a bound on its length;
      in general it admits 4 to 16 characters. */
  lemma Rule1Length(password: string)
    ensures Rule1(password) ==> 4 <= |password| <= 16
    ensures (forall i :: 0 <= i < |password| ==> password[i] as int < 0x1_0000) ==>
              (Rule1(password) <==> 8 <= |password| <= 16)
  {
  }

  // ---- rule2: `/^(?=.*[a-zA-Z])(?=.*\d)/` ----------------------------------------

  /** `[a-zA-Z]` and `\d` (ASCII digits, as the pattern has no `u` flag). */
  datatype CharClass = Letter | Digit

  predicate InClass(c: char, k: CharClass) {
    match k
    case Letter => IsAsciiLetter(c)
    case Digit => IsAsciiDigit(c)
  }

  /** How the engine runs the lookahead `(?=.*X)` at position 0: `.*` cannot cross a
      line terminator, so the scan gives up at the first one. */
  function LookaheadFinds(s: string, k: CharClass): bool
    decreases |s|
  {
    if s == [] then false
    else if InClass(s[0], k) then true
    else if IsLineTerminator(s[0]) then false
    else LookaheadFinds(s[1..], k)
  }

  predicate NoLineBreakBefore(s: string, i: int)
    requires 0 <= i <= |s|
  {
    forall j :: 0 <= j < i ==> !IsLineTerminator(s[j])
  }

  /** The language of `(?=.*X)`: some character of class `k` occurs before any line terminator. */
  ghost predicate OccursBeforeLineBreak(s: string, k: CharClass) {
    exists i :: 0 <= i < |s| && InClass(s[i], k) && NoLineBreakBefore(s, i)
  }

  lemma {:induction false} LookaheadFindsCorrect(s: string, k: CharClass)
    ensures LookaheadFinds(s, k) <==> OccursBeforeLineBreak(s, k)
    decreases |s|
  {
    if s == [] {
    } else if InClass(s[0], k) {
      assert NoLineBreakBefore(s, 0);
    } else if IsLineTerminator(s[0]) {
      assert forall i :: 0 < i < |s| ==> !NoLineBreakBefore(s, i);
    } else {
      LookaheadFindsCorrect(s[1..], k);
      if OccursBeforeLineBreak(s, k) {
        var i :| 0 <= i < |s| && InClass(s[i], k) && NoLineBreakBefore(s, i);
        assert i > 0;
        assert s[1..][i - 1] == s[i];
        assert NoLineBreakBefore(s[1..], i - 1) by {
          forall j | 0 <= j < i - 1 ensures !IsLineTerminator(s[1..][j]) {
            assert s[1..][j] == s[j + 1];
          }
        }
      }
      if OccursBeforeLineBreak(s[1..], k) {
        var i :| 0 <= i < |s[1..]| && InClass(s[1..][i], k) && NoLineBreakBefore(s[1..], i);
        assert s[i + 1] == s[1..][i];
        assert NoLineBreakBefore(s, i + 1) by {
          forall j | 0 <= j < i + 1 ensures !IsLineTerminator(s[j]) {
            if j > 0 { assert s[j] == s[1..][j - 1]; }
          }
        }
      }
    }
  }

  /** rule2 as the page computes it. */
  predicate Rule2(password: string) {
    LookaheadFinds(password, Letter) && LookaheadFinds(password, Digit)
  }

  /** rule2 holds iff an ASCII letter and an ASCII digit both occur before the first line
      terminator; for a single-line password, iff it contains a letter and a digit. */
  lemma Rule2Meaning(password: string)
    ensures Rule2(password) <==>
              OccursBeforeLineBreak(password, Letter) && OccursBeforeLineBreak(password, Digit)
    ensures (forall i :: 0 <= i < |password| ==> !IsLineTerminator(password[i])) ==>
              (Rule2(password) <==>
                (exists i :: 0 <= i < |password| && IsAsciiLetter(password[i])) &&
                (exists i :: 0 <= i < |password| && IsAsciiDigit(password[i])))
  {
    LookaheadFindsCorrect(password, Letter);
    LookaheadFindsCorrect(password, Digit);
    if forall i :: 0 <= i < |password| ==> !IsLineTerminator(password[i]) {
      assert forall i :: 0 <= i < |password| ==> NoLineBreakBefore(password, i);
      assert forall i :: 0 <= i < |password| ==> (InClass(password[i], Letter) <==> IsAsciiLetter(password[i]));
      assert forall i :: 0 <= i < |password| ==> (InClass(password[i], Digit) <==> IsAsciiDigit(password[i]));
    }
  }

  // ---- rule3 ----------------------------------------------------------------------

  /** rule3: the two entries agree and are not empty. */
  predicate Rule3(password: string, confirmation: string) {
    password == confirmation && password != ""
  }

  predicate PasswordRules(password: string, confirmation: string) {
    Rule1(password) && Rule2(password) && Rule3(password, confirmation)
  }

  // ---- `/^[^\s@]+@[^\s@]+\.[^\s@]+$/` -------------------------------------------------

  /** Every character is in `[^\s@]`. */
  predicate Plain(t: string) {
    forall i :: 0 <= i < |t| ==> !IsJsWhitespace(t[i]) && t[i] != '@'
  }

  /** The index of the first `c`, or `|s|` when there is none. */
  function IndexOf(s: string, c: char): (k: nat)
    ensures k <= |s| && c !in s[..k]
    ensures k < |s| ==> s[k] == c
  {
    if s == [] || s[0] == c then 0
    else
      var k := IndexOf(s[1..], c);
      assert s[..k + 1] == [s[0]] + s[1..][..k];
      k + 1
  }

  /** A `.` that is neither the first nor the last character. */
  predicate HasInnerDot(d: string) {
    exists i :: 1 <= i < |d| - 1 && d[i] == '.'
  }

  /** `isValidEmail`: a non-empty local part without white space or `@`, one `@`, and a
      domain without white space or `@` that has a `.` inside it. */
  predicate IsValidEmail(s: string) {
    var k := IndexOf(s, '@');
    0 < k < |s| && Plain(s[..k]) && Plain(s[k + 1..]) && HasInnerDot(s[k + 1..])
  }

  /** The language of the pattern: `s` is A `@` B `.` C with A, B, C non-empty runs of
      `[^\s@]`, split at index `i` (the `@`) and `j` (the `.`). */
  predicate SplitsAt(s: string, i: int, j: int) {
    0 < i && i + 1 < j && j + 1 < |s| && s[i] == '@' && s[j] == '.' &&
    Plain(s[..i]) && Plain(s[i + 1..j]) && Plain(s[j + 1..])
  }

  ghost predicate MatchesEmailPattern(s: string) {
    exists i, j :: SplitsAt(s, i, j)
  }

  lemma PlainSlice(t: string, a: int, b: int)
    requires Plain(t) && 0 <= a <= b <= |t|
    ensures Plain(t[a..b])
  {
    assert forall i :: 0 <= i < b - a ==> t[a..b][i] == t[a + i];
  }

  lemma {:induction false} IsValidEmailMatchesPattern(s: string)
    ensures IsValidEmail(s) <==> MatchesEmailPattern(s)
  {
    var k := IndexOf(s, '@');
    if IsValidEmail(s) {
      var d := s[k + 1..];
      var t :| 1 <= t < |d| - 1 && d[t] == '.';
      var j := k + 1 + t;
      PlainSlice(d, 0, t);
      PlainSlice(d, t + 1, |d|);
      assert s[k + 1..j] == d[..t];
      assert s[j + 1..] == d[t + 1..];
      assert SplitsAt(s, k, j);
    }
    if MatchesEmailPattern(s) {
      var i, j :| SplitsAt(s, i, j);
      assert forall x :: 0 <= x < i ==> s[x] != '@' by {
        forall x | 0 <= x < i ensures s[x] != '@' { assert s[..i][x] == s[x]; }
      }
      assert forall x :: 0 <= x < k ==> s[x] != '@' by {
        forall x | 0 <= x < k ensures s[x] != '@' { assert s[..k][x] == s[x]; }
      }
      var d := s[i + 1..];
      assert Plain(d) by {
        forall x | 0 <= x < |d| ensures !IsJsWhitespace(d[x]) && d[x] != '@' {
          if x < j - i - 1 {
            assert d[x] == s[i + 1..j][x];
          } else if x > j - i - 1 {
            assert d[x] == s[j + 1..][x - (j - i)];
          }
        }
      }
      assert d[j - i - 1] == '.';
    }
  }

  // ---- the checks before a request ------------------------------------------------------

  /** The captcha comparison ignores (ASCII) case. */
  predicate CaptchaMatches(entered: string, shown: string) {
    ToLower(entered) == ToLower(shown)
  }

  /** `Login`'s checks, in order; the first failing one decides. */
  function LoginCheck(email: string, password: string, entered: string, shown: string): (r: Option<Rejection>)
    ensures r.None? <==> email != "" && password != "" && CaptchaMatches(entered, shown) && IsValidEmail(email)
    ensures r == Some(MissingCredentials) <==> email == "" || password == ""
    ensures r == Some(WrongCaptcha) <==> email != "" && password != "" && !CaptchaMatches(entered, shown)
    ensures r == Some(InvalidEmail) <==>
              email != "" && password != "" && CaptchaMatches(entered, shown) && !IsValidEmail(email)
  {
    if email == "" || password == "" then Some(MissingCredentials)
    else if !CaptchaMatches(entered, shown) then Some(WrongCaptcha)
    else if !IsValidEmail(email) then Some(InvalidEmail)
    else None
  }

  /** `Register`'s checks, in order (its button has already checked the rules). */
  function RegisterCheck(email: string, entered: string, shown: string): (r: Option<Rejection>)
    ensures r.None? <==> CaptchaMatches(entered, shown) && IsValidEmail(email)
    ensures r == Some(WrongCaptcha) <==> !CaptchaMatches(entered, shown)
    ensures r == Some(InvalidEmail) <==> CaptchaMatches(entered, shown) && !IsValidEmail(email)
  {
    if !CaptchaMatches(entered, shown) then Some(WrongCaptcha)
    else if !IsValidEmail(email) then Some(InvalidEmail)
    else None
  }

  /** Where `Login` finds the token, given the response the server sent: a `{code: 200}`
      body is unwrapped, so the token is `body.data.token`; any other body stays inside
      the response, so the token is `body.token`. */
  lemma {:induction false} TokenLocation(r: Http.Response)
    ensures Http.HasCode200(r.data) ==>
              ReadToken(Http.AsValue(Http.UnwrapSuccess(r))) ==
                (var inner := Get(r.data, "data");
                 if inner.None? || inner.value.JNull? then Threw else Read(Get(inner.value, "token")))
    ensures !Http.HasCode200(r.data) ==>
              ReadToken(Http.AsValue(Http.UnwrapSuccess(r))) ==
                (if r.data.JNull? then Threw else Read(Get(r.data, "token")))
  {
    var v := Http.AsValue(Http.UnwrapSuccess(r));
    if !Http.HasCode200(r.data) {
      assert Get(v, "data") == Some(r.data);
    }
  }

  /** The stored items after a successful login: the address always; the token (as
      `setItem` turns it into a string) and the password only when "remember" is ticked
      and the token is truthy. */
  function AfterLoginSuccess(items: map<string, string>, email: string, password: string,
                             remember: bool, token: Option<Json>, show: Json -> string): map<string, string>
  {
    var withEmail := items["useremail" := email];
    if remember && TruthyOpt(token) then withEmail["token" := ToJsString(token.value, show)]["password" := password]
    else withEmail
  }

  /** The stored items after a failed login: the address is kept for the next visit, any
      token and password are dropped. */
  function AfterLoginFailure(items: map<string, string>, email: string): map<string, string> {
    items["email" := email] - {"token", "password"}
  }

  /** A successful login records the address and, only when asked to remember it, a
      token and the password; no other key changes. A failed one leaves no token or
      password behind and changes no other key than the address. */
  lemma LoginStorageEffects(items: map<string, string>, email: string, password: string,
                            remember: bool, token: Option<Json>, show: Json -> string)
    ensures var s := AfterLoginSuccess(items, email, password, remember, token, show);
            && s["useremail"] == email
            && (remember && TruthyOpt(token) ==>
                  s["token"] == ToJsString(token.value, show) && s["password"] == password)
            && (forall key :: key != "useremail" && ((key != "token" && key != "password") || !(remember && TruthyOpt(token))) ==>
                  (key in s <==> key in items) && (key in s ==> s[key] == items[key]))
    ensures var f := AfterLoginFailure(items, email);
            && "email" in f && f["email"] == email && "token" !in f && "password" !in f
            && (forall key :: key != "email" && key != "token" && key != "password" ==>
                  (key in f <==> key in items) && (key in f ==> f[key] == items[key]))
  {
  }

  class AuthPage {
    var mode: Mode
    var useremail: string
    var password: string
    var userName: string
    var confirmPassword: string
    var rememberPassword: bool
    /** The text the captcha component currently shows. */
    var captchaValue: string
    /** What the user typed into the captcha field. */
    var userCaptcha: string
    const store: LocalStorage

    constructor (store: LocalStorage)
      ensures this.store == store && mode == LoginForm
      ensures useremail == "" && password == "" && userName == "" && confirmPassword == ""
      ensures !rememberPassword && captchaValue == "" && userCaptcha == ""
    {
      this.store := store;
      mode := LoginForm;
      useremail, password, userName, confirmPassword := "", "", "", "";
      rememberPassword := false;
      captchaValue, userCaptcha := "", "";
    }

    /** The fields other than the mode and the three the init effect writes. */
    function Inputs(): (string, string, bool, string, string)
      reads this
    {
      (userName, confirmPassword, rememberPassword, captchaValue, userCaptcha)
    }

    /** The init effect: stored address and password fill the form; the `passwordChange`
        hand-off switches to the reset form, is removed, and empties the password. */
    method Init()
      modifies this, store
      ensures var handOff := "authMode" in old(store.items) && old(store.items)["authMode"] == PasswordChangeMode;
              && useremail == (if TruthyText(old(store.GetItem("email"))) then old(store.items)["email"] else old(useremail))
              && password == (if handOff then ""
                              else if TruthyText(old(store.GetItem("password"))) then old(store.items)["password"]
                              else old(password))
              && mode == (if handOff then ResetForm else old(mode))
              && store.items == (if handOff then old(store.items) - {"authMode"} else old(store.items))
      ensures Inputs() == old(Inputs())
    {
      var storedEmail := store.GetItem("email");
      var storedPassword := store.GetItem("password");
      var authMode := store.GetItem("authMode");
      if TruthyText(storedEmail) {
        useremail := storedEmail.value;
      }
      if TruthyText(storedPassword) {
        password := storedPassword.value;
      }
      if authMode == Some(PasswordChangeMode) {
        mode := ResetForm;
        store.RemoveItem("authMode");
        password := "";
      }
    }

    /** The links between the three forms. */
    method SelectForm(m: Mode)
      modifies this
      ensures mode == m
      ensures useremail == old(useremail) && password == old(password) && Inputs() == old(Inputs())
    {
      mode := m;
    }

    /** `handleCaptchaChange`: the captcha component drew a new code. */
    method CaptchaChanged(code: string)
      modifies this
      ensures captchaValue == code
      ensures mode == old(mode) && useremail == old(useremail) && password == old(password)
      ensures userName == old(userName) && confirmPassword == old(confirmPassword)
      ensures rememberPassword == old(rememberPassword) && userCaptcha == old(userCaptcha)
    {
      captchaValue := code;
    }

    /** `Login` (also what its button does, which repeats the first check): the checks
        in order, then the request, which resolves with `response` or rejects (`None`);
        storage changes only once the request was made. */
    method Login(response: Option<Json>, show: Json -> string) returns (outcome: Outcome)
      modifies store
      ensures var check := LoginCheck(useremail, password, userCaptcha, captchaValue);
              var read := if response.Some? then ReadToken(response.value) else Threw;
              && (check.Some? ==> outcome == Refused(check.value) && store.items == old(store.items))
              && (check.None? && read.Read? ==>
                    outcome == Done(Some(LoginOkText), Some("/")) &&
                    store.items == AfterLoginSuccess(old(store.items), useremail, password,
                                                     rememberPassword, read.token, show))
              && (check.None? && read.Threw? ==>
                    outcome == ApiFailed && store.items == AfterLoginFailure(old(store.items), useremail))
    {
      if useremail == "" || password == "" {
        return Refused(MissingCredentials);
      }
      if ToLower(userCaptcha) != ToLower(captchaValue) {
        return Refused(WrongCaptcha);
      }
      if !IsValidEmail(useremail) {
        return Refused(InvalidEmail);
      }
      var read := if response.Some? then ReadToken(response.value) else Threw;
      match read
      case Read(token) =>
        store.SetItem("useremail", useremail);
        if rememberPassword && TruthyOpt(token) {
          store.SetItem("token", ToJsString(token.value, show));
          store.SetItem("password", password);
        }
        outcome := Done(Some(LoginOkText), Some("/"));
      case Threw =>
        store.SetItem("email", useremail);
        store.RemoveItem("token");
        store.RemoveItem("password");
        outcome := ApiFailed;
    }

    /** The register button: the three rules, then `Register`'s checks, then the request;
        a successful registration stores the address and the user name. */
    method RegisterClicked(succeeded: bool) returns (outcome: Outcome)
      modifies store
      ensures !PasswordRules(password, confirmPassword) ==>
                outcome == Refused(PasswordRulesFailed) && store.items == old(store.items)
      ensures PasswordRules(password, confirmPassword) &&
              RegisterCheck(useremail, userCaptcha, captchaValue).Some? ==>
                outcome == Refused(RegisterCheck(useremail, userCaptcha, captchaValue).value) &&
                store.items == old(store.items)
      ensures PasswordRules(password, confirmPassword) &&
              RegisterCheck(useremail, userCaptcha, captchaValue).None? ==>
                outcome == (if succeeded then Done(None, Some("/")) else ApiFailed) &&
                store.items == (if succeeded then old(store.items)["email" := useremail]["username" := userName]
                                else old(store.items))
    {
      if !(Rule1(password) && Rule2(password) && Rule3(password, confirmPassword)) {
        return Refused(PasswordRulesFailed);
      }
      if ToLower(userCaptcha) != ToLower(captchaValue) {
        return Refused(WrongCaptcha);
      }
      if !IsValidEmail(useremail) {
        return Refused(InvalidEmail);
      }
      if succeeded {
        store.SetItem("email", useremail);
        store.SetItem("username", userName);
        outcome := Done(None, Some("/"));
      } else {
        outcome := ApiFailed;
      }
    }

    /** The reset button: with all three rules it reports success and returns to the
        login form (no request is made); otherwise it alerts. */
    method ResetClicked() returns (outcome: Outcome)
      modifies this
      ensures PasswordRules(password, confirmPassword) ==> outcome == Done(Some(ResetOkText), None) && mode == LoginForm
      ensures !PasswordRules(password, confirmPassword) ==> outcome == Refused(PasswordRulesFailed) && mode == old(mode)
      ensures useremail == old(useremail) && password == old(password) && Inputs() == old(Inputs())
    {
      if Rule1(password) && Rule2(password) && Rule3(password, confirmPassword) {
        mode := LoginForm;
        outcome := Done(Some(ResetOkText), None);
      } else {
        outcome := Refused(PasswordRulesFailed);
      }
    }
  }
}
