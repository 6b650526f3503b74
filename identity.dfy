/** How the menu bar and the profile page derive the name they show from what
    `localStorage` holds. */
module Identity {
  import opened Js
  import opened Text

  /** `email.split('@')[0]`: the part of an address before its first `@`. */
  function EmailPrefix(email: string): (r: string)
    ensures r <= email && '@' !in r
    ensures r == email || email[|r|] == '@'
  {
    SplitHead(email, '@')
  }

  /** The name shown: a non-empty stored user name; else the prefix of a non-empty
      stored e-mail address; else whatever was shown before (`fallback`). */
  function DisplayName(storedName: Option<string>, storedEmail: Option<string>, fallback: string): (r: string)
    ensures TruthyText(storedName) ==> r == storedName.value
    ensures !TruthyText(storedName) && TruthyText(storedEmail) ==> r == EmailPrefix(storedEmail.value)
    ensures !TruthyText(storedName) && !TruthyText(storedEmail) ==> r == fallback
  {
    if TruthyText(storedName) then storedName.value
    else if TruthyText(storedEmail) then EmailPrefix(storedEmail.value)
    else fallback
  }

  /** A name derived from an address never contains `@`, and for an address with
      exactly one `@` it is the local part. */
  lemma {:induction false} EmailPrefixOfAddress(local: string, domain: string)
    requires '@' !in local
    ensures EmailPrefix(local + "@" + domain) == local
  {
    var s := local + "@" + domain;
    var r := EmailPrefix(s);
    assert s[|local|] == '@';
    assert forall i :: 0 <= i < |local| ==> s[i] == local[i] && local[i] in local;
    assert r == s[..|r|] == local;
  }
}
