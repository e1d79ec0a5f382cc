/** The name the profile screen shows for the signed-in user. */
module Profile {
  import opened Opt
  import opened JsString
  import Auth

  /** The user has an e-mail that is present and non-empty (`user?.email` is truthy). */
  predicate HasEmail(user: Option<Auth.AuthUser>) {
    user.Some? && user.value.email.Some? && Truthy(user.value.email.value)
  }

  /**
   * `displayName`: the part of the e-mail before its first '@' (the whole e-mail when it has
   * none), "User" when that part is empty, and "Guest" without an e-mail. It never contains '@'.
   */
  function DisplayName(user: Option<Auth.AuthUser>): (name: string)
    ensures !HasEmail(user) ==> name == "Guest"
    ensures HasEmail(user) && user.value.email.value[0] == '@' ==> name == "User"
    ensures HasEmail(user) && user.value.email.value[0] != '@' ==>
      var email := user.value.email.value;
      name != [] && |name| <= |email| && name == email[..|name|] &&
      (|name| == |email| || email[|name|] == '@')
    ensures '@' !in name
  {
    if HasEmail(user) then
      var local := BeforeFirst(user.value.email.value, '@');
      if Truthy(local) then local else "User"
    else
      "Guest"
  }

  /** An e-mail without '@' is shown whole. */
  lemma DisplayNameWithoutAt(user: Option<Auth.AuthUser>)
    requires HasEmail(user) && '@' !in user.value.email.value
    ensures DisplayName(user) == user.value.email.value
  {
    assert user.value.email.value[0] in user.value.email.value;
  }
}
