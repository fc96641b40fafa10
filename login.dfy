/** The login decision (`POST /api/auth/login`): the same 401 for an
    unknown email and a wrong password, and a token whose claims carry the
    user's plan. */
module Login {
  import opened Common
  import opened Accounts

  /** The user found by email, with the subscription joined in. */
  datatype Account = Account(user: User, subscription: Option<Subscription>)

  datatype Claims = Claims(userId: string, email: string, plan: string)

  /** The user in the response: every column but the password, plus the
      joined subscription. */
  datatype LoginUser = LoginUser(id: string, email: string, name: Option<string>, subscription: Option<Subscription>)

  datatype Outcome = LoggedIn(user: LoginUser, token: string) | Rejected(failure: Failure)

  const InvalidCredentials := Failure(401, "Invalid credentials")

  /** `user.subscription?.plan || 'free'` */
  function PlanClaim(subscription: Option<Subscription>): (plan: string)
    ensures plan != ""
    ensures subscription.Some? && subscription.value.plan != "" ==> plan == subscription.value.plan
    ensures subscription.None? ==> plan == "free"
  {
    if subscription.Some? && subscription.value.plan != "" then subscription.value.plan else "free"
  }

  /** `found` is the store's lookup by email; `matches(password, hash)` is
      the password check and `sign` the token signer. */
  function Post(email: Option<string>, password: Option<string>, found: Option<Account>,
                matches: (string, string) -> bool, sign: Claims -> string): (out: Outcome)
    ensures !Truthy(email) || !Truthy(password) ==>
      out == Rejected(Failure(400, "Email and password are required"))
    ensures out.LoggedIn? <==>
      && Truthy(email) && Truthy(password) && found.Some?
      && matches(password.value, found.value.user.password)
    ensures out.LoggedIn? ==>
      var u := found.value.user;
      && out.user == LoginUser(u.id, u.email, u.name, found.value.subscription)
      && out.token == sign(Claims(u.id, u.email, PlanClaim(found.value.subscription)))
    ensures Truthy(email) && Truthy(password) && !out.LoggedIn? ==> out == Rejected(InvalidCredentials)
  {
    if !Truthy(email) || !Truthy(password) then Rejected(Failure(400, "Email and password are required"))
    else if found.None? then Rejected(InvalidCredentials)
    else if !matches(password.value, found.value.user.password) then Rejected(InvalidCredentials)
    else
      var u := found.value.user;
      LoggedIn(LoginUser(u.id, u.email, u.name, found.value.subscription),
               sign(Claims(u.id, u.email, PlanClaim(found.value.subscription))))
  }

  /** An unknown email and a wrong password cannot be told apart. */
  lemma SameAnswerForUnknownAndWrong(email: string, password: string, a: Account,
                                     matches: (string, string) -> bool, sign: Claims -> string)
    requires email != "" && password != ""
    requires !matches(password, a.user.password)
    ensures Post(Some(email), Some(password), None, matches, sign)
         == Post(Some(email), Some(password), Some(a), matches, sign)
  {
  }

  /** A user registered through the store logs in with the free plan in
      the token. */
  lemma RegisteredUserClaimsFree(u: User, now: int, password: string,
                                 matches: (string, string) -> bool, sign: Claims -> string)
    requires u.email != "" && password != "" && matches(password, u.password)
    ensures var a := Account(u, Some(Subscription("free", "active", now, None)));
      Post(Some(u.email), Some(password), Some(a), matches, sign).token
        == sign(Claims(u.id, u.email, "free"))
  {
  }
}
