/**
 * Consequences that span several handler calls on one store, proved from
 * the handlers' contracts alone.
 */
module Scenarios {
  import opened Wrappers
  import opened JsString
  import opened UserModel
  import opened UserController

  /**
   * After a logged-in user logs out, every refresh presenting a token that
   * names that user (or fails verification) is refused with 401.
   */
  method LogoutRevokesRefresh(store: UserStore, env: Env, user: RequestUser,
                              cookieToken: Option<string>, bodyToken: Option<string>, minted: TokenPair)
    returns (logout: Reply, refresh: Reply)
    requires store.Valid() && user.id in store.users
    requires Truthy(PresentedRefreshToken(cookieToken, bodyToken))
    requires
      var v := env.verify(PresentedRefreshToken(cookieToken, bodyToken).value, env.refreshSecret);
      v.Some? ==> v.value.id == user.id
    modifies store
    ensures store.Valid()
    ensures logout == Success(200, LogoutSuccessful, ClearTokens)
    ensures refresh.Failure? && refresh.status == 401
    ensures store.users == WithRefreshToken(old(store.users), user.id, None)
  {
    logout := store.LogoutUser(Resolved(user));
    refresh := store.RefreshAccessToken(env, Anonymous, cookieToken, bodyToken, minted);
  }

  /**
   * A refresh token is good for one rotation: replaying it after a
   * successful refresh is refused with 401, unless the newly minted token
   * happens to be the very same string. Time may pass between the calls:
   * the replay is checked by a verifier `later` that may reject the token
   * (it expired) but otherwise decodes it as before. A replay that still
   * verifies meets the stored-token mismatch; one that no longer verifies
   * is "Invalid or expired token".
   */
  method RefreshTokenSingleUse(store: UserStore, env: Env, later: Env, cookieToken: Option<string>,
                               first: TokenPair, second: TokenPair)
    returns (r1: Reply, r2: Reply)
    requires store.Valid()
    requires Truthy(cookieToken)
    requires first.refresh != cookieToken.value
    requires later.refreshSecret == env.refreshSecret
    requires
      var v := later.verify(cookieToken.value, later.refreshSecret);
      v.Some? ==> v == env.verify(cookieToken.value, env.refreshSecret)
    modifies store
    ensures store.Valid()
    ensures r1.Success? ==> r2.Failure? && r2.status == 401
    ensures r1.Success? && later.verify(cookieToken.value, later.refreshSecret).Some? ==>
      r2 == Failure(401, RefreshTokenMismatch)
    ensures r1.Success? && later.verify(cookieToken.value, later.refreshSecret).None? ==>
      r2 == Failure(401, InvalidOrExpiredToken)
  {
    r1 := store.RefreshAccessToken(env, Anonymous, cookieToken, None, first);
    r2 := store.RefreshAccessToken(later, Anonymous, cookieToken, None, second);
  }

  /** Registering the same details twice: if the first succeeds, the second is a 409 conflict. */
  method SecondRegistrationConflicts(store: UserStore, env: Env, body: RegisterBody,
                                     avatar: Option<string>, coverImage: Option<string>)
    returns (r1: Reply, r2: Reply)
    requires store.Valid()
    modifies store
    ensures store.Valid()
    ensures r1.Success? ==> r2 == Failure(409, AccountExists) && |store.users| == |old(store.users)| + 1
  {
    r1 := store.RegisterUser(env, Anonymous, body, avatar, coverImage);
    ghost var id := old(store.nextId);
    r2 := store.RegisterUser(env, Anonymous, body, avatar, coverImage);
    if r1.Success? {
      var v := env.registerSchema(body.Form()).data;
      assert id in store.users && store.users[id].username == v.username;
    }
  }

  /**
   * After a successful password change, logging in with the old password
   * fails with 401 when the stored hash of the new password does not match
   * it, and the refresh token stored before the change is still in place.
   */
  method PasswordChangeThenLogin(store: UserStore, env: Env, user: RequestUser, body: PasswordBody,
                                 email: string, minted: TokenPair)
    returns (change: Reply, login: Reply)
    requires store.Valid() && user.id in store.users && store.users[user.id].email == email
    requires !body.AnyBlank() && !Blank(Some(email))
    requires env.passwordSchema(body.newPassword.value).Accepted?
    requires env.loginSchema(LoginForm(email, body.oldPassword.value)) == Accepted(LoginForm(email, body.oldPassword.value))
    requires !env.matches(body.oldPassword.value, env.hash(env.passwordSchema(body.newPassword.value).data))
    modifies store
    ensures store.Valid()
    ensures change.Success? ==> login == Failure(401, IncorrectPassword)
    ensures user.id in store.users
    ensures change.Success? ==> store.users[user.id].refreshToken == old(store.users)[user.id].refreshToken
  {
    change := store.ChangePassword(env, Resolved(user), body);
    AccountWithEmailIsOwner(store.users, email, user.id);
    login := store.LoginUser(env, Anonymous, LoginBody(Some(email), body.oldPassword), minted);
  }

  /**
   * The success path: a login stores the minted refresh token, and a refresh
   * presenting that token (when it verifies and names the account) succeeds
   * and rotates the stored token to the next minted one.
   */
  method LoginThenRefresh(store: UserStore, env: Env, body: LoginBody, first: TokenPair, second: TokenPair)
    returns (login: Reply, refresh: Reply)
    requires store.Valid()
    requires first.refresh != ""
    requires !body.AnyBlank()
    requires env.verify(first.refresh, env.refreshSecret).Some?
    requires HasEmail(store.users, env.verify(first.refresh, env.refreshSecret).value.id, body.email.value)
    modifies store
    ensures store.Valid()
    ensures login.Success? ==> refresh == Success(200, AccessTokenUpdated, SetTokens(second))
    ensures login.Success? ==>
      var id := env.verify(first.refresh, env.refreshSecret).value.id;
      id in store.users && store.users[id].refreshToken == Some(second.refresh)
  {
    ghost var id := env.verify(first.refresh, env.refreshSecret).value.id;
    ghost var before := store.users;
    login := store.LoginUser(env, Anonymous, body, first);
    ghost var afterLogin := store.users;
    refresh := store.RefreshAccessToken(env, Anonymous, Some(first.refresh), None, second);
    if login.Success? {
      AccountWithEmailIsOwner(before, body.email.value, id);
      assert afterLogin == WithRefreshToken(before, id, Some(first.refresh));
      assert PresentedRefreshToken(Some(first.refresh), None) == Some(first.refresh);
      assert RefreshAccepts(afterLogin, env, first.refresh);
    }
  }
}
