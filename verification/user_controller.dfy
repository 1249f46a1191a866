/**
 * The authentication handlers of the user controller, as transitions of a
 * store of user documents: registration, login (with token issuance),
 * logout, refresh-token rotation, password change and the current-user
 * lookup. Each handler runs as one atomic step; it either succeeds with a
 * status, a message and its effect on the response, or fails with the
 * status and message of the error it raises.
 */
module UserController {
  import opened Wrappers
  import opened JsString
  import opened UserModel

  /** A user document as sent back to its owner: no password hash, no refresh token. */
  datatype PublicUser = PublicUser(
    id: UserId,
    username: string,
    fullName: string,
    email: string,
    avatar: Option<string>,
    coverImage: Option<string>)

  /** What a successful handler does to the response besides its status and message. */
  datatype Effect = NoEffect | SetTokens(pair: TokenPair) | ClearTokens | Details(user: PublicUser)

  /** The handler's outcome as the error-handling wrapper sends it. */
  datatype Reply = Success(status: int, message: string, effect: Effect) | Failure(status: int, message: string)

  /** What the body of the refresh handler's `try` can raise. */
  datatype Raised = ApiError(status: int, message: string) | OtherError

  const AlreadyLoggedIn: string := "You are already a logged in user"
  const AllFieldsRequired: string := "All fields are required"
  const AccountExists: string := "Email or username already exist"
  const AccountCreated: string := "Account created successfully"
  const NoAccountForEmail: string := "Account does not exist with this email"
  const IncorrectPassword: string := "Incorrect password, try again!"
  const LoginSuccessful: string := "Login successful"
  const LogoutUnauthorized: string := "Unauthorized user, please login"
  const LogoutSuccessful: string := "Logout Successfull"
  const AccessTokenNotExpired: string := "Access token not expired"
  const RefreshTokenNotFound: string := "Refresh token not found, please login again"
  const NoUserForRefreshToken: string := "User not found for this refresh token"
  const RefreshTokenMismatch: string := "Unauthorized: Refresh token does not match"
  const InvalidOrExpiredToken: string := "Invalid or expired token"
  const AccessTokenUpdated: string := "Access token updated"
  const PasswordNotLoggedIn: string := "You are not logged in, please login to change the password"
  const NoUserForPassword: string := "User not found while changing password"
  const IncorrectOldPassword: string := "Incorrect old password"
  const PasswordChanged: string := "Password changed successfully"
  const CurrentUserUnauthorized: string := "Unauthorized, please login to get your details"
  const UserNotFound: string := "User not found"
  const UserDetailsFound: string := "User details found"

  /** No two documents share a username, and no two share an email. */
  predicate DistinctCredentials(users: map<UserId, UserRecord>)
  {
    forall a, b :: a in users && b in users && a != b ==>
      users[a].username != users[b].username && users[a].email != users[b].email
  }

  /**
   * The duplicate query of registration: some document has this username OR
   * this email. When it finds nothing, neither is held by any document.
   */
  predicate UsernameOrEmailTaken(users: map<UserId, UserRecord>, username: string, email: string)
    ensures !UsernameOrEmailTaken(users, username, email) ==>
      forall id :: id in users ==> users[id].username != username && users[id].email != email
  {
    exists id :: id in users && (users[id].username == username || users[id].email == email)
  }

  predicate HasEmail(users: map<UserId, UserRecord>, id: UserId, email: string)
  {
    id in users && users[id].email == email
  }

  /** The document `User.findOne({ email })` finds, if any. */
  ghost function AccountWithEmail(users: map<UserId, UserRecord>, email: string): (found: Option<UserId>)
    ensures found.Some? ==> HasEmail(users, found.value, email)
    ensures found.None? ==> forall id :: !HasEmail(users, id, email)
  {
    if exists id :: HasEmail(users, id, email) then
      var id :| HasEmail(users, id, email);
      Some(id)
    else None
  }

  /** With distinct emails, the document found for an email is its one owner. */
  lemma AccountWithEmailIsOwner(users: map<UserId, UserRecord>, email: string, id: UserId)
    requires DistinctCredentials(users) && HasEmail(users, id, email)
    ensures AccountWithEmail(users, email) == Some(id)
  {
    var found := AccountWithEmail(users, email);
    assert users[found.value].email == users[id].email;
  }

  /**
   * The double gate of a refresh token: it verifies under the refresh-token
   * secret, the id it names has a document, and that document's stored
   * refresh token is exactly this token.
   */
  predicate RefreshAccepts(users: map<UserId, UserRecord>, env: Env, token: Token)
    ensures RefreshAccepts(users, env, token) ==>
      var c := env.verify(token, env.refreshSecret);
      c.Some? && c.value.id in users && users[c.value.id].refreshToken == Some(token)
    ensures (forall id :: id in users ==> users[id].refreshToken != Some(token)) ==>
      !RefreshAccepts(users, env, token)
  {
    match env.verify(token, env.refreshSecret)
    case None => false
    case Some(c) => c.id in users && users[c.id].refreshToken == Some(token)
  }

  /** The store with one document's refresh-token field set (Some) or unset (None). */
  function WithRefreshToken(users: map<UserId, UserRecord>, id: UserId, token: Option<Token>): map<UserId, UserRecord>
    requires id in users
  {
    users[id := users[id].(refreshToken := token)]
  }

  /**
   * `req.cookies.refreshToken || req.body.refreshToken`: one of the two, and
   * truthy exactly when either is.
   */
  function PresentedRefreshToken(cookie: Option<string>, body: Option<string>): (r: Option<string>)
    ensures r == cookie || r == body
    ensures Truthy(r) <==> Truthy(cookie) || Truthy(body)
  {
    if Truthy(cookie) then cookie else body
  }

  /**
   * The refresh handler's `catch`: an `ApiError` is re-raised with its own
   * status and message, anything else becomes 401 "Invalid or expired token".
   */
  function CatchRefreshError(e: Raised): (r: Reply)
    ensures r.Failure?
    ensures e.ApiError? ==> r.status == e.status && r.message == e.message
    ensures e.OtherError? ==> r.status == 401 && r.message == InvalidOrExpiredToken
  {
    match e
    case ApiError(status, message) => Failure(status, message)
    case OtherError => Failure(401, InvalidOrExpiredToken)
  }

  /** Adding a document whose username and email are both unused keeps credentials distinct. */
  lemma AddKeepsDistinct(users: map<UserId, UserRecord>, id: UserId, rec: UserRecord)
    requires DistinctCredentials(users) && id !in users
    requires !UsernameOrEmailTaken(users, rec.username, rec.email)
    ensures DistinctCredentials(users[id := rec])
  {
    var users' := users[id := rec];
    forall a, b | a in users' && b in users' && a != b
      ensures users'[a].username != users'[b].username && users'[a].email != users'[b].email
    {
      if a == id {
        assert users'[b] == users[b];
      } else if b == id {
        assert users'[a] == users[a];
      }
    }
  }

  /** Changing a document without changing its username or email keeps credentials distinct. */
  lemma UpdateKeepsDistinct(users: map<UserId, UserRecord>, id: UserId, rec: UserRecord)
    requires DistinctCredentials(users) && id in users
    requires rec.username == users[id].username && rec.email == users[id].email
    ensures DistinctCredentials(users[id := rec])
  {
  }

  /** A document holds one refresh-token slot, so at most one token per user is accepted. */
  lemma OneAcceptedTokenPerUser(users: map<UserId, UserRecord>, env: Env, t1: Token, t2: Token)
    requires RefreshAccepts(users, env, t1) && RefreshAccepts(users, env, t2)
    requires env.verify(t1, env.refreshSecret).value.id == env.verify(t2, env.refreshSecret).value.id
    ensures t1 == t2
  {
  }

  /** Once a user's refresh token is unset, no token naming that user is accepted. */
  lemma UnsetTokenRejectsAll(users: map<UserId, UserRecord>, env: Env, id: UserId, t: Token)
    requires id in users
    requires env.verify(t, env.refreshSecret).Some? ==> env.verify(t, env.refreshSecret).value.id == id
    ensures !RefreshAccepts(WithRefreshToken(users, id, None), env, t)
  {
  }

  /**
   * After rotation to `minted`, the only token naming that user that is
   * still accepted is `minted` itself, and it is accepted only if it verifies.
   */
  lemma RotationRetiresOtherTokens(users: map<UserId, UserRecord>, env: Env, id: UserId, minted: Token, t: Token)
    requires id in users
    requires env.verify(t, env.refreshSecret).Some? && env.verify(t, env.refreshSecret).value.id == id
    ensures RefreshAccepts(WithRefreshToken(users, id, Some(minted)), env, t) <==> t == minted
  {
  }

  /** Setting or unsetting one user's refresh token does not change which tokens of other users are accepted. */
  lemma OtherUsersUnaffected(users: map<UserId, UserRecord>, env: Env, id: UserId, slot: Option<Token>, t: Token)
    requires id in users
    requires env.verify(t, env.refreshSecret).Some? && env.verify(t, env.refreshSecret).value.id != id
    ensures RefreshAccepts(WithRefreshToken(users, id, slot), env, t) == RefreshAccepts(users, env, t)
  {
  }

  /** With a truthy refresh cookie, the body's token is never consulted. */
  lemma CookiePreferredOverBody(cookie: Option<string>, b1: Option<string>, b2: Option<string>)
    requires Truthy(cookie)
    ensures PresentedRefreshToken(cookie, b1) == PresentedRefreshToken(cookie, b2) == cookie
  {
  }

  /** The user collection, and the handlers that read and write it. */
  class UserStore {
    var users: map<UserId, UserRecord>
    /** The id the store gives the next document it creates. */
    var nextId: UserId

    ghost predicate Valid()
      reads this
    {
      && (forall id :: id in users ==> id < nextId)
      && DistinctCredentials(users)
    }

    constructor ()
      ensures Valid() && users == map[]
    {
      users := map[];
      nextId := 0;
    }

    /** `User.findOne({ email })`. */
    method FindByEmail(email: string) returns (found: Option<UserId>)
      requires Valid()
      ensures found.Some? ==> HasEmail(users, found.value, email)
      ensures found.None? ==> forall id :: !HasEmail(users, id, email)
      ensures found == AccountWithEmail(users, email)
    {
      if exists id | id in users :: users[id].email == email {
        var id :| id in users && users[id].email == email;
        AccountWithEmailIsOwner(users, email, id);
        found := Some(id);
      } else {
        found := None;
      }
    }

    /**
     * `generateAccessAndRefreshTokens(userId)`: no id or no document gives
     * null; otherwise the freshly minted pair is returned and its refresh
     * token becomes the document's stored refresh token, nothing else changing.
     */
    method IssueTokens(userId: Option<UserId>, minted: TokenPair) returns (r: Option<TokenPair>)
      requires Valid()
      modifies this`users
      ensures Valid()
      ensures r.None? <==> userId.None? || userId.value !in old(users)
      ensures r.None? ==> users == old(users)
      ensures r.Some? ==>
        && r.value == minted
        && users == WithRefreshToken(old(users), userId.value, Some(minted.refresh))
    {
      if userId.None? {
        return None;
      }
      var id := userId.value;
      if id !in users {
        return None;
      }
      UpdateKeepsDistinct(users, id, users[id].(refreshToken := Some(minted.refresh)));
      users := users[id := users[id].(refreshToken := Some(minted.refresh))];
      return Some(minted);
    }

    /**
     * `handleRegisterUser`. `avatar` and `coverImage` are the URLs the media
     * host returned for the uploaded files, if any.
     */
    method RegisterUser(env: Env, caller: Identity, body: RegisterBody, avatar: Option<string>, coverImage: Option<string>)
      returns (r: Reply)
      requires Valid()
      modifies this
      ensures Valid()
      ensures caller.Resolved? ==> r == Failure(400, AlreadyLoggedIn)
      ensures caller.Anonymous? && body.AnyBlank() ==> r == Failure(400, AllFieldsRequired)
      ensures caller.Anonymous? && !body.AnyBlank() && env.registerSchema(body.Form()).Rejected? ==>
        r == Failure(400, env.registerSchema(body.Form()).detail)
      ensures caller.Anonymous? && !body.AnyBlank() && env.registerSchema(body.Form()).Accepted? ==>
        var v := env.registerSchema(body.Form()).data;
        UsernameOrEmailTaken(old(users), v.username, v.email) ==> r == Failure(409, AccountExists)
      ensures r.Failure? ==> users == old(users) && nextId == old(nextId)
      ensures r.Success? <==>
        && caller.Anonymous? && !body.AnyBlank() && env.registerSchema(body.Form()).Accepted?
        && var v := env.registerSchema(body.Form()).data;
           !UsernameOrEmailTaken(old(users), v.username, v.email)
      ensures r.Success? ==>
        var v := env.registerSchema(body.Form()).data;
        && r == Success(201, AccountCreated, NoEffect)
        && old(nextId) !in old(users)
        && users == old(users)[old(nextId) := UserRecord(v.username, v.fullName, v.email, env.hash(v.password), avatar, coverImage, None)]
        && |users| == |old(users)| + 1
    {
      if caller.Resolved? {
        return Failure(400, AlreadyLoggedIn);
      }
      if body.AnyBlank() {
        return Failure(400, AllFieldsRequired);
      }
      var result := env.registerSchema(body.Form());
      if result.Rejected? {
        return Failure(400, result.detail);
      }
      var v := result.data;
      if UsernameOrEmailTaken(users, v.username, v.email) {
        return Failure(409, AccountExists);
      }
      var rec := UserRecord(v.username, v.fullName, v.email, env.hash(v.password), avatar, coverImage, None);
      AddKeepsDistinct(users, nextId, rec);
      users := users[nextId := rec];
      nextId := nextId + 1;
      return Success(201, AccountCreated, NoEffect);
    }

    /**
     * `handleLoginUser`: the account is looked up by the email as sent, the
     * password checked in its validated form; on success a new token pair is
     * minted and its refresh token stored.
     */
    method LoginUser(env: Env, caller: Identity, body: LoginBody, minted: TokenPair) returns (r: Reply)
      requires Valid()
      modifies this`users
      ensures Valid()
      ensures caller.Resolved? ==> r == Failure(400, AlreadyLoggedIn)
      ensures caller.Anonymous? && body.AnyBlank() ==> r == Failure(400, AllFieldsRequired)
      ensures caller.Anonymous? && !body.AnyBlank() && env.loginSchema(body.Form()).Rejected? ==>
        r == Failure(400, env.loginSchema(body.Form()).detail)
      ensures caller.Anonymous? && !body.AnyBlank() && env.loginSchema(body.Form()).Accepted? ==>
        var account := AccountWithEmail(old(users), body.email.value);
        var v := env.loginSchema(body.Form()).data;
        && (account.None? ==> r == Failure(404, NoAccountForEmail))
        && (account.Some? && !env.matches(v.password, old(users)[account.value].passwordHash) ==>
              r == Failure(401, IncorrectPassword))
      ensures r.Failure? ==> users == old(users)
      ensures r.Success? <==>
        && caller.Anonymous? && !body.AnyBlank() && env.loginSchema(body.Form()).Accepted?
        && var account := AccountWithEmail(old(users), body.email.value);
           && account.Some?
           && env.matches(env.loginSchema(body.Form()).data.password, old(users)[account.value].passwordHash)
      ensures r.Success? ==>
        var account := AccountWithEmail(old(users), body.email.value);
        && r == Success(200, LoginSuccessful, SetTokens(minted))
        && account.Some?
        && users == WithRefreshToken(old(users), account.value, Some(minted.refresh))
    {
      if caller.Resolved? {
        return Failure(400, AlreadyLoggedIn);
      }
      if body.AnyBlank() {
        return Failure(400, AllFieldsRequired);
      }
      var result := env.loginSchema(body.Form());
      if result.Rejected? {
        return Failure(400, result.detail);
      }
      var v := result.data;
      var found := FindByEmail(body.email.value);
      if found.None? {
        return Failure(404, NoAccountForEmail);
      }
      var id := found.value;
      if !env.matches(v.password, users[id].passwordHash) {
        return Failure(401, IncorrectPassword);
      }
      var tokens := IssueTokens(Some(id), minted);
      return Success(200, LoginSuccessful, SetTokens(tokens.value));
    }

    /** `handleLogoutUser`: unset the caller's stored refresh token and clear both cookies. */
    method LogoutUser(caller: Identity) returns (r: Reply)
      requires Valid()
      modifies this`users
      ensures Valid()
      ensures caller.Anonymous? ==> r == Failure(401, LogoutUnauthorized) && users == old(users)
      ensures caller.Resolved? ==> r == Success(200, LogoutSuccessful, ClearTokens)
      ensures caller.Resolved? && caller.user.id in old(users) ==>
        users == WithRefreshToken(old(users), caller.user.id, None)
      ensures caller.Resolved? && caller.user.id !in old(users) ==> users == old(users)
    {
      if caller.Anonymous? {
        return Failure(401, LogoutUnauthorized);
      }
      var id := caller.user.id;
      if id in users {
        UpdateKeepsDistinct(users, id, users[id].(refreshToken := None));
        users := users[id := users[id].(refreshToken := None)];
      }
      return Success(200, LogoutSuccessful, ClearTokens);
    }

    /**
     * `refreshAccessToken`: the cookie token is preferred over the body
     * token; the presented token must verify and equal the stored one; on
     * success the stored token is rotated to the newly minted one.
     */
    method RefreshAccessToken(env: Env, caller: Identity, cookieToken: Option<string>, bodyToken: Option<string>, minted: TokenPair)
      returns (r: Reply)
      requires Valid()
      modifies this`users
      ensures Valid()
      ensures caller.Resolved? ==> r == Failure(401, AccessTokenNotExpired)
      ensures caller.Anonymous? && !Truthy(PresentedRefreshToken(cookieToken, bodyToken)) ==>
        r == Failure(404, RefreshTokenNotFound)
      ensures caller.Anonymous? && Truthy(PresentedRefreshToken(cookieToken, bodyToken)) ==>
        var t := PresentedRefreshToken(cookieToken, bodyToken).value;
        match env.verify(t, env.refreshSecret)
        case None => r == Failure(401, InvalidOrExpiredToken)
        case Some(c) =>
          && (c.id !in old(users) ==> r == Failure(404, NoUserForRefreshToken))
          && (c.id in old(users) && old(users)[c.id].refreshToken != Some(t) ==> r == Failure(401, RefreshTokenMismatch))
      ensures r.Failure? ==> users == old(users)
      ensures r.Success? <==>
        caller.Anonymous? && Truthy(PresentedRefreshToken(cookieToken, bodyToken))
        && RefreshAccepts(old(users), env, PresentedRefreshToken(cookieToken, bodyToken).value)
      ensures r.Success? ==>
        var t := PresentedRefreshToken(cookieToken, bodyToken).value;
        var id := env.verify(t, env.refreshSecret).value.id;
        && r == Success(200, AccessTokenUpdated, SetTokens(minted))
        && users == WithRefreshToken(old(users), id, Some(minted.refresh))
    {
      if caller.Resolved? {
        return Failure(401, AccessTokenNotExpired);
      }
      var currentRefreshToken := PresentedRefreshToken(cookieToken, bodyToken);
      if !Truthy(currentRefreshToken) {
        return Failure(404, RefreshTokenNotFound);
      }
      var t := currentRefreshToken.value;
      var verified := env.verify(t, env.refreshSecret);
      if verified.None? {
        return CatchRefreshError(OtherError);
      }
      var id := verified.value.id;
      if id !in users {
        return CatchRefreshError(ApiError(404, NoUserForRefreshToken));
      }
      if users[id].refreshToken != Some(t) {
        return CatchRefreshError(ApiError(401, RefreshTokenMismatch));
      }
      var tokens := IssueTokens(Some(id), minted);
      return Success(200, AccessTokenUpdated, SetTokens(tokens.value));
    }

    /**
     * `handleChangePassword`: checks, in order, that the caller is logged in,
     * both fields are present, both pass the password schema, the caller's
     * document exists and the old password matches; then stores the hash of
     * the new password and nothing else.
     */
    method ChangePassword(env: Env, caller: Identity, body: PasswordBody) returns (r: Reply)
      requires Valid()
      modifies this`users
      ensures Valid()
      ensures caller.Anonymous? ==> r == Failure(401, PasswordNotLoggedIn)
      ensures caller.Resolved? && body.AnyBlank() ==> r == Failure(400, AllFieldsRequired)
      ensures caller.Resolved? && !body.AnyBlank() ==>
        var oldCheck := env.passwordSchema(body.oldPassword.value);
        var newCheck := env.passwordSchema(body.newPassword.value);
        var id := caller.user.id;
        && (oldCheck.Rejected? ==> r == Failure(400, "Old password " + oldCheck.detail))
        && (oldCheck.Accepted? && newCheck.Rejected? ==> r == Failure(400, "New password " + newCheck.detail))
        && (oldCheck.Accepted? && newCheck.Accepted? && id !in old(users) ==> r == Failure(404, NoUserForPassword))
        && (oldCheck.Accepted? && newCheck.Accepted? && id in old(users) && !env.matches(oldCheck.data, old(users)[id].passwordHash) ==>
              r == Failure(400, IncorrectOldPassword))
      ensures r.Failure? ==> users == old(users)
      ensures r.Success? <==>
        && caller.Resolved? && !body.AnyBlank()
        && env.passwordSchema(body.oldPassword.value).Accepted?
        && env.passwordSchema(body.newPassword.value).Accepted?
        && caller.user.id in old(users)
        && env.matches(env.passwordSchema(body.oldPassword.value).data, old(users)[caller.user.id].passwordHash)
      ensures r.Success? ==>
        var id := caller.user.id;
        var hashed := env.hash(env.passwordSchema(body.newPassword.value).data);
        && r == Success(201, PasswordChanged, NoEffect)
        && users == old(users)[id := old(users)[id].(passwordHash := hashed)]
        && users[id].refreshToken == old(users)[id].refreshToken
    {
      if caller.Anonymous? {
        return Failure(401, PasswordNotLoggedIn);
      }
      if body.AnyBlank() {
        return Failure(400, AllFieldsRequired);
      }
      var oldCheck := env.passwordSchema(body.oldPassword.value);
      if oldCheck.Rejected? {
        return Failure(400, "Old password " + oldCheck.detail);
      }
      var newCheck := env.passwordSchema(body.newPassword.value);
      if newCheck.Rejected? {
        return Failure(400, "New password " + newCheck.detail);
      }
      var id := caller.user.id;
      if id !in users {
        return Failure(404, NoUserForPassword);
      }
      if !env.matches(oldCheck.data, users[id].passwordHash) {
        return Failure(400, IncorrectOldPassword);
      }
      UpdateKeepsDistinct(users, id, users[id].(passwordHash := env.hash(newCheck.data)));
      users := users[id := users[id].(passwordHash := env.hash(newCheck.data))];
      return Success(201, PasswordChanged, NoEffect);
    }

    /** `handleGetCurrentUser`: the caller's document without its password and refresh token. */
    method GetCurrentUser(caller: Identity) returns (r: Reply)
      ensures caller.Anonymous? ==> r == Failure(401, CurrentUserUnauthorized)
      ensures caller.Resolved? && caller.user.id !in users ==> r == Failure(404, UserNotFound)
      ensures caller.Resolved? && caller.user.id in users ==>
        var id := caller.user.id;
        var rec := users[id];
        && r.Success? && r.status == 200 && r.message == UserDetailsFound && r.effect.Details?
        && r.effect.user == PublicUser(id, rec.username, rec.fullName, rec.email, rec.avatar, rec.coverImage)
    {
      if caller.Anonymous? {
        return Failure(401, CurrentUserUnauthorized);
      }
      var id := caller.user.id;
      if id !in users {
        return Failure(404, UserNotFound);
      }
      var rec := users[id];
      return Success(200, UserDetailsFound, Details(PublicUser(id, rec.username, rec.fullName, rec.email, rec.avatar, rec.coverImage)));
    }
  }
}
