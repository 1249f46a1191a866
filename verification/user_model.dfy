/**
 * The user record the authentication core reads and writes, the claims a
 * verified token carries, the identity a request is resolved to, and the
 * collaborators whose code is not part of this model (token verification,
 * password hashing, input-shape validation).
 */
module UserModel {
  import opened Wrappers
  import opened JsString

  /** Document ids are assigned by the store and never reused. */
  type UserId = nat
  type Token = string

  /**
   * A stored user document. `passwordHash` is whatever the store's save hook
   * derived from the plaintext; `refreshToken` is the single current refresh
   * token, absent once unset by logout.
   */
  datatype UserRecord = UserRecord(
    username: string,
    fullName: string,
    email: string,
    passwordHash: string,
    avatar: Option<string>,
    coverImage: Option<string>,
    refreshToken: Option<Token>)

  /**
   * The payload of a verified token. Refresh tokens carry only `id`; access
   * tokens carry the profile fields as they were at issue time. Expiry is
   * decided inside the verifier, so the registered time claims are not kept.
   */
  datatype Claims = Claims(
    id: UserId,
    username: Option<string>,
    fullName: Option<string>,
    email: Option<string>,
    avatar: Option<string>,
    coverImage: Option<string>)

  /** The six fields the request-identity middleware attaches as `req.user`. */
  datatype RequestUser = RequestUser(
    id: UserId,
    username: Option<string>,
    fullName: Option<string>,
    email: Option<string>,
    avatar: Option<string>,
    coverImage: Option<string>)

  /** `req.user`: a populated claim set, or `null`. */
  datatype Identity = Anonymous | Resolved(user: RequestUser)

  datatype TokenPair = TokenPair(access: Token, refresh: Token)

  /** What an input-shape schema returns: the parsed data or a formatted issue text. */
  datatype Validation<T> = Accepted(data: T) | Rejected(detail: string)

  datatype RegisterForm = RegisterForm(username: string, fullName: string, email: string, password: string)
  datatype LoginForm = LoginForm(email: string, password: string)

  /** The text fields of a registration request body; each may be missing. */
  datatype RegisterBody = RegisterBody(
    username: Option<string>, fullName: Option<string>, email: Option<string>, password: Option<string>)
  {
    predicate AnyBlank() { Blank(username) || Blank(fullName) || Blank(email) || Blank(password) }

    function Form(): RegisterForm
      requires !AnyBlank()
    {
      RegisterForm(username.value, fullName.value, email.value, password.value)
    }
  }

  /** The fields of a login request body. */
  datatype LoginBody = LoginBody(email: Option<string>, password: Option<string>)
  {
    predicate AnyBlank() { Blank(email) || Blank(password) }

    function Form(): LoginForm
      requires !AnyBlank()
    {
      LoginForm(email.value, password.value)
    }
  }

  /** The fields of a change-password request body. */
  datatype PasswordBody = PasswordBody(oldPassword: Option<string>, newPassword: Option<string>)
  {
    predicate AnyBlank() { Blank(oldPassword) || Blank(newPassword) }
  }

  /**
   * Process-wide configuration and the collaborators the core calls but does
   * not define: `verify` stands for `jwt.verify` (None when it throws: bad
   * signature, malformed or expired token), `hash` for the save hook that
   * hashes a plaintext password, `matches` for the record's `matchPassword`,
   * and the three schemas for the validation library's `safeParse`.
   */
  datatype Env = Env(
    verify: (Token, string) -> Option<Claims>,
    accessSecret: string,
    refreshSecret: string,
    hash: string -> string,
    matches: (string, string) -> bool,
    registerSchema: RegisterForm -> Validation<RegisterForm>,
    loginSchema: LoginForm -> Validation<LoginForm>,
    passwordSchema: string -> Validation<string>)
}
