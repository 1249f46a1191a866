/**
 * The request-identity middleware `verifyJWT`: it picks a candidate access
 * token, verifies it with the access-token secret, and attaches either the
 * verified claims or `null` as `req.user`. It never rejects a request and
 * never consults the user store.
 */
module AuthMiddleware {
  import opened Wrappers
  import opened JsString
  import opened UserModel

  const BearerPrefix: string := "Bearer "

  /**
   * `req.cookies?.accessToken || req.header("Authorization")?.replace("Bearer ", "")`:
   * a truthy cookie wins; otherwise the header with its first "Bearer "
   * removed; otherwise nothing.
   */
  function CandidateToken(cookie: Option<string>, authorization: Option<string>): (t: Option<string>)
    ensures Truthy(cookie) ==> t == cookie
    ensures !Truthy(cookie) ==> (t.Some? <==> authorization.Some?)
    ensures !Truthy(cookie) && t.Some? ==> |t.value| <= |authorization.value|
  {
    if Truthy(cookie) then cookie
    else match authorization
      case None => None
      case Some(header) => Some(ReplaceFirst(header, BearerPrefix, ""))
  }

  /**
   * The identity copied from a verified payload: the id and the five
   * profile fields exactly as the token carries them, nothing read from the
   * user store.
   */
  function ClaimsToUser(c: Claims): (u: RequestUser)
    ensures u.id == c.id && u.username == c.username && u.fullName == c.fullName
    ensures u.email == c.email && u.avatar == c.avatar && u.coverImage == c.coverImage
  {
    RequestUser(c.id, c.username, c.fullName, c.email, c.avatar, c.coverImage)
  }

  /**
   * The value `verifyJWT` assigns to `req.user`. Total: every failure of
   * verification degrades to `Anonymous`.
   */
  function Resolve(env: Env, cookie: Option<string>, authorization: Option<string>): (id: Identity)
    ensures
      var t := CandidateToken(cookie, authorization);
      id.Resolved? <==> Truthy(t) && env.verify(t.value, env.accessSecret).Some?
    ensures
      var t := CandidateToken(cookie, authorization);
      id.Resolved? ==>
        var c := env.verify(t.value, env.accessSecret).value;
        && id.user.id == c.id && id.user.username == c.username
        && id.user.fullName == c.fullName && id.user.email == c.email
        && id.user.avatar == c.avatar && id.user.coverImage == c.coverImage
  {
    var t := CandidateToken(cookie, authorization);
    if !Truthy(t) then Anonymous
    else match env.verify(t.value, env.accessSecret)
      case None => Anonymous
      case Some(c) => Resolved(ClaimsToUser(c))
  }

  /** A header of the form "Bearer <token>" yields exactly <token>. */
  lemma BearerHeaderYieldsToken(cookie: Option<string>, token: string)
    requires !Truthy(cookie)
    ensures CandidateToken(cookie, Some(BearerPrefix + token)) == Some(token)
  {
    PrefixRemoved(BearerPrefix, token);
  }

  /**
   * The first "Bearer " is cut out wherever it stands, not only as a prefix:
   * "Token Bearer abc" yields "Token abc".
   */
  lemma BearerRemovedAnywhere(cookie: Option<string>, before: string, after: string)
    requires !Truthy(cookie)
    requires forall j :: 0 <= j < |before| ==> !OccursAt(before + BearerPrefix + after, BearerPrefix, j)
    ensures CandidateToken(cookie, Some(before + BearerPrefix + after)) == Some(before + after)
  {
    ReplaceFirstCutsFirstOccurrence(before, BearerPrefix, after, "");
    assert before + "" + after == before + after;
  }

  /** A header without "Bearer " is passed on unchanged as the candidate. */
  lemma HeaderWithoutBearerKept(cookie: Option<string>, header: string)
    requires !Truthy(cookie)
    requires forall j :: 0 <= j <= |header| ==> !OccursAt(header, BearerPrefix, j)
    ensures CandidateToken(cookie, Some(header)) == Some(header)
  {
  }

  /** A truthy `accessToken` cookie decides alone: the header is never read. */
  lemma CookieTakesPrecedence(env: Env, cookie: Option<string>, h1: Option<string>, h2: Option<string>)
    requires Truthy(cookie)
    ensures Resolve(env, cookie, h1) == Resolve(env, cookie, h2)
  {
  }

  /** One thing the middleware does, in the order it does it. */
  datatype Event = AssignUser(user: Identity) | CallNext

  /**
   * The part of an incoming request the middleware reads (`accessToken`
   * cookie, `Authorization` header) and the part it writes (`req.user`);
   * `events` records the assignments to `req.user` and the calls to `next`.
   */
  class Request {
    const accessTokenCookie: Option<string>
    const authorization: Option<string>
    var user: Identity
    var events: seq<Event>

    constructor (accessTokenCookie: Option<string>, authorization: Option<string>)
      ensures this.accessTokenCookie == accessTokenCookie && this.authorization == authorization
      ensures user == Anonymous && events == []
    {
      this.accessTokenCookie := accessTokenCookie;
      this.authorization := authorization;
      user := Anonymous;
      events := [];
    }

    /**
     * `verifyJWT(req, res, next)`: on every path `req.user` is assigned
     * exactly once, to the resolved identity, and only then is `next`
     * called, exactly once.
     */
    method VerifyJwt(env: Env)
      modifies this
      ensures user == Resolve(env, accessTokenCookie, authorization)
      ensures events == old(events) + [AssignUser(user), CallNext]
    {
      var accessToken := CandidateToken(accessTokenCookie, authorization);
      if !Truthy(accessToken) {
        user := Anonymous;
        events := events + [AssignUser(user)];
        events := events + [CallNext];
        return;
      }
      var verified := env.verify(accessToken.value, env.accessSecret);
      if verified.Some? {
        user := Resolved(ClaimsToUser(verified.value));
        events := events + [AssignUser(user)];
        events := events + [CallNext];
      } else {
        user := Anonymous;
        events := events + [AssignUser(user)];
        events := events + [CallNext];
      }
    }
  }
}
