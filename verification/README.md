# Session and refresh-token lifecycle of a video-sharing backend

This project models the authentication core of a video-sharing REST backend.
The core has two parts:

- The user controller's auth handlers: register, login (with token issuance), logout, refresh-token rotation, change password and get-current-user.
- The request-identity middleware `verifyJWT`.

Each handler is a method of the class `UserController.UserStore`. The class holds the user collection as a `map<UserId, UserRecord>`. Its invariant `Valid()` says two things: ids are below the next id to be handed out, and no two documents share a username or an email. Each handler runs as one atomic step. It returns a `Reply`: either `Success(status, message, effect)` or `Failure(status, message)`. The effect is setting both token cookies, clearing them, or returning the sanitised user. The status and message are the ones the handler's `ApiError` carries, which the error wrapper sends as `statusCode || 500`.

The refresh token is gated twice (`UserController.RefreshAccepts`). First, it must verify under the refresh-token secret. Second, it must be exactly the token stored in the document its claims name. Logout unsets the stored token. A successful refresh or login stores the newly minted one.

The middleware is the total function `AuthMiddleware.Resolve`: it maps the cookie, the header and the verifier to `Resolved(claims)` or `Anonymous`. The class `AuthMiddleware.Request` records how `verifyJWT` assigns `req.user` and then calls `next`.

Collaborators whose code is not part of this model are fields of the configuration datatype `UserModel.Env`:

- `verify` stands for `jsonwebtoken`'s `verify`. It returns `None` where that function throws (bad signature, malformed or expired token).
- `hash` and `matches` stand for the password hashing save hook and `matchPassword`. `src/models/user.model.js` shows neither.
- `registerSchema`, `loginSchema` and `passwordSchema` stand for the validation schemas' `safeParse`. Each returns the parsed data or the formatted issue text.

Token minting is an abstract generator. Each call that mints receives the pair it would produce as the parameter `minted`, and the model never assumes a new token differs from the old one. Uploads to the media host are represented only by their resulting URLs, which are parameters of `RegisterUser`.

Details of the code that the model keeps as written:

- Registration refuses a username OR an email that is already taken.
- Login looks the account up by the email exactly as sent, but checks the password in its validated form.
- The "Bearer " prefix is removed wherever its first occurrence stands, not only at the start of the header.
- Three branches cannot be taken in a sequential run, and the model has no path for them. First, the register guard at `src/controllers/user.controller.js:121-123`: `User.create` either resolves to the created document or rejects, so `!newUser` never holds; its rejection is a store failure, listed under "Left out". Second, the login guard at `:168-170`, and third, the null destructuring at `:230-231`: in both, the document was found a moment before, and no flow deletes documents.

## Model

| member | source | states |
|---|---|---|
| `JsString.FirstNonWhitespace` | src/controllers/user.controller.js:50 | the result is the first position at or after the start that holds a non-whitespace character, or the end: everything skipped is whitespace |
| `JsString.AfterLastNonWhitespace` | src/controllers/user.controller.js:50 | the result is one past the last non-whitespace character in the given range, or the range's start: everything skipped from the back is whitespace |
| `JsString.Trim` | src/controllers/user.controller.js:50 | `trim()` returns the slice of the input that starts at its first non-whitespace character; everything before and after that slice is whitespace, the slice neither starts nor ends with whitespace, and it is empty exactly when every character of the input is whitespace |
| `JsString.Blank` | src/controllers/user.controller.js:48-54 | the "field is missing or blank" guard holds exactly for a missing field or one made only of whitespace |
| `JsString.IndexFrom` | src/middlewares/auth.middleware.js:6 | the result is the first occurrence of the pattern at or after the start position, or none exists from there on |
| `JsString.IndexOf` | src/middlewares/auth.middleware.js:6 | the result is the first occurrence of the pattern, or the pattern occurs nowhere |
| `JsString.ReplaceFirst` | src/middlewares/auth.middleware.js:6 | `replace` with a string pattern that does not occur returns the input unchanged; otherwise the text before the first occurrence is kept, the replacement takes the pattern's place, the text after it is kept, and the length changes by the difference of the two lengths |
| `JsString.ReplaceFirstCutsFirstOccurrence` | src/middlewares/auth.middleware.js:6 | `replace` with a string pattern replaces its first occurrence wherever it stands, leaving the text before and after intact |
| `JsString.PrefixRemoved` | src/middlewares/auth.middleware.js:6 | replacing a leading pattern by "" leaves exactly the text after it |
| `AuthMiddleware.CandidateToken` | src/middlewares/auth.middleware.js:4-6 | a truthy `accessToken` cookie is the candidate; otherwise there is a candidate exactly when an `Authorization` header is present, and it is no longer than the header |
| `AuthMiddleware.BearerHeaderYieldsToken` | src/middlewares/auth.middleware.js:4-6 | without a truthy cookie, the header "Bearer <t>" yields exactly `<t>` |
| `AuthMiddleware.BearerRemovedAnywhere` | src/middlewares/auth.middleware.js:4-6 | without a truthy cookie, the first "Bearer " is cut out of the header even when other text precedes it |
| `AuthMiddleware.HeaderWithoutBearerKept` | src/middlewares/auth.middleware.js:4-6 | without a truthy cookie, a header that contains no "Bearer " is itself the candidate |
| `AuthMiddleware.CookieTakesPrecedence` | src/middlewares/auth.middleware.js:4-6 | with a truthy cookie, the resolved identity does not depend on the header |
| `AuthMiddleware.ClaimsToUser` | src/middlewares/auth.middleware.js:19-26 | the identity attached to the request holds the payload's `_id`, `username`, `fullName`, `email`, `avatar` and `coverImage` exactly as the token carries them |
| `AuthMiddleware.Resolve` | src/middlewares/auth.middleware.js:3-33 | the identity is Resolved exactly when a truthy candidate exists and verifies under the access-token secret; it then holds exactly the payload's `_id`, `username`, `fullName`, `email`, `avatar` and `coverImage`; in every other case it is Anonymous, never an error, and no store is consulted |
| `AuthMiddleware.Request.VerifyJwt` | src/middlewares/auth.middleware.js:3-33 | `req.user` becomes the resolved identity, and the request's event trace gains exactly one assignment of it followed by exactly one call of `next` |
| `UserController.UsernameOrEmailTaken` | src/controllers/user.controller.js:77-82 | the `$or` duplicate query matches a document with that username or that email; when it finds nothing, no document has the username and none has the email |
| `UserController.RefreshAccepts` | src/controllers/user.controller.js:210-228 | an accepted refresh token verifies under the refresh-token secret and is exactly the token stored in the document it names; a token that no document stores is never accepted |
| `UserController.PresentedRefreshToken` | src/controllers/user.controller.js:202-203 | the presented token is the cookie or the body value, and it is truthy exactly when one of the two is |
| `UserController.CatchRefreshError` | src/controllers/user.controller.js:241-246 | an `ApiError` raised in the refresh handler keeps its status and message; any other error becomes 401 "Invalid or expired token" |
| `UserController.AddKeepsDistinct` | src/controllers/user.controller.js:77-86 | adding a document whose username and email are both unused keeps usernames and emails distinct across the store |
| `UserController.UpdateKeepsDistinct` | src/controllers/user.controller.js:305-307 | changing a document without touching its username or email keeps them distinct |
| `UserController.OneAcceptedTokenPerUser` | src/controllers/user.controller.js:223 | two refresh tokens accepted for the same user are the same token: one slot per user |
| `UserController.UnsetTokenRejectsAll` | src/controllers/user.controller.js:186-189 | once a user's stored refresh token is unset, no token that names the user, or fails verification, is accepted |
| `UserController.RotationRetiresOtherTokens` | src/controllers/user.controller.js:223-231 | after the stored token is rotated to a minted one, a verifying token naming that user is accepted if and only if it is the minted token |
| `UserController.OtherUsersUnaffected` | src/controllers/user.controller.js:31 | setting or unsetting one user's refresh token does not change whether tokens naming other users are accepted |
| `UserController.CookiePreferredOverBody` | src/controllers/user.controller.js:202-203 | with a truthy refresh-token cookie, the presented token is the cookie and the body's value is never read |
| `UserController.AccountWithEmail` | src/controllers/user.controller.js:154 | the document found has exactly that email, or no document has it |
| `UserController.AccountWithEmailIsOwner` | src/controllers/user.controller.js:154 | while emails are distinct, the document found for an email is the one document that has it |
| `UserController.UserStore.FindByEmail` | src/controllers/user.controller.js:154 | the result is a document with exactly that email, or no document has it; it is the document the login contract refers to |
| `UserController.UserStore.IssueTokens` | src/controllers/user.controller.js:17-39 | null when the id is missing or has no document, and the store is then unchanged; otherwise the minted pair is returned and only that document's stored refresh token changes, to the minted refresh token |
| `UserController.UserStore.RegisterUser` | src/controllers/user.controller.js:41-126 | 400 when the caller is logged in, when a field is blank, or when the schema rejects the input; 409 when the validated username OR email is taken; every failure leaves the store unchanged; success (201) happens exactly when none of these apply, adds exactly one document under a fresh id, with the validated fields, the hashed password and no refresh token, and keeps credentials distinct |
| `UserController.UserStore.LoginUser` | src/controllers/user.controller.js:128-179 | 400 when logged in, blank or rejected; 404 when no document has the email as sent; 401 when the validated password does not match; no stored token changes on any failure; success (200, both cookies set) happens exactly when a document has the email and its password matches, and it stores the minted refresh token in that document only |
| `UserController.UserStore.LogoutUser` | src/controllers/user.controller.js:181-195 | 401 and no change for an anonymous caller; otherwise 200 with both cookies cleared, the caller's stored refresh token unset, and every other document unchanged |
| `UserController.UserStore.RefreshAccessToken` | src/controllers/user.controller.js:197-247 | 401 when an access token is still valid; 404 when neither the cookie nor the body has a token, with the cookie preferred; 401 "Invalid or expired token" when verification fails; 404 when the named user is gone; 401 when the token differs from the stored one; success happens exactly when the double gate accepts the presented token, and the stored token then becomes the minted one; the store is unchanged on failure |
| `UserController.UserStore.ChangePassword` | src/controllers/user.controller.js:249-310 | in this order: 401 when anonymous, 400 when a field is blank, 400 for a rejected old and then new password, 404 when the document is gone, 400 when the old password does not match; failures leave the store unchanged; on success (201) only that document's password hash changes, to the hash of the validated new password, and its refresh token is untouched |
| `UserController.UserStore.GetCurrentUser` | src/controllers/user.controller.js:312-329 | 401 when anonymous; 404 when the document is gone; otherwise 200 with the document's id, username, full name, email, avatar and cover image, and never its password hash or refresh token |
| `Scenarios.LogoutRevokesRefresh` | src/controllers/user.controller.js:181-247 | after a logged-in user logs out, a refresh presenting any token that names that user, or fails verification, is refused with 401 |
| `Scenarios.RefreshTokenSingleUse` | src/controllers/user.controller.js:197-247 | after a successful refresh, replaying the same token is refused with 401, unless the newly minted token is the same string; the replay may be checked later, by a verifier that may reject the now expired token: if it still verifies the answer is "Refresh token does not match", otherwise "Invalid or expired token" |
| `Scenarios.SecondRegistrationConflicts` | src/controllers/user.controller.js:77-86 | if a registration succeeds, the same registration again is refused with 409, and the store has grown by exactly one |
| `Scenarios.PasswordChangeThenLogin` | src/controllers/user.controller.js:249-310 | after a successful password change, login with the old password is refused with 401 (when the new hash does not match it), and the stored refresh token is unchanged |
| `Scenarios.LoginThenRefresh` | src/controllers/user.controller.js:128-247 | after a successful login, a refresh presenting the stored refresh token succeeds, when that token names the account, and the account's stored refresh token becomes the next minted one |

## Left out

- JSON Web Token signing, verification and expiry, and the access and refresh token generators, are abstract. Their code is not part of this model (it lives in `jsonwebtoken` and in model methods that `src/models/user.model.js` does not show).
- UserController.UserStore.IssueTokens: does not claim the new refresh token differs from the old one. Two tokens minted for the same id in the same second can be identical.
- Password hashing and `matchPassword` are abstract. The model does not assume that a password matches its own hash, or that no other password matches it. `hash` depends on the plaintext alone, so hashing one password twice gives the same stored hash in the model, whereas a salted save hook gives a new one each time; nothing proved here depends on that.
- The validation schemas are abstract functions. How they transform input and format their issue text is not modelled, because `src/schemas/userRegister.schema.js` is not part of this model.
- Uploads to the media host during registration (`src/controllers/user.controller.js:88-110`) are left out, and so is their failure. Only the resulting URLs are modelled, as parameters. The image ids stored beside them are not kept.
- The avatar and cover-image handlers, the channel-profile and watch-history aggregations, and the video controller are CDN or database-pipeline glue, not part of the session lifecycle.
- Store and driver failures are not modelled: `save`, `create` or `updateOne` rejecting, which the error wrapper turns into 500. This also covers the `catch` at `src/controllers/user.controller.js:36-38`.
- The malformed `ApiError` at `src/controllers/user.controller.js:169` has no path in the model. It could only be reached if the document vanished between two reads.
- A verified payload whose `_id` is missing or is not a document id is not modelled, nor is the resulting cast error. Only the server's own generators sign tokens, and they always embed the id.
- Request fields that are not strings are not modelled: numbers in the JSON body, and cookies that the cookie parser decodes into objects. They would make `trim` or `verify` throw.
- The store's own field options (`trim`, `lowerCase`) on username and email are not modelled. The store compares values exactly as the handlers pass them.
- Cookie attributes, routing, Express wiring, the response envelopes and process start-up are left out.
- Concurrent handlers racing on the same document's refresh token are left out. Each handler is one atomic sequential step.
