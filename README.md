# INFOJOBS authentication slice, modelled in Dafny

This project models two small stateful parts of the INFOJOBS job board.

- **The backend user document** (`backend/app/models/user.model.js`). This covers:
  - the schema's string rules: `""` defaults, the `lowercase` setter on username and email, the `required` validators, and the email `match` validator `/\S+@\S+.\S+/`;
  - the `pre('save')` avatar default;
  - the favourite-job list (`isFavorite`, `favorite`, `unfavorite`);
  - token issuing (`generateAccessToken`, `generateRefreshToken`);
  - the login response `toUserResponse`, which overwrites the single stored refresh token;
  - the read-only views `toUserDetails` and `toProfileJSON`.
- **The client's authentication state** (`frontend/src/app/core/services/user.service.ts`). `UserService` holds three pieces of state:
  - the JWT in local storage;
  - the current-user value, whose `{}` sentinel is `NoUser`;
  - the last value published on the authentication flag, which is `None` before the first publish.

  `populate`, `setAuth`, `purgeAuth`, `attemptAuth`, `getCurrentUser`, `update` and `logout` are methods on that state. Each takes the server's reply as a parameter.

Files and modules:

- `wrappers.dfy`, module `Wrappers`: the `Option` type.
- `schema_strings.dfy`, module `SchemaStrings`: lowercasing, defaults and the email pattern.
  - The regular expression has no `u` flag, so JavaScript matches it against the string's UTF-16 code units. The pattern is therefore stated over code units (`Units`), and `Utf16` encodes a stored string into them.
  - The pattern is stated twice. `RegexMatches` reads the regular expression literally as "some substring splits into `\S+`, `@`, `\S+`, one non-line-terminator code unit, `\S+`". `IsValidEmail` is a linear decision procedure, and it is proved equal to `RegexMatches`.
  - The `.` in the pattern is not escaped. So no dot is needed, and a space is accepted where a dot would go: `a@bcd` and `a@b c` are valid, while `a@bc` and `a@b\nc` are not. Because the pattern reads code units, `a@b😀` is valid too: the emoji's two surrogate halves fill the `.` and the last `\S+`.
- `favorites.dfy`, module `Favorites`: the pure list operations.
  - `IndexOf` is the `indexOf` of a Mongoose array, which compares ObjectIds by their string form. The native `Array.prototype.indexOf` uses `===`, which tells two ObjectId objects with the same id apart.
  - `Pull` is `MongooseArray.remove`, which removes every copy of the value.
  - `AddFavorite` and `RemoveFavorite` give the list after `favorite` and `unfavorite`.
- `user_model.dfy`, module `UserModel`: the class `User`, whose fields are the schema's fields.
  - `jwt.sign` is a parameter `sign: SignRequest -> string`. A `SignRequest` holds the claims `{id, email}`, the secret, the `expiresIn` value and the issue time. Each call of `jwt.sign` reads the clock itself, so `ToUserResponse` takes a separate issue time for each of its two tokens.
  - `ToUserResponse` writes the new refresh token into the field immediately. The un-awaited `save()` is dropped.
- `user_service.dfy`, module `UserService`: the class `UserService`.
  - Each HTTP call becomes the `Request` the method returns, plus a `reply: Reply<T>` parameter (`Success(data)` or `Failure`). The method then runs the subscriber that the source attaches to that reply.
  - Local storage is the field `storedToken: Option<string>`.

Where the code departs from the behaviour one would expect, the model follows the code:

- The avatar default is reapplied on every save whose image is empty, not only at creation (`user.model.js:57-62`).
- `unfavorite` removes every copy of the id, because Mongoose's `remove` is `pull`. The code does not treat the list as a set.
- One expects the client to show a user exactly when the flag is `true` (`Consistent`). Every operation except `update` keeps that invariant. `update` keeps it only when the flag was already `true`: it writes the user without touching the flag. `UpdateWhileSignedOut` shows the state reached from a signed-out service.
- `populate` tests the stored token for JavaScript truthiness, so an empty stored token counts as no token (`HasToken`).
- The expiry fallback `process.env.X || "15m"` also applies when the variable is set to the empty string.

## Model

| member | source | states |
|---|---|---|
| SchemaStrings.OrDefault | backend/app/models/user.model.js:31-42 | a schema default applies exactly when the field is not given; a given value, even `""`, is kept |
| SchemaStrings.Lowercase | backend/app/models/user.model.js:13-30 | the stored username/email has the input's length, maps each character through ASCII lowercasing and holds no upper-case letter |
| SchemaStrings.LowercaseIdempotent | backend/app/models/user.model.js:17 | lowercasing an already stored value changes nothing |
| SchemaStrings.Utf16Lowercase | backend/app/models/user.model.js:17-28 | encoding the lowercased string into UTF-16 gives the same code units as lowercasing the encoded string unit by unit |
| SchemaStrings.RunEnd | backend/app/models/user.model.js:28 | returns the end of the maximal run of `\S` characters starting at k: everything before it is non-space and the character at it is a space |
| SchemaStrings.TailMatchesCorrect | backend/app/models/user.model.js:28 | the run-length test on the text after an `@` holds iff `\S+.\S+` can match there |
| SchemaStrings.MatchesFromCorrect | backend/app/models/user.model.js:28 | the scan from position p accepts iff the literal pattern matches with its `@` at some position at or after p |
| SchemaStrings.IsValidEmail | backend/app/models/user.model.js:28 | on a sequence of UTF-16 code units, the validator accepts exactly when `/\S+@\S+.\S+/` matches somewhere (unanchored, `.` is any code unit but a line terminator) |
| SchemaStrings.AcceptedHasAt | backend/app/models/user.model.js:28 | every accepted string has an `@` with at least one code unit before it and three after it |
| SchemaStrings.DotMatchesAnyCharacter | backend/app/models/user.model.js:28 | no literal dot is required: `a@bcd` and `a@b c` are accepted |
| SchemaStrings.DotMatchesHalfACharacter | backend/app/models/user.model.js:28 | `a@b😀` is accepted: the emoji's surrogate pair supplies both the `.` and the final `\S+` |
| SchemaStrings.RejectedExamples | backend/app/models/user.model.js:28 | `a@bc` (too short), `a@b\nc` (line break as the `.`) and `ab.cd` (no `@`) are rejected |
| SchemaStrings.LowercaseKeepsEmailVerdict | backend/app/models/user.model.js:23-30 | the ASCII lowercasing of this model, which runs before validation, never changes whether the email validator accepts |
| Favorites.IndexOf | backend/app/models/user.model.js:170 | `indexOf` is -1 iff the id is absent; otherwise it is the first index holding the id |
| Favorites.Pull | backend/app/models/user.model.js:178 | `remove(id)` leaves no copy of the id and keeps the number of occurrences of every other id |
| Favorites.PullDistributes | backend/app/models/user.model.js:178 | `remove` works element by element over a concatenation, so the remaining ids keep their relative order |
| Favorites.PullAbsent | backend/app/models/user.model.js:178 | removing an absent id leaves the list unchanged |
| Favorites.PullLength | backend/app/models/user.model.js:178 | removing shortens the list by exactly the number of copies of the id |
| Favorites.AddFavorite | backend/app/models/user.model.js:169-174 | after `favorite(id)` the id is present; the list is unchanged if it was present, else the id is appended at the end |
| Favorites.AddFavoriteIdempotent | backend/app/models/user.model.js:169-174 | favouriting twice equals favouriting once |
| Favorites.AddFavoriteKeepsNoDuplicates | backend/app/models/user.model.js:169-174 | `favorite` never introduces a duplicate into a duplicate-free list |
| Favorites.AddFavoriteTwiceOnce | backend/app/models/user.model.js:169-174 | favouriting a new job twice leaves exactly one entry for it |
| Favorites.RemoveFavorite | backend/app/models/user.model.js:176-181 | after `unfavorite(id)` the id is absent, all other ids keep their counts, and the result is the order-preserving `remove` whether or not the id was there |
| Favorites.RemoveFavoriteAbsent | backend/app/models/user.model.js:176-181 | `unfavorite` of an absent id is a no-op |
| Favorites.RemoveFavoriteLength | backend/app/models/user.model.js:176-181 | `unfavorite` shortens the list by exactly the number of copies of the id |
| Favorites.RemoveUndoesAdd | backend/app/models/user.model.js:169-181 | `unfavorite` undoes a `favorite` of an id that was not a favourite |
| UserModel.ExpirationOr | backend/app/models/user.model.js:75 | a configured non-empty expiry wins; an unset or empty one falls back; the result is never empty when the fallback is not |
| UserModel.ImageAfterSave | backend/app/models/user.model.js:57-62 | an empty image becomes the avatar URL built from the username; a non-empty image is kept; the result is never empty |
| UserModel.ImageAfterSaveIdempotent | backend/app/models/user.model.js:57-62 | applying the pre-save rule twice gives the same image as applying it once |
| UserModel.SchemaErrors | backend/app/models/user.model.js:13-30 | username and password fail iff absent, `null` or `""`; email passes iff it is present, non-empty and the pattern matches its UTF-16 code units |
| UserModel.User.constructor | backend/app/models/user.model.js:6-55 | a new record keeps every given field; `bio`, `image` and `refresh_token` default to `""` and both lists to `[]`; username and email are stored lowercased |
| UserModel.User.PreSave | backend/app/models/user.model.js:57-62 | the hook sets an empty image to the avatar URL, leaves a non-empty one alone, and changes no other field |
| UserModel.User.IsFavorite | backend/app/models/user.model.js:158-166 | returns true iff some entry of `favoriteJob` equals the id; the record is not changed |
| UserModel.User.Favorite | backend/app/models/user.model.js:169-174 | the list becomes `AddFavorite` of the old list; the id is then present and no duplicate appears |
| UserModel.User.Unfavorite | backend/app/models/user.model.js:176-181 | the list becomes `RemoveFavorite` of the old list; the id is then absent, and an absent id leaves the list unchanged |
| UserModel.User.AccessTokenRequest | backend/app/models/user.model.js:66-78 | the access token is signed over the claims `{id, email}` with the access secret at the given time; its lifetime is `ExpirationOr` of the configured value: that value when non-empty, `15m` when unset or `""`, never empty |
| UserModel.User.RefreshTokenRequest | backend/app/models/user.model.js:80-93 | the refresh token is signed over the same claims with the refresh secret; its lifetime is `ExpirationOr` of the configured value: that value when non-empty, `7d` when unset or `""`, never empty |
| UserModel.TokensShareClaims | backend/app/models/user.model.js:66-93 | the two tokens of a login carry equal claims; with no configured lifetimes their lifetimes differ |
| UserModel.User.ToUserResponse | backend/app/models/user.model.js:96-112 | the stored refresh token becomes the newly signed refresh token; the response's `refresh_token` equals it, `token` is the signed access token, and the rest equals `toUserDetails` |
| UserModel.LoginTwice | backend/app/models/user.model.js:96-112 | after two logins the stored refresh token is the second one, so a differing first refresh token no longer matches |
| UserModel.User.ToUserDetails | backend/app/models/user.model.js:114-122 | returns exactly username, email, bio and image; it has no token field and, being a function, changes nothing |
| UserModel.User.ToProfileJSON | backend/app/models/user.model.js:124-132 | the public profile is the current-user view with the email removed; it carries no token |
| UserService.AuthPath | frontend/src/app/core/services/user.service.ts:62-63 | `login` posts to `/users/login`; every other kind posts to `/users/register` |
| UserService.UserService.constructor | frontend/src/app/core/services/user.service.ts:12-16 | a new service shows the empty user, has published no flag, and is consistent |
| UserService.UserService.SetAuth | frontend/src/app/core/services/user.service.ts:43-50 | the stored token becomes the user's token, the current user becomes the user, and the flag becomes `true` |
| UserService.UserService.PurgeAuth | frontend/src/app/core/services/user.service.ts:52-59 | the token is removed, the current user becomes the empty sentinel, and the flag becomes `false`; from that state a second call changes nothing |
| UserService.UserService.Populate | frontend/src/app/core/services/user.service.ts:25-41 | without a truthy token: no request and the purged state; with one and a success: signed in as the server user with the local token, which stays stored; with one and a failure: purged |
| UserService.UserService.AttemptAuth | frontend/src/app/core/services/user.service.ts:61-76 | posts the credentials to the login or register route; only a successful login signs in; otherwise nothing changes; the reply is returned unchanged |
| UserService.UserService.GetCurrentUser | frontend/src/app/core/services/user.service.ts:78-80 | returns the value last assigned to the current user |
| UserService.UserService.Update | frontend/src/app/core/services/user.service.ts:82-91 | on success the current user becomes the server's user while the token and the flag stay; on failure nothing changes; consistency is kept when signed in |
| UserService.UserService.Logout | frontend/src/app/core/services/user.service.ts:93-100 | a successful reply leads to the purged state; a failure changes nothing |
| UserService.UpdateWhileSignedOut | frontend/src/app/core/services/user.service.ts:82-91 | from a fresh signed-out service, a successful `update` shows a user while no flag has been published, which breaks `Consistent` |

## Left out

- SchemaStrings.Lowercase: maps only `A`–`Z`. JavaScript's `toLowerCase` also folds letters outside ASCII; modelling that would need the Unicode case tables.
- SchemaStrings.LowercaseKeepsEmailVerdict: holds for the ASCII-only `Lowercase` of this model. JavaScript's `toLowerCase` can change the verdict: it turns `İ` (U+0130) into two code points, so `a@bİ` is rejected while its lowercased form is accepted.
- UserModel.User.Favorite: `JobId` stands for the canonical (lower-case hex) string of an ObjectId. Mongoose's `push` casts its argument to an ObjectId. That cast is not modelled: the `CastError` thrown for a string that is not an ObjectId, and the canonicalisation of an upper-case hex id. In the source, such an id is stored lowercased, so a later `indexOf` with the original string misses it and a repeated `favorite` pushes a duplicate.
- UserModel.User.constructor: username, password and email are plain strings, so a record built without one of them, or with `null`, is outside the class; `SchemaErrors` takes optional values and rejects that case. A given `null` for an optional field is kept by Mongoose (defaults apply only to `undefined`); `OrDefault` has no `null`.
- Persistence: `save()` and its promise, `timestamps`, and the `unique` indexes with `mongoose-unique-validator`. Uniqueness across documents is a database query.
- The ObjectId and the `uuidv4()` value are constructor parameters, because they come from randomness.
- The internals of `jsonwebtoken` are the parameter `sign`. Signing and verification, and the error `jwt.sign` throws when a secret is unset, are not modelled.
- `isFollowing` (`user.model.js:134-142`) is not modelled. It loops over `followingUsers`, a field the schema never declares (it declares `following`), so it fails as soon as it is called. The commented-out `follow` and `unfollow` are not modelled either.
- The unused `user` argument of `toProfileJSON` is dropped. The line that would read it is commented out.
- The session handlers for login, register, current-user and refresh, and `backend/app/api/index.js` (Express, CORS, the Mongo connection, `listen`), are not part of this model.
- RxJS delivery is not modelled: when subscribers run, replay to late subscribers, and `distinctUntilChanged`. Only the latest value of each channel is modelled. The Observables returned by `attemptAuth`, `update` and `logout` are cold, and they are modelled as if subscribed once.
- `ApiService` and `JwtService` are stood in for by the returned `Request`, the `reply` parameter and the `storedToken` field. The client `User` has the five fields of its interface. Extra reply members that the spread in `populate` or `setAuth(data.user)` would carry along, such as `refresh_token`, are not kept.
