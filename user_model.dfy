/**
 * The user document of the backend: its schema fields and defaults, the
 * pre-save avatar rule, the email/required validation, the favourite-job
 * list, token issuing and the three views the document hands out.
 *
 * JWT signing is a parameter `sign`, a function of everything `jwt.sign`
 * is given; the issue time each `jwt.sign` call reads from the clock is a
 * parameter too.
 * Persistence (`save()`) is not part of this model: field writes are final.
 */
module UserModel {
  import opened Wrappers
  import opened SchemaStrings
  import opened Favorites

  /** A document's ObjectId. */
  type ObjectId = string

  /** The configuration read from `process.env`. */
  datatype Env = Env(
    accessTokenSecret: Option<string>,
    accessTokenExpiration: Option<string>,
    refreshTokenSecret: Option<string>,
    refreshTokenExpiration: Option<string>)

  /** The payload `{ user: { id, email } }` of both tokens. */
  datatype Claims = Claims(id: ObjectId, email: string)

  /** Everything one call of `jwt.sign` depends on. */
  datatype SignRequest = SignRequest(claims: Claims, secret: Option<string>, expiresIn: string, issuedAt: int)

  /** The object `toUserResponse` returns on login. */
  datatype UserResponse = UserResponse(
    username: string, email: string, bio: string, image: string, token: string, refreshToken: string)

  /** The object `toUserDetails` returns for the current user. */
  datatype UserDetails = UserDetails(username: string, email: string, bio: string, image: string)

  /** The object `toProfileJSON` returns for a public profile. */
  datatype ProfileJson = ProfileJson(username: string, bio: string, image: string)

  /** The schema paths whose validators can fail. */
  datatype Path = Username | Password | Email

  const DefaultAccessExpiration := "15m"
  const DefaultRefreshExpiration := "7d"
  const AvatarService := "https://i.pravatar.cc/150?u="

  /** `process.env.X || fallback`: an unset or empty variable falls back. */
  function ExpirationOr(configured: Option<string>, fallback: string): (r: string)
    ensures configured.Some? && configured.value != "" ==> r == configured.value
    ensures configured.None? || configured.value == "" ==> r == fallback
    ensures fallback != "" ==> r != ""
  {
    if configured.Some? && configured.value != "" then configured.value else fallback
  }

  /** The image after the pre-save hook: an empty image becomes the avatar URL for the username. */
  function ImageAfterSave(image: string, username: string): (r: string)
    ensures r != ""
    ensures image != "" ==> r == image
    ensures image == "" ==> r == AvatarService + username
  {
    if image == "" then AvatarService + username else image
  }

  /** Running the hook on every save does not keep changing the image. */
  lemma ImageAfterSaveIdempotent(image: string, username: string)
    ensures ImageAfterSave(ImageAfterSave(image, username), username) == ImageAfterSave(image, username)
  {
  }

  /** `required`: a missing (`undefined` or `null`) value and `""` are both rejected. */
  predicate Missing(v: Option<string>) {
    v.None? || v.value == ""
  }

  /**
   * The mongoose validators of the schema, on the stored (already lowercased)
   * values; `None` is a value that is absent or `null`.
   */
  function SchemaErrors(username: Option<string>, password: Option<string>, email: Option<string>): (errs: set<Path>)
    ensures Username in errs <==> username.None? || username.value == ""
    ensures Password in errs <==> password.None? || password.value == ""
    ensures Email !in errs <==> email.Some? && email.value != "" && RegexMatches(Utf16(email.value))
  {
    (if Missing(username) then {Username} else {})
    + (if Missing(password) then {Password} else {})
    // `required` rejects a missing value and ""; `match` lets those through and tests every other value.
    + (if Missing(email) || !IsValidEmail(Utf16(email.value)) then {Email} else {})
  }

  /** The login response without its two tokens. */
  function DetailsOf(r: UserResponse): UserDetails {
    UserDetails(r.username, r.email, r.bio, r.image)
  }

  /** The current-user view without the email. */
  function ProfileOf(d: UserDetails): ProfileJson {
    ProfileJson(d.username, d.bio, d.image)
  }

  class User {
    var id: ObjectId
    var uuid: string
    var username: string
    var password: string
    var email: string
    var bio: string
    var image: string
    var refreshToken: string
    var favoriteJob: seq<JobId>
    var following: seq<ObjectId>

    /**
     * `new User({...})`: fields that are not given take their defaults (`""`
     * for the strings, `[]` for the arrays) and the `lowercase` setter runs on
     * username and email.  The ObjectId and the `uuidv4()` value are parameters.
     */
    constructor (id: ObjectId, uuid: string, username: string, password: string, email: string,
                 bio: Option<string>, image: Option<string>, refreshToken: Option<string>,
                 favoriteJob: Option<seq<JobId>>, following: Option<seq<ObjectId>>)
      ensures this.id == id && this.uuid == uuid && this.password == password
      ensures this.username == Lowercase(username) && this.email == Lowercase(email)
      ensures this.bio == OrDefault(bio, "") && this.image == OrDefault(image, "")
      ensures this.refreshToken == OrDefault(refreshToken, "")
      ensures this.favoriteJob == favoriteJob.GetOr([]) && this.following == following.GetOr([])
    {
      this.id := id;
      this.uuid := uuid;
      this.username := Lowercase(username);
      this.password := password;
      this.email := Lowercase(email);
      this.bio := OrDefault(bio, "");
      this.image := OrDefault(image, "");
      this.refreshToken := OrDefault(refreshToken, "");
      this.favoriteJob := favoriteJob.GetOr([]);
      this.following := following.GetOr([]);
    }

    /** The `pre('save')` hook. */
    method PreSave()
      modifies this`image
      ensures image == ImageAfterSave(old(image), username)
      ensures image != ""
      ensures old(image) != "" ==> image == old(image)
    {
      if image == "" {
        image := AvatarService + username;
      }
    }

    /** `isFavorite(id)`: a scan of the list that stops at the first match. */
    method IsFavorite(job: JobId) returns (found: bool)
      ensures found <==> job in favoriteJob
    {
      var i := 0;
      while i < |favoriteJob|
        invariant 0 <= i <= |favoriteJob|
        invariant job !in favoriteJob[..i]
      {
        if favoriteJob[i] == job {
          return true;
        }
        i := i + 1;
      }
      return false;
    }

    /** `favorite(id)`: push the job unless `indexOf` finds it. */
    method Favorite(job: JobId)
      modifies this`favoriteJob
      ensures favoriteJob == AddFavorite(old(favoriteJob), job)
      ensures job in favoriteJob
      ensures NoDuplicates(old(favoriteJob)) ==> NoDuplicates(favoriteJob)
    {
      if IndexOf(favoriteJob, job) == -1 {
        favoriteJob := favoriteJob + [job];
      }
      if NoDuplicates(old(favoriteJob)) {
        AddFavoriteKeepsNoDuplicates(old(favoriteJob), job);
      }
    }

    /** `unfavorite(id)`: when `indexOf` finds the job, `remove` pulls every copy of it. */
    method Unfavorite(job: JobId)
      modifies this`favoriteJob
      ensures favoriteJob == RemoveFavorite(old(favoriteJob), job)
      ensures job !in favoriteJob
      ensures job !in old(favoriteJob) ==> favoriteJob == old(favoriteJob)
    {
      if IndexOf(favoriteJob, job) != -1 {
        favoriteJob := Pull(favoriteJob, job);
      }
    }

    /** What `generateAccessToken` hands to `jwt.sign`: the user's claims, the access secret, a short lifetime. */
    function AccessTokenRequest(env: Env, now: int): (r: SignRequest)
      reads this
      ensures r.claims == Claims(id, email) && r.secret == env.accessTokenSecret && r.issuedAt == now
      ensures r.expiresIn != ""
      ensures r.expiresIn == ExpirationOr(env.accessTokenExpiration, DefaultAccessExpiration)
      ensures env.accessTokenExpiration.None? ==> r.expiresIn == "15m"
      ensures env.accessTokenExpiration == Some("") ==> r.expiresIn == "15m"
      ensures env.accessTokenExpiration.Some? && env.accessTokenExpiration.value != "" ==>
                r.expiresIn == env.accessTokenExpiration.value
    {
      SignRequest(Claims(id, email), env.accessTokenSecret,
                  ExpirationOr(env.accessTokenExpiration, DefaultAccessExpiration), now)
    }

    /** What `generateRefreshToken` hands to `jwt.sign`: the same claims, the refresh secret, a long lifetime. */
    function RefreshTokenRequest(env: Env, now: int): (r: SignRequest)
      reads this
      ensures r.claims == Claims(id, email) && r.secret == env.refreshTokenSecret && r.issuedAt == now
      ensures r.expiresIn != ""
      ensures r.expiresIn == ExpirationOr(env.refreshTokenExpiration, DefaultRefreshExpiration)
      ensures env.refreshTokenExpiration.None? ==> r.expiresIn == "7d"
      ensures env.refreshTokenExpiration == Some("") ==> r.expiresIn == "7d"
      ensures env.refreshTokenExpiration.Some? && env.refreshTokenExpiration.value != "" ==>
                r.expiresIn == env.refreshTokenExpiration.value
    {
      SignRequest(Claims(id, email), env.refreshTokenSecret,
                  ExpirationOr(env.refreshTokenExpiration, DefaultRefreshExpiration), now)
    }

    /**
     * `toUserResponse()` on login: issue both tokens, overwrite the stored
     * refresh token with the new one, and return the profile with both tokens.
     * Each of the two signing calls reads the clock: `accessAt` and `refreshAt`.
     */
    method ToUserResponse(env: Env, sign: SignRequest -> string, accessAt: int, refreshAt: int)
      returns (r: UserResponse)
      modifies this`refreshToken
      ensures refreshToken == sign(RefreshTokenRequest(env, refreshAt))
      ensures r.token == sign(AccessTokenRequest(env, accessAt))
      ensures r.refreshToken == refreshToken
      ensures DetailsOf(r) == old(ToUserDetails())
    {
      var accessToken := sign(AccessTokenRequest(env, accessAt));
      var newRefreshToken := sign(RefreshTokenRequest(env, refreshAt));
      refreshToken := newRefreshToken;
      r := UserResponse(username, email, bio, image, accessToken, newRefreshToken);
    }

    /** `toUserDetails()`: the current-user view, without tokens. */
    function ToUserDetails(): (d: UserDetails)
      reads this
      ensures d.username == username && d.email == email && d.bio == bio && d.image == image
    {
      UserDetails(username, email, bio, image)
    }

    /** `toProfileJSON()`: the public view, without email or tokens. */
    function ToProfileJSON(): (p: ProfileJson)
      reads this
      ensures p == ProfileOf(ToUserDetails())
    {
      ProfileJson(username, bio, image)
    }
  }

  /**
   * The two tokens of one login carry the same claims `{id, email}`; they
   * differ in secret, and by default in lifetime ("15m" against "7d").
   */
  lemma TokensShareClaims(u: User, env: Env, accessAt: int, refreshAt: int)
    ensures u.AccessTokenRequest(env, accessAt).claims == u.RefreshTokenRequest(env, refreshAt).claims
    ensures env.accessTokenExpiration.None? && env.refreshTokenExpiration.None? ==>
              u.AccessTokenRequest(env, accessAt).expiresIn != u.RefreshTokenRequest(env, refreshAt).expiresIn
  {
  }

  /**
   * Two logins in a row: the stored refresh token is the one from the second
   * response, so the first one no longer matches it unless both signed to the
   * same string.
   */
  method LoginTwice(u: User, env: Env, sign: SignRequest -> string, first: int, second: int)
    returns (r1: UserResponse, r2: UserResponse)
    modifies u`refreshToken
    ensures u.refreshToken == r2.refreshToken
    ensures r1.refreshToken == sign(u.RefreshTokenRequest(env, first))
    ensures r2.refreshToken == sign(u.RefreshTokenRequest(env, second))
    ensures r1.refreshToken != r2.refreshToken ==> u.refreshToken != r1.refreshToken
  {
    r1 := u.ToUserResponse(env, sign, first, first);
    r2 := u.ToUserResponse(env, sign, second, second);
  }
}
