/**
 * The client's authentication state (`UserService` of the Angular app).
 *
 * Three pieces of state: the JWT kept in local storage by `JwtService`
 * (`storedToken`), the value of `currentUserSubject` (`currentUser`), and the
 * last value published on the one-slot replay subject `isAuthenticatedSubject`
 * (`isAuthenticated`, `None` until the first publish).  Each HTTP call is
 * replaced by the request it would send and a `reply` parameter carrying what
 * the server answered; the methods run the subscriber the source attaches.
 */
module UserService {
  import opened Wrappers

  /** The client's `User`: the profile plus the access token. */
  datatype User = User(username: string, email: string, bio: string, image: string, token: string)

  /** `currentUserSubject`'s value: the `{} as User` sentinel, or a user. */
  datatype CurrentUser = NoUser | Current(user: User)

  /** The outcome of one HTTP call: the reply's payload, or an error. */
  datatype Reply<T> = Success(data: T) | Failure

  /** A form's fields, as sent inside `{ user: ... }`. */
  type Fields = map<string, string>

  /** A request through `ApiService`; `user` is the `user` member of the body, if any. */
  datatype Request = Get(path: string) | Post(path: string, user: Option<Fields>) | Put(path: string, user: Option<Fields>)

  /** JavaScript truthiness of what `JwtService.getToken()` returns: absent and "" are false. */
  predicate HasToken(t: Option<string>) {
    t.Some? && t.value != ""
  }

  /** The route `attemptAuth` posts to. */
  function AuthPath(kind: string): (path: string)
    ensures kind == "login" ==> path == "/users/login"
    ensures kind != "login" ==> path == "/users/register"
  {
    "/users" + (if kind == "login" then "/login" else "/register")
  }

  class UserService {
    var storedToken: Option<string>
    var currentUser: CurrentUser
    var isAuthenticated: Option<bool>

    /** A user is shown exactly when the published flag is `true`. */
    predicate Consistent()
      reads this
    {
      currentUser.Current? <==> isAuthenticated == Some(true)
    }

    /** The state `purgeAuth` leaves. */
    predicate Purged()
      reads this
    {
      storedToken == None && currentUser == NoUser && isAuthenticated == Some(false)
    }

    /** The state `setAuth(u)` leaves. */
    predicate SignedInAs(u: User)
      reads this
    {
      storedToken == Some(u.token) && currentUser == Current(u) && isAuthenticated == Some(true)
    }

    /** A fresh service: whatever local storage holds, no user, no flag published yet. */
    constructor (stored: Option<string>)
      ensures storedToken == stored && currentUser == NoUser && isAuthenticated == None
      ensures Consistent()
    {
      storedToken := stored;
      currentUser := NoUser;
      isAuthenticated := None;
    }

    /** `setAuth(user)`: save the token, publish the user, publish `true`. */
    method SetAuth(u: User)
      modifies this
      ensures SignedInAs(u) && Consistent()
    {
      storedToken := Some(u.token);
      currentUser := Current(u);
      isAuthenticated := Some(true);
    }

    /** `purgeAuth()`: drop the token, publish the empty user, publish `false`. */
    method PurgeAuth()
      modifies this
      ensures Purged() && Consistent()
      ensures old(Purged()) ==> unchanged(this)
    {
      storedToken := None;
      currentUser := NoUser;
      isAuthenticated := Some(false);
    }

    /**
     * `populate()`: with a token, ask the server who it belongs to and sign in
     * as that user, keeping the local token; without one, or when the server
     * refuses, purge.
     */
    method Populate(reply: Reply<User>) returns (request: Option<Request>)
      modifies this
      ensures HasToken(old(storedToken)) ==> request == Some(Get("/user"))
      ensures !HasToken(old(storedToken)) ==> request == None && Purged()
      ensures HasToken(old(storedToken)) && reply.Success? ==>
                SignedInAs(reply.data.(token := old(storedToken).value)) && storedToken == old(storedToken)
      ensures HasToken(old(storedToken)) && reply.Failure? ==> Purged()
      ensures Consistent()
    {
      var token := storedToken;
      if HasToken(token) {
        request := Some(Get("/user"));
        match reply
        case Success(u) => SetAuth(u.(token := token.value));
        case Failure => PurgeAuth();
      } else {
        request := None;
        PurgeAuth();
      }
    }

    /**
     * `attemptAuth(type, credentials)`: post to login or register; only a
     * successful login signs the user in.  The reply is passed on unchanged.
     */
    method AttemptAuth(kind: string, credentials: Fields, reply: Reply<User>)
      returns (request: Request, result: Reply<User>)
      modifies this
      ensures request == Post(AuthPath(kind), Some(credentials))
      ensures result == reply
      ensures kind == "login" && reply.Success? ==> SignedInAs(reply.data)
      ensures kind != "login" || reply.Failure? ==> unchanged(this)
      ensures old(Consistent()) ==> Consistent()
    {
      request := Post(AuthPath(kind), Some(credentials));
      if reply.Success? && kind == "login" {
        SetAuth(reply.data);
      }
      result := reply;
    }

    /** `getCurrentUser()`: the value last given to `currentUserSubject`. */
    method GetCurrentUser() returns (u: CurrentUser)
      ensures u == currentUser
    {
      u := currentUser;
    }

    /**
     * `update(user)`: put the changes; on success publish the user the server
     * returned.  The stored token and the flag are not touched, so the state
     * stays consistent only when the flag was already `true`.
     */
    method Update(changes: Fields, reply: Reply<User>) returns (request: Request, result: Reply<User>)
      modifies this
      ensures request == Put("/user", Some(changes))
      ensures result == reply
      ensures reply.Success? ==> currentUser == Current(reply.data)
      ensures storedToken == old(storedToken) && isAuthenticated == old(isAuthenticated)
      ensures reply.Failure? ==> unchanged(this)
      ensures old(Consistent()) && old(isAuthenticated) == Some(true) ==> Consistent()
    {
      request := Put("/user", Some(changes));
      if reply.Success? {
        currentUser := Current(reply.data);
      }
      result := reply;
    }

    /** `logout()`: tell the server; once it answers, purge. */
    method Logout(reply: Reply<()>) returns (request: Request)
      modifies this
      ensures request == Post("/users/logout", None)
      ensures reply.Success? ==> Purged()
      ensures reply.Failure? ==> unchanged(this)
      ensures old(Consistent()) ==> Consistent()
    {
      request := Post("/users/logout", None);
      if reply.Success? {
        PurgeAuth();
      }
    }
  }

  /**
   * `update` from a signed-out service: the server's user is shown while the
   * published flag is still unset, so `Consistent` does not hold.
   */
  method UpdateWhileSignedOut(changes: Fields, u: User) returns (s: UserService)
    ensures fresh(s)
    ensures s.currentUser == Current(u) && s.isAuthenticated == None
    ensures !s.Consistent()
  {
    s := new UserService(None);
    var _, _ := s.Update(changes, Success(u));
  }
}
