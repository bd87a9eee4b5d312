/** The session store of `AuthService`: the access token, the refresh token and the cached
    user in `localStorage`, the current user and the authenticated flag as two
    BehaviorSubjects. Base64 and JSON decoding are the parameters `parsePayload`,
    `parseUser` and `serializeUser`; the clock is the argument `nowMs`; HTTP results
    are arguments of the methods that wait for them. */
module Auth {
  import opened Wrappers
  import opened Text
  import opened Rx
  import opened Routes

  const TokenKey := "access_token"
  const RefreshTokenKey := "refresh_token"
  const UserKey := "user"

  /** The largest time value a JavaScript Date holds, in milliseconds either side of the epoch. */
  const MaxTimeValue := 8_640_000_000_000_000

  type Storage = map<string, string>

  /** `storage.getItem(key)`: absent keys read as `null`. */
  function GetItem(store: Storage, key: string): Option<string> {
    if key in store then Some(store[key]) else None
  }

  /** The claims of the token's payload segment, as `JSON.parse(atob(...))` yields them. */
  datatype DecodedToken = DecodedToken(
    sub: string,
    exp: Option<int>,
    iat: Option<int>,
    roles: Option<seq<string>>,
    email: Option<string>,
    userId: Option<string>,
    firstName: Option<string>,
    lastName: Option<string>)

  datatype User = User(
    id: string,
    email: string,
    firstName: string,
    lastName: string,
    phoneNumber: string,
    roles: Option<seq<string>>)

  /** The body of a login or refresh response. */
  datatype AuthResponse = AuthResponse(accessToken: string, refreshToken: Option<string>)

  datatype AuthError = NoRefreshToken | RequestFailed(status: int)

  /** What the service asks of its collaborators (HTTP, the notification channel, the router). */
  datatype Effect =
    | LoginRequested
    | RefreshRequested(bearer: string)
    | ProfileRequested
    | NotificationsDisconnected
    | DisconnectFailed
    | Navigated(route: string)

  /** `storeTokens`: the access token is always written; the refresh token only when the
      response carries a non-empty one; every other key is left as it was. */
  function TokensStored(store: Storage, response: AuthResponse): (s: Storage)
    ensures GetItem(s, TokenKey) == Some(response.accessToken)
    ensures Truthy(response.refreshToken) ==> GetItem(s, RefreshTokenKey) == response.refreshToken
    ensures !Truthy(response.refreshToken) ==> GetItem(s, RefreshTokenKey) == GetItem(store, RefreshTokenKey)
    ensures forall k :: k != TokenKey && k != RefreshTokenKey ==> GetItem(s, k) == GetItem(store, k)
  {
    var withAccess := store[TokenKey := response.accessToken];
    if Truthy(response.refreshToken) then withAccess[RefreshTokenKey := response.refreshToken.value] else withAccess
  }

  /** `storeUser`: the user's serialized text under the `user` key, every other key unchanged. */
  function UserStored(store: Storage, user: User, serializeUser: User -> string): (s: Storage)
    ensures GetItem(s, UserKey) == Some(serializeUser(user))
    ensures forall k :: k != UserKey ==> GetItem(s, k) == GetItem(store, k)
  {
    store[UserKey := serializeUser(user)]
  }

  /** `getUserFromStorage`: no user when the key is missing or empty, otherwise whatever
      parsing the stored text gives (`None` when it does not parse). */
  function UserFromStorage(store: Storage, parseUser: string -> Option<User>): (u: Option<User>)
    ensures !Truthy(GetItem(store, UserKey)) ==> u.None?
    ensures Truthy(GetItem(store, UserKey)) ==> u == parseUser(store[UserKey])
  {
    var text := GetItem(store, UserKey);
    if Truthy(text) then parseUser(text.value) else None
  }

  /** A user written with `storeUser` is read back by `getUserFromStorage`, provided the
      JSON text is not empty and parses to the same user. */
  lemma StoredUserIsRestored(store: Storage, user: User, serializeUser: User -> string, parseUser: string -> Option<User>)
    requires serializeUser(user) != ""
    requires parseUser(serializeUser(user)) == Some(user)
    ensures UserFromStorage(UserStored(store, user, serializeUser), parseUser) == Some(user)
  {
    assert GetItem(UserStored(store, user, serializeUser), UserKey) == Some(serializeUser(user));
  }

  /** `decodeToken` applied to the parse result of the payload: a malformed payload gives
      no user; otherwise each claim falls back as the code writes it. */
  function DecodeToken(payload: Option<DecodedToken>): (user: Option<User>)
    ensures payload.None? <==> user.None?
    ensures payload.Some? ==>
      var p, u := payload.value, user.value;
      && u.id == (if Truthy(p.userId) then p.userId.value else p.sub)
      && u.email == (if Truthy(p.email) then p.email.value else p.sub)
      && u.firstName == p.firstName.GetOr("")
      && u.lastName == p.lastName.GetOr("")
      && u.phoneNumber == ""
      && u.roles == Some(p.roles.GetOr([]))
  {
    match payload
    case None => None
    case Some(p) =>
      Some(User(
        id := if Truthy(p.userId) then p.userId.value else p.sub,
        email := if Truthy(p.email) then p.email.value else p.sub,
        firstName := if Truthy(p.firstName) then p.firstName.value else "",
        lastName := if Truthy(p.lastName) then p.lastName.value else "",
        phoneNumber := "",
        roles := Some(if p.roles.Some? then p.roles.value else [])))
  }

  /** A token without `userId` and `email` claims names its user by the subject claim twice. */
  lemma SubjectStandsInForMissingClaims(p: DecodedToken)
    requires !Truthy(p.userId) && !Truthy(p.email)
    ensures DecodeToken(Some(p)).Some?
    ensures DecodeToken(Some(p)).value.id == p.sub && DecodeToken(Some(p)).value.email == p.sub
  {
  }

  /** `new Date(ms) > new Date(nowMs)`: a time value beyond the Date range gives an Invalid
      Date, and every comparison with one is false. */
  predicate DateAfter(ms: int, nowMs: int) {
    -MaxTimeValue <= ms <= MaxTimeValue && ms > nowMs
  }

  /** `hasValidToken` for the stored token `token` at time `nowMs`. It fails closed: no token,
      an empty token, a malformed payload or a missing `exp` claim all count as expired, and
      `nowMs >= exp * 1000` is expired too. */
  function HasValidToken(token: Option<string>, parsePayload: string -> Option<DecodedToken>, nowMs: int): (valid: bool)
    ensures !Truthy(token) ==> !valid
    ensures Truthy(token) && parsePayload(token.value).None? ==> !valid
    ensures valid ==> parsePayload(token.value).Some? && parsePayload(token.value).value.exp.Some?
    ensures valid ==> nowMs < parsePayload(token.value).value.exp.value * 1000
    ensures Truthy(token) && parsePayload(token.value).Some? && parsePayload(token.value).value.exp.Some?
            && -MaxTimeValue <= parsePayload(token.value).value.exp.value * 1000 <= MaxTimeValue
            ==> (valid <==> nowMs < parsePayload(token.value).value.exp.value * 1000)
  {
    if !Truthy(token) then false
    else
      match parsePayload(token.value)
      case None => false
      case Some(p) => p.exp.Some? && DateAfter(p.exp.value * 1000, nowMs)
  }

  /** `hasRole`: the current user has a role list and it contains `role`. */
  predicate UserHasRole(user: Option<User>, role: string)
    ensures user.None? || user.value.roles.None? ==> !UserHasRole(user, role)
    ensures UserHasRole(user, role) ==> exists i :: 0 <= i < |user.value.roles.value| && user.value.roles.value[i] == role
  {
    user.Some? && user.value.roles.Some? && role in user.value.roles.value
  }

  /** `roles.some(r => held.includes(r))`. */
  function SomeHeld(candidates: seq<string>, held: seq<string>): (b: bool)
    ensures b <==> exists i :: 0 <= i < |candidates| && candidates[i] in held
  {
    if candidates == [] then false
    else if candidates[0] in held then true
    else
      var rest := SomeHeld(candidates[1..], held);
      assert rest ==> exists i :: 0 <= i < |candidates| && candidates[i] in held by {
        if rest {
          var j :| 0 <= j < |candidates| - 1 && candidates[1..][j] in held;
          assert candidates[j + 1] in held;
        }
      }
      assert (exists i :: 0 <= i < |candidates| && candidates[i] in held) ==> rest by {
        if exists i :: 0 <= i < |candidates| && candidates[i] in held {
          var j :| 0 <= j < |candidates| && candidates[j] in held;
          assert j != 0;
          assert candidates[1..][j - 1] in held;
        }
      }
      rest
  }

  /** `hasAnyRole`: false without a user or a role list; otherwise true iff `hasRole` holds
      for some element of `roles`, so an empty `roles` gives false. */
  function UserHasAnyRole(user: Option<User>, roles: seq<string>): (b: bool)
    ensures b <==> exists i :: 0 <= i < |roles| && UserHasRole(user, roles[i])
    ensures roles == [] || user.None? ==> !b
  {
    user.Some? && user.value.roles.Some? && SomeHeld(roles, user.value.roles.value)
  }

  /** What `signout` leaves behind: storage and the two subjects' values. */
  datatype SessionView = SessionView(local: Storage, session: Storage, user: Option<User>, authenticated: bool)

  /** The three session keys removed, every other key of `localStorage` kept. */
  function ClearSession(store: Storage): (s: Storage)
    ensures TokenKey !in s && RefreshTokenKey !in s && UserKey !in s
    ensures forall k :: k != TokenKey && k != RefreshTokenKey && k != UserKey ==> GetItem(s, k) == GetItem(store, k)
  {
    store - {TokenKey, RefreshTokenKey, UserKey}
  }

  function SignedOut(v: SessionView): (w: SessionView)
    ensures TokenKey !in w.local && RefreshTokenKey !in w.local && UserKey !in w.local
    ensures w.session == map[] && w.user.None? && !w.authenticated
  {
    SessionView(ClearSession(v.local), map[], None, false)
  }

  /** Signing out twice leaves the same storage and subject values as signing out once. */
  lemma SignoutIdempotent(v: SessionView)
    ensures SignedOut(SignedOut(v)) == SignedOut(v)
  {
  }

  /** After `signout`, a service constructed on the same storage starts with no user and
      unauthenticated, whatever the clock and the parsers. */
  lemma ReloadAfterSignoutIsAnonymous(v: SessionView, parsePayload: string -> Option<DecodedToken>,
                                      parseUser: string -> Option<User>, nowMs: int)
    ensures UserFromStorage(SignedOut(v).local, parseUser).None?
    ensures !HasValidToken(GetItem(SignedOut(v).local, TokenKey), parsePayload, nowMs)
  {
  }

  /** At start-up the stored user is restored even when the stored token has expired: the
      service then holds a current user while it reports itself unauthenticated. */
  lemma StoredUserOutlivesExpiredToken(local: Storage, parsePayload: string -> Option<DecodedToken>,
                                       parseUser: string -> Option<User>, nowMs: int, user: User)
    requires Truthy(GetItem(local, UserKey)) && parseUser(local[UserKey]) == Some(user)
    requires Truthy(GetItem(local, TokenKey)) && parsePayload(local[TokenKey]).Some?
    requires parsePayload(local[TokenKey]).value.exp.Some?
    requires parsePayload(local[TokenKey]).value.exp.value * 1000 <= nowMs
    ensures UserFromStorage(local, parseUser) == Some(user)
    ensures !HasValidToken(GetItem(local, TokenKey), parsePayload, nowMs)
  {
  }

  /** The effects of `signout`: the notification disconnect (which may throw and is then
      only logged), then the navigation to the sign-in page. */
  function SignoutEffects(disconnectThrows: bool): seq<Effect> {
    [if disconnectThrows then DisconnectFailed else NotificationsDisconnected, Navigated(SigninRoute)]
  }

  class AuthService {
    var localStorage: Storage
    var sessionStorage: Storage
    var currentUserSubject: Behavior<Option<User>>
    var isAuthenticatedSubject: Behavior<bool>
    var effects: seq<Effect>
    /** `JSON.parse(atob(token.split('.')[1]))`; `None` when it throws. */
    const parsePayload: string -> Option<DecodedToken>
    /** `JSON.parse` of the stored user; `None` when it throws or yields `null`. */
    const parseUser: string -> Option<User>
    /** `JSON.stringify` of a user. */
    const serializeUser: User -> string

    /** The constructor: the current user is restored from storage, the authenticated flag is
        `hasValidToken()` at `nowMs`, and a valid token also starts a profile load. */
    constructor (local: Storage, session: Storage, nowMs: int, parsePayload: string -> Option<DecodedToken>,
                 parseUser: string -> Option<User>, serializeUser: User -> string)
      ensures this.parsePayload == parsePayload && this.parseUser == parseUser && this.serializeUser == serializeUser
      ensures localStorage == local && sessionStorage == session
      ensures currentUserSubject == Create(UserFromStorage(local, parseUser))
      ensures isAuthenticatedSubject == Create(HasValidToken(GetItem(local, TokenKey), parsePayload, nowMs))
      ensures effects == if HasValidToken(GetItem(local, TokenKey), parsePayload, nowMs) then [ProfileRequested] else []
    {
      this.parsePayload := parsePayload;
      this.parseUser := parseUser;
      this.serializeUser := serializeUser;
      new;
      localStorage := local;
      sessionStorage := session;
      effects := [];
      currentUserSubject := Create(GetUserFromStorage());
      isAuthenticatedSubject := Create(HasValidToken(GetToken(), parsePayload, nowMs));
      if HasValidToken(GetToken(), parsePayload, nowMs) {
        LoadCurrentUser();
      }
    }

    /** `getToken`: the stored access token, `null` when the key is absent. */
    function GetToken(): (token: Option<string>)
      reads this
      ensures token.None? <==> TokenKey !in localStorage
      ensures token.Some? ==> token.value == localStorage[TokenKey]
    {
      GetItem(localStorage, TokenKey)
    }

    /** `getRefreshToken`: the stored refresh token, `null` when the key is absent. */
    function GetRefreshToken(): (token: Option<string>)
      reads this
      ensures token.None? <==> RefreshTokenKey !in localStorage
      ensures token.Some? ==> token.value == localStorage[RefreshTokenKey]
    {
      GetItem(localStorage, RefreshTokenKey)
    }

    /** `getCurrentUser`: the last user pushed, or the one restored at construction. */
    function GetCurrentUser(): (user: Option<User>)
      reads this
      ensures currentUserSubject.emitted != [] ==> user == currentUserSubject.emitted[|currentUserSubject.emitted| - 1]
      ensures currentUserSubject.emitted == [] ==> user == currentUserSubject.initial
    {
      currentUserSubject.Value()
    }

    /** `getUserFromStorage` on the service's `localStorage`. */
    function GetUserFromStorage(): (user: Option<User>)
      reads this
      ensures !Truthy(GetItem(localStorage, UserKey)) ==> user.None?
      ensures Truthy(GetItem(localStorage, UserKey)) ==> user == parseUser(localStorage[UserKey])
    {
      UserFromStorage(localStorage, parseUser)
    }

    /** `isAuthenticated`: `hasValidToken` on the stored token, so never without one. */
    predicate IsAuthenticated(nowMs: int)
      reads this
      ensures IsAuthenticated(nowMs) ==>
        && Truthy(GetToken()) && parsePayload(GetToken().value).Some?
        && parsePayload(GetToken().value).value.exp.Some?
        && nowMs < parsePayload(GetToken().value).value.exp.value * 1000
    {
      HasValidToken(GetToken(), parsePayload, nowMs)
    }

    /** `hasRole` on the current user. */
    predicate HasRole(role: string)
      reads this
      ensures GetCurrentUser().None? ==> !HasRole(role)
      ensures HasRole(role) <==> GetCurrentUser().Some? && GetCurrentUser().value.roles.Some?
                                 && role in GetCurrentUser().value.roles.value
    {
      UserHasRole(GetCurrentUser(), role)
    }

    /** `hasAnyRole` on the current user. */
    predicate HasAnyRole(roles: seq<string>)
      reads this
      ensures HasAnyRole(roles) <==> exists i :: 0 <= i < |roles| && HasRole(roles[i])
      ensures roles == [] || GetCurrentUser().None? ==> !HasAnyRole(roles)
    {
      UserHasAnyRole(GetCurrentUser(), roles)
    }

    function View(): SessionView
      reads this
    {
      SessionView(localStorage, sessionStorage, currentUserSubject.Value(), isAuthenticatedSubject.Value())
    }

    method StoreTokens(response: AuthResponse)
      modifies this`localStorage
      ensures localStorage == TokensStored(old(localStorage), response)
    {
      localStorage := localStorage[TokenKey := response.accessToken];
      if Truthy(response.refreshToken) {
        localStorage := localStorage[RefreshTokenKey := response.refreshToken.value];
      }
    }

    method StoreUser(user: User)
      modifies this`localStorage
      ensures localStorage == UserStored(old(localStorage), user, serializeUser)
    {
      localStorage := localStorage[UserKey := serializeUser(user)];
    }

    /** `loadCurrentUser`: the `/users/me` request; its answer arrives in `CompleteProfileLoad`. */
    method LoadCurrentUser()
      modifies this`effects
      ensures effects == old(effects) + [ProfileRequested]
    {
      effects := effects + [ProfileRequested];
    }

    /** The answer to `/users/me`: a profile is stored and published; an error is only logged. */
    method CompleteProfileLoad(profile: Option<User>)
      modifies this`localStorage, this`currentUserSubject
      ensures profile.Some? ==> localStorage == UserStored(old(localStorage), profile.value, serializeUser)
      ensures profile.Some? ==> currentUserSubject == old(currentUserSubject).Next(profile)
      ensures profile.None? ==> localStorage == old(localStorage) && currentUserSubject == old(currentUserSubject)
    {
      if profile.Some? {
        StoreUser(profile.value);
        currentUserSubject := currentUserSubject.Next(profile);
      }
    }

    /** `handleAuthenticationResponse`: tokens always stored, `true` always published; the user
        is stored and published only when the access token decodes. */
    method HandleAuthenticationResponse(response: AuthResponse)
      modifies this`localStorage, this`currentUserSubject, this`isAuthenticatedSubject, this`effects
      ensures var decoded := DecodeToken(parsePayload(response.accessToken));
        && (decoded.Some? ==> localStorage == UserStored(TokensStored(old(localStorage), response), decoded.value, serializeUser))
        && (decoded.None? ==> localStorage == TokensStored(old(localStorage), response))
        && (decoded.Some? ==> currentUserSubject == old(currentUserSubject).Next(decoded))
        && (decoded.None? ==> currentUserSubject == old(currentUserSubject))
      ensures isAuthenticatedSubject == old(isAuthenticatedSubject).Next(true)
      ensures effects == old(effects) + [ProfileRequested]
    {
      StoreTokens(response);
      var user := DecodeToken(parsePayload(response.accessToken));
      if user.Some? {
        StoreUser(user.value);
        currentUserSubject := currentUserSubject.Next(user);
      }
      isAuthenticatedSubject := isAuthenticatedSubject.Next(true);
      LoadCurrentUser();
    }

    /** `signin` with the login request's outcome: success is handled as above, a failure
        changes nothing but is passed on. */
    method Signin(result: Result<AuthResponse, int>)
      modifies this`localStorage, this`currentUserSubject, this`isAuthenticatedSubject, this`effects
      ensures result.Failure? ==>
        && localStorage == old(localStorage)
        && currentUserSubject == old(currentUserSubject)
        && isAuthenticatedSubject == old(isAuthenticatedSubject)
        && effects == old(effects) + [LoginRequested]
      ensures result.Success? ==>
        var decoded := DecodeToken(parsePayload(result.value.accessToken));
        && (decoded.Some? ==> localStorage == UserStored(TokensStored(old(localStorage), result.value), decoded.value, serializeUser))
        && (decoded.None? ==> localStorage == TokensStored(old(localStorage), result.value))
        && (decoded.Some? ==> currentUserSubject == old(currentUserSubject).Next(decoded))
        && (decoded.None? ==> currentUserSubject == old(currentUserSubject))
        && isAuthenticatedSubject == old(isAuthenticatedSubject).Next(true)
      ensures result.Success? ==> isAuthenticatedSubject.Value()
      ensures result.Success? ==> GetToken() == Some(result.value.accessToken)
      ensures result.Success? && parsePayload(result.value.accessToken).Some? ==>
        GetCurrentUser() == DecodeToken(parsePayload(result.value.accessToken))
      ensures result.Success? ==> effects == old(effects) + [LoginRequested, ProfileRequested]
    {
      effects := effects + [LoginRequested];
      if result.Success? {
        HandleAuthenticationResponse(result.value);
      }
    }

    /** `signout`: completes even when the notification disconnect throws. */
    method Signout(disconnectThrows: bool)
      modifies this`localStorage, this`sessionStorage, this`currentUserSubject, this`isAuthenticatedSubject, this`effects
      ensures View() == SignedOut(old(View()))
      ensures currentUserSubject == old(currentUserSubject).Next(None)
      ensures isAuthenticatedSubject == old(isAuthenticatedSubject).Next(false)
      ensures effects == old(effects) + SignoutEffects(disconnectThrows)
    {
      effects := effects + [if disconnectThrows then DisconnectFailed else NotificationsDisconnected];
      localStorage := ClearSession(localStorage);
      sessionStorage := map[];
      currentUserSubject := currentUserSubject.Next(None);
      isAuthenticatedSubject := isAuthenticatedSubject.Next(false);
      effects := effects + [Navigated(SigninRoute)];
    }

    /** `refreshToken` with the refresh request's outcome `result`. Without a stored refresh
        token it signs out and fails before any request; a failed request signs out as well;
        a successful one stores the new tokens. */
    method RefreshToken(result: Result<AuthResponse, int>, disconnectThrows: bool)
      returns (outcome: Result<AuthResponse, AuthError>)
      modifies this`localStorage, this`sessionStorage, this`currentUserSubject, this`isAuthenticatedSubject, this`effects
      ensures !Truthy(old(GetRefreshToken())) ==>
        && outcome == Failure(NoRefreshToken)
        && View() == SignedOut(old(View()))
        && currentUserSubject == old(currentUserSubject).Next(None)
        && isAuthenticatedSubject == old(isAuthenticatedSubject).Next(false)
        && effects == old(effects) + SignoutEffects(disconnectThrows)
      ensures Truthy(old(GetRefreshToken())) && result.Success? ==>
        && outcome == Success(result.value)
        && localStorage == TokensStored(old(localStorage), result.value)
        && sessionStorage == old(sessionStorage)
        && currentUserSubject == old(currentUserSubject)
        && isAuthenticatedSubject == old(isAuthenticatedSubject)
        && effects == old(effects) + [RefreshRequested(old(GetRefreshToken()).value)]
      ensures Truthy(old(GetRefreshToken())) && result.Failure? ==>
        && outcome == Failure(RequestFailed(result.error))
        && View() == SignedOut(old(View()))
        && currentUserSubject == old(currentUserSubject).Next(None)
        && isAuthenticatedSubject == old(isAuthenticatedSubject).Next(false)
        && effects == old(effects) + [RefreshRequested(old(GetRefreshToken()).value)] + SignoutEffects(disconnectThrows)
    {
      var refreshToken := GetRefreshToken();
      if !Truthy(refreshToken) {
        Signout(disconnectThrows);
        return Failure(NoRefreshToken);
      }
      effects := effects + [RefreshRequested(refreshToken.value)];
      match result
      case Success(response) =>
        StoreTokens(response);
        outcome := Success(response);
      case Failure(status) =>
        Signout(disconnectThrows);
        outcome := Failure(RequestFailed(status));
    }
  }
}
