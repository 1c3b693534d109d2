/**
 * `AuthService`: the session kept in three `localStorage` keys plus the
 * in-memory current user. The store is a `map<string, string>`; the clock is
 * the `now` parameter (epoch milliseconds); `new Date(expiration)` is the
 * `parseDate` parameter.
 */
module Auth {
  import opened JsValues
  import HttpErrors

  const TokenKey := "plataforma-auth-token"
  const UserKey := "plataforma-auth-user"
  const ExpirationKey := "plataforma-auth-token-expiration"
  const SessionKeys: set<string> := {TokenKey, UserKey, ExpirationKey}

  const InvalidLoginResponse := "Resposta de login inválida."

  /** JSON text of an object: never the empty string. */
  type JsonText = s: string | s != "" witness "{}"

  /** The user object of a login response, identified with its JSON text. */
  datatype Usuario = Usuario(json: JsonText)

  /** `JSON.stringify(usuario)`. */
  function Stringify(u: Usuario): JsonText {
    u.json
  }

  /** `JSON.parse(text)` on text this service stored. */
  function ParseUsuario(s: JsonText): Usuario {
    Usuario(s)
  }

  /** What the login endpoint answered; any part may be missing. */
  datatype LoginResponse = LoginResponse(token: Option<string>, usuario: Option<Usuario>, expiration: Option<string>)

  /** The login call as the `tap` and `catchError` callbacks receive it. */
  datatype LoginReply =
    | Received(response: Option<LoginResponse>)
    | Failed(error: HttpErrors.ClientError)

  /** What the caller of `login` sees: the response passed through, or an error. */
  datatype LoginResult =
    | LoggedIn(response: LoginResponse)
    | LoginFailed(error: HttpErrors.ClientError)

  /** `new Date(expiration)`: an instant, an invalid date (`NaN`), or a thrown exception. */
  datatype ParsedDate = Instant(millis: int) | InvalidDate | ParseError

  /** `localStorage.getItem(key)`. */
  function Lookup(store: map<string, string>, key: string): Option<string> {
    if key in store then Some(store[key]) else None
  }

  /** The store after `setSession`. */
  function WithSession(store: map<string, string>, token: string, expiration: string, u: Usuario): map<string, string> {
    store[TokenKey := token][UserKey := Stringify(u)][ExpirationKey := expiration]
  }

  /** The store after `logout`. */
  function WithoutSession(store: map<string, string>): map<string, string> {
    store - SessionKeys
  }

  /** The user the constructor restores: the stored one when the key is truthy. */
  function RestoredUser(store: map<string, string>): Option<Usuario> {
    var stored := Lookup(store, UserKey);
    if Truthy(stored) then Some(ParseUsuario(stored.value)) else None
  }

  /** The `tap` check: response, token, usuario and expiration all truthy. */
  predicate CompleteResponse(response: Option<LoginResponse>) {
    response.Some? && Truthy(response.value.token) && response.value.usuario.Some?
    && Truthy(response.value.expiration)
  }

  /** Parsing the stored expiry would throw: the `catch` branch of `isAuthenticated`. */
  predicate ExpiryThrows(store: map<string, string>, parseDate: string -> ParsedDate) {
    Truthy(Lookup(store, TokenKey)) && Truthy(Lookup(store, ExpirationKey))
    && parseDate(store[ExpirationKey]).ParseError?
  }

  /** The answer of `isAuthenticated` for a given store and instant. */
  function Authenticated(store: map<string, string>, now: int, parseDate: string -> ParsedDate): bool {
    var token := Lookup(store, TokenKey);
    var expiration := Lookup(store, ExpirationKey);
    if !Truthy(token) || !Truthy(expiration) then false
    else match parseDate(expiration.value)
      case Instant(ms) => ms > now
      case InvalidDate => false
      case ParseError => false
  }

  class AuthService {
    var storage: map<string, string>
    var currentUser: Option<Usuario>

    /** Restores the user from storage, without looking at the expiry. */
    constructor(stored: map<string, string>)
      ensures storage == stored
      ensures currentUser == RestoredUser(stored)
    {
      storage := stored;
      var storedUser := Lookup(stored, UserKey);
      if Truthy(storedUser) {
        currentUser := Some(ParseUsuario(storedUser.value));
      } else {
        currentUser := None;
      }
    }

    /** `currentUserValue`: the in-memory user; the frame shows it never consults the store. */
    function CurrentUserValue(): (u: Option<Usuario>)
      reads this`currentUser
      ensures u == currentUser
    {
      currentUser
    }

    /** `getToken`: the stored token, whatever its expiry; the frame shows the user plays no part. */
    function GetToken(): (t: Option<string>)
      reads this`storage
      ensures t.Some? <==> TokenKey in storage
      ensures t.Some? ==> t.value == storage[TokenKey]
    {
      Lookup(storage, TokenKey)
    }

    /** Writes the three session keys, in source order. */
    method SetSession(token: string, expiration: string, usuario: Usuario)
      modifies this`storage
      ensures storage == WithSession(old(storage), token, expiration, usuario)
    {
      storage := storage[TokenKey := token];
      storage := storage[UserKey := Stringify(usuario)];
      storage := storage[ExpirationKey := expiration];
    }

    /**
     * The callbacks of `login`: a complete response commits the session and
     * the user; anything else is an error and changes nothing.
     */
    method OnLoginReply(reply: LoginReply) returns (result: LoginResult)
      modifies this
      ensures reply.Failed? ==> result == LoginFailed(reply.error)
      ensures reply.Received? && !CompleteResponse(reply.response)
          ==> result == LoginFailed(HttpErrors.Error(InvalidLoginResponse))
      ensures if reply.Received? && CompleteResponse(reply.response) then
                var r := reply.response.value;
                result == LoggedIn(r)
                && storage == WithSession(old(storage), r.token.value, r.expiration.value, r.usuario.value)
                && currentUser == r.usuario
              else
                storage == old(storage) && currentUser == old(currentUser)
    {
      match reply
      case Failed(error) =>
        result := LoginFailed(error);
      case Received(response) =>
        if CompleteResponse(response) {
          var r := response.value;
          SetSession(r.token.value, r.expiration.value, r.usuario.value);
          currentUser := r.usuario;
          result := LoggedIn(r);
        } else {
          result := LoginFailed(HttpErrors.Error(InvalidLoginResponse));
        }
    }

    /** Removes the three session keys and forgets the user. */
    method Logout()
      modifies this
      ensures storage == WithoutSession(old(storage))
      ensures currentUser == None
    {
      storage := storage - {TokenKey};
      storage := storage - {UserKey};
      storage := storage - {ExpirationKey};
      currentUser := None;
    }

    /** `isAuthenticated`: reads only, except that a throwing parse logs out. */
    method IsAuthenticated(now: int, parseDate: string -> ParsedDate) returns (b: bool)
      modifies this
      ensures b == Authenticated(old(storage), now, parseDate)
      ensures if ExpiryThrows(old(storage), parseDate)
              then storage == WithoutSession(old(storage)) && currentUser == None
              else storage == old(storage) && currentUser == old(currentUser)
    {
      var token := GetToken();
      var expiration := Lookup(storage, ExpirationKey);
      if !Truthy(token) || !Truthy(expiration) {
        return false;
      }
      var parsed := parseDate(expiration.value);
      if parsed.ParseError? {
        Logout();
        return false;
      }
      b := parsed.Instant? && parsed.millis > now;
    }
  }

  /** After `setSession` the three keys hold what was given; no other key changes. */
  lemma SessionRoundTrip(store: map<string, string>, token: string, expiration: string, u: Usuario)
    ensures Lookup(WithSession(store, token, expiration, u), TokenKey) == Some(token)
    ensures Lookup(WithSession(store, token, expiration, u), ExpirationKey) == Some(expiration)
    ensures RestoredUser(WithSession(store, token, expiration, u)) == Some(u)
    ensures forall k :: k !in SessionKeys ==> Lookup(WithSession(store, token, expiration, u), k) == Lookup(store, k)
  {
  }

  /** Logging out twice leaves the store as logging out once. */
  lemma LogoutIdempotent(store: map<string, string>)
    ensures WithoutSession(WithoutSession(store)) == WithoutSession(store)
  {
  }

  /** After logout: no token, no user to restore, never authenticated; other keys kept. */
  lemma LoggedOutIsAnonymous(store: map<string, string>, now: int, parseDate: string -> ParsedDate)
    ensures Lookup(WithoutSession(store), TokenKey) == None
    ensures RestoredUser(WithoutSession(store)) == None
    ensures !Authenticated(WithoutSession(store), now, parseDate)
    ensures forall k :: k !in SessionKeys ==> Lookup(WithoutSession(store), k) == Lookup(store, k)
  {
  }

  /** A missing or empty token or expiry is never authenticated, whatever the clock says. */
  lemma MissingEntryNotAuthenticated(store: map<string, string>, now: int, parseDate: string -> ParsedDate)
    requires !Truthy(Lookup(store, TokenKey)) || !Truthy(Lookup(store, ExpirationKey))
    ensures !Authenticated(store, now, parseDate)
  {
  }

  /** With both entries present: authenticated iff the expiry is strictly later than now. */
  lemma ExpiryIsStrict(store: map<string, string>, now: int, parseDate: string -> ParsedDate)
    requires Truthy(Lookup(store, TokenKey)) && Truthy(Lookup(store, ExpirationKey))
    ensures Authenticated(store, now, parseDate)
        <==> parseDate(store[ExpirationKey]).Instant? && parseDate(store[ExpirationKey]).millis > now
  {
  }

  /** Right after a login, authenticated iff the server's expiry parses to an instant after now. */
  lemma AuthenticatedAfterLogin(store: map<string, string>, token: string, expiration: string, u: Usuario,
                                now: int, parseDate: string -> ParsedDate)
    requires token != "" && expiration != ""
    ensures Authenticated(WithSession(store, token, expiration, u), now, parseDate)
        <==> parseDate(expiration).Instant? && parseDate(expiration).millis > now
  {
    SessionRoundTrip(store, token, expiration, u);
    ExpiryIsStrict(WithSession(store, token, expiration, u), now, parseDate);
  }

  /**
   * Restoring an expired session: the user comes back and the token is still
   * handed out, although `isAuthenticated` says no.
   */
  lemma ExpiredSessionStillRestored(store: map<string, string>, token: string, expiration: string, u: Usuario,
                                    now: int, parseDate: string -> ParsedDate)
    requires token != "" && expiration != ""
    requires parseDate(expiration).Instant? && parseDate(expiration).millis <= now
    ensures !Authenticated(WithSession(store, token, expiration, u), now, parseDate)
    ensures RestoredUser(WithSession(store, token, expiration, u)) == Some(u)
    ensures Lookup(WithSession(store, token, expiration, u), TokenKey) == Some(token)
  {
    AuthenticatedAfterLogin(store, token, expiration, u, now, parseDate);
    SessionRoundTrip(store, token, expiration, u);
  }

  /**
   * A session from login to a double logout, through the class: the token is
   * handed out after login, a restart restores the user, and after logging out
   * (twice) there is neither token nor authentication.
   */
  method SessionLifecycle(stored: map<string, string>, response: LoginResponse, now: int,
                          parseDate: string -> ParsedDate)
    returns (tokenAfterLogin: Option<string>, restoredUser: Option<Usuario>,
             tokenAfterLogout: Option<string>, authenticatedAfterLogout: bool)
    requires CompleteResponse(Some(response))
    ensures tokenAfterLogin == response.token
    ensures restoredUser == response.usuario
    ensures tokenAfterLogout == None && !authenticatedAfterLogout
  {
    var auth := new AuthService(stored);
    var result := auth.OnLoginReply(Received(Some(response)));
    tokenAfterLogin := auth.GetToken();
    SessionRoundTrip(stored, response.token.value, response.expiration.value, response.usuario.value);
    var restarted := new AuthService(auth.storage);
    restoredUser := restarted.CurrentUserValue();
    auth.Logout();
    auth.Logout();
    tokenAfterLogout := auth.GetToken();
    LoggedOutIsAnonymous(auth.storage, now, parseDate);
    authenticatedAfterLogout := auth.IsAuthenticated(now, parseDate);
  }
}
