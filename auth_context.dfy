/**
 * The client-side authentication state: the signed-in user decoded from a
 * JSON Web Token, the token itself, and its copy in the browser's storage.
 * Decoding is a parameter of the provider (a partial function from token
 * text to payload), and so is the clock.
 */
module AuthContext {
  import opened Wrappers

  /** `UserRole`. */
  datatype UserRole = StoreAdmin | SuperAdmin | Customer

  /** `User`: what the application knows about the signed-in user. */
  datatype User = User(id: string, email: string, role: UserRole, storeId: Option<string>)

  /** `JWTPayload`: the claims of a token; `exp` in seconds since the epoch. */
  datatype Payload = Payload(userId: string, email: string, role: UserRole, storeId: Option<string>, exp: int, iat: int)

  /** The storage key of the token. */
  const TokenKey := "authToken"

  /** `decodeToken`: the user a payload describes, or nothing when the token does not decode. */
  function UserOf(decoded: Option<Payload>): (u: Option<User>)
    ensures u.Some? <==> decoded.Some?
    ensures decoded.Some? ==>
      u.value.id == decoded.value.userId && u.value.email == decoded.value.email
      && u.value.role == decoded.value.role && u.value.storeId == decoded.value.storeId
  {
    match decoded
    case None => None
    case Some(p) => Some(User(p.userId, p.email, p.role, p.storeId))
  }

  /** A token has expired when its expiry, in milliseconds, lies before `now` (milliseconds). */
  predicate Expired(p: Payload, now: int) {
    p.exp * 1000 < now
  }

  /** Whether the token text is truthy, as `if (token)` tests it: present and non-empty. */
  predicate HasToken(token: Option<string>) {
    token.Some? && token.value != ""
  }

  class AuthProvider {
    var user: Option<User>
    var token: Option<string>
    var isLoading: bool
    /** The browser's localStorage. */
    var storage: map<string, string>
    /** `jwtDecode`: the payload of a token, or nothing when it throws. */
    const decode: string -> Option<Payload>

    /**
     * The state stays in step with storage and decoding: a held token is
     * the stored one, and a known user is the one the held token decodes to.
     */
    predicate Valid()
      reads this
    {
      (token.Some? ==> TokenKey in storage && storage[TokenKey] == token.value)
      && (user.Some? ==> token.Some? && user == UserOf(decode(token.value)))
    }

    /** `decodeToken(token)`. */
    function DecodeToken(t: string): Option<User> {
      UserOf(decode(t))
    }

    /** The mounted provider, before its effect runs: loading, with no user and no token. */
    constructor (decode: string -> Option<Payload>, storage: map<string, string>)
      ensures user.None? && token.None? && isLoading
      ensures this.decode == decode && this.storage == storage
      ensures Valid()
    {
      user := None;
      token := None;
      isLoading := true;
      this.decode := decode;
      this.storage := storage;
    }

    /** `login(token)`: store the token and hold it, with whatever user it decodes to (possibly none). */
    method Login(t: string)
      requires Valid()
      modifies this
      ensures storage == old(storage)[TokenKey := t]
      ensures token == Some(t) && user == DecodeToken(t) && !isLoading
      ensures Valid()
    {
      storage := storage[TokenKey := t];
      user := DecodeToken(t);
      token := Some(t);
      isLoading := false;
    }

    /** `logout()`: forget the stored token and the whole state. */
    method Logout()
      requires Valid()
      modifies this
      ensures storage == old(storage) - {TokenKey}
      ensures user.None? && token.None? && !isLoading
      ensures Valid()
    {
      storage := storage - {TokenKey};
      user := None;
      token := None;
      isLoading := false;
    }

    /**
     * `refreshToken()` at time `now`: with a token held, decode it and log
     * out when it has expired. A token that does not decode makes the call
     * fail (the promise rejects) with the state untouched; no token or a
     * live token changes nothing.
     */
    method RefreshToken(now: int) returns (r: Outcome)
      requires Valid()
      modifies this
      ensures r.Fail? <==> HasToken(old(token)) && decode(old(token).value).None?
      ensures HasToken(old(token)) && decode(old(token).value).Some? && Expired(decode(old(token).value).value, now) ==>
        storage == old(storage) - {TokenKey} && user.None? && token.None? && !isLoading
      ensures !(HasToken(old(token)) && decode(old(token).value).Some? && Expired(decode(old(token).value).value, now)) ==>
        storage == old(storage) && user == old(user) && token == old(token) && isLoading == old(isLoading)
      ensures Valid()
    {
      if HasToken(token) {
        var payload := decode(token.value);
        if payload.None? {
          return Fail("InvalidTokenError: Invalid token specified");
        }
        if Expired(payload.value, now) {
          Logout();
        }
      }
      r := Pass;
    }

    /**
     * The mount effect: a stored token that decodes restores the session;
     * one that does not logs out; no stored token (or an empty one) only
     * ends the loading state.
     */
    method Mount()
      requires Valid()
      modifies this
      ensures var stored := if TokenKey in old(storage) then Some(old(storage)[TokenKey]) else None;
        (HasToken(stored) && DecodeToken(stored.value).Some? ==>
          storage == old(storage) && token == stored && user == DecodeToken(stored.value))
        && (HasToken(stored) && DecodeToken(stored.value).None? ==>
          storage == old(storage) - {TokenKey} && token.None? && user.None?)
        && (!HasToken(stored) ==> storage == old(storage) && token == old(token) && user == old(user))
      ensures !isLoading && Valid()
    {
      var stored := if TokenKey in storage then Some(storage[TokenKey]) else None;
      if HasToken(stored) {
        var u := DecodeToken(stored.value);
        if u.Some? {
          user := u;
          token := stored;
          isLoading := false;
        } else {
          Logout();
        }
      } else {
        isLoading := false;
      }
    }
  }

  /** A login followed by a logout leaves no token in storage and no session, whatever was there before. */
  method LoginThenLogout(a: AuthProvider, t: string)
    requires a.Valid()
    modifies a
    ensures TokenKey !in a.storage && a.storage == old(a.storage) - {TokenKey}
    ensures a.user.None? && a.token.None? && !a.isLoading && a.Valid()
  {
    a.Login(t);
    a.Logout();
  }

  /** After a login with a token that decodes, a fresh provider mounted on the same storage restores the same session. */
  method LoginSurvivesReload(a: AuthProvider, t: string) returns (b: AuthProvider)
    requires a.Valid() && t != "" && a.decode(t).Some?
    modifies a
    ensures b.user == a.user && b.token == a.token && !b.isLoading
  {
    a.Login(t);
    b := new AuthProvider(a.decode, a.storage);
    b.Mount();
  }
}
