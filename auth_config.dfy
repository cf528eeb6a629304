/**
 * The session callbacks of the authentication library's configuration:
 * `jwt` copies the sign-in tokens into the encoded session token, and
 * `session` copies them from there into the session the client sees. Both
 * change the object they are given and hand back that same object.
 */
module AuthConfig {
  import opened Wrappers
  import opened Json

  /** The configured sign-in and error pages. */
  const SignInPage := "/login"
  const ErrorPage := "/login"

  /** Debug logging is on exactly in development. */
  function Debug(nodeEnv: Option<string>): (on: bool)
    ensures on <==> nodeEnv == Some("development")
  {
    nodeEnv == Some("development")
  }

  /** The encoded session token; only the members the callbacks touch. */
  class Token {
    var email: Json
    var accessToken: Json
    var idToken: Json

    constructor (email: Json, accessToken: Json, idToken: Json)
      ensures this.email == email && this.accessToken == accessToken && this.idToken == idToken
    {
      this.email := email;
      this.accessToken := accessToken;
      this.idToken := idToken;
    }
  }

  /** The session handed to the client: the tokens and the user record (`undefined` or an object). */
  class Session {
    var accessToken: Json
    var idToken: Json
    var user: Option<map<string, Json>>

    constructor (accessToken: Json, idToken: Json, user: Option<map<string, Json>>)
      ensures this.accessToken == accessToken && this.idToken == idToken && this.user == user
    {
      this.accessToken := accessToken;
      this.idToken := idToken;
      this.user := user;
    }
  }

  /** A member of an optional object, `undefined` when the object is absent: `o?.key`. */
  function Member(o: Option<map<string, Json>>, key: string): (v: Json)
    ensures o.Some? && key in o.value ==> v == o.value[key]
    ensures !(o.Some? && key in o.value) ==> v == JUndefined
  {
    if o.Some? && key in o.value then o.value[key] else JUndefined
  }

  /**
   * The token fields `jwt` leaves behind: the signed-in user's email and
   * tokens when a user is given, then the account's access and id tokens
   * over them when those are truthy; every other field keeps its value.
   */
  function JwtEmail(prior: Json, user: Option<map<string, Json>>): Json {
    if user.Some? then Member(user, "email") else prior
  }

  function JwtToken(prior: Json, user: Option<map<string, Json>>, userKey: string,
                    account: Option<map<string, Json>>, accountKey: string): (v: Json)
    ensures Truthy(Member(account, accountKey)) ==> v == Member(account, accountKey)
    ensures !Truthy(Member(account, accountKey)) && user.Some? ==> v == Member(user, userKey)
    ensures !Truthy(Member(account, accountKey)) && user.None? ==> v == prior
  {
    var afterUser := if user.Some? then Member(user, userKey) else prior;
    if Truthy(Member(account, accountKey)) then Member(account, accountKey) else afterUser
  }

  /** `callbacks.jwt({ token, account, user })`: update `token` in place and return it. */
  method Jwt(token: Token, account: Option<map<string, Json>>, user: Option<map<string, Json>>)
    returns (r: Token)
    modifies token
    ensures r == token
    ensures token.email == JwtEmail(old(token.email), user)
    ensures token.accessToken == JwtToken(old(token.accessToken), user, "accessToken", account, "access_token")
    ensures token.idToken == JwtToken(old(token.idToken), user, "idToken", account, "id_token")
  {
    if user.Some? {
      token.email := Member(user, "email");
      token.accessToken := Member(user, "accessToken");
      token.idToken := Member(user, "idToken");
    }
    if Truthy(Member(account, "access_token")) {
      token.accessToken := Member(account, "access_token");
    }
    if Truthy(Member(account, "id_token")) {
      token.idToken := Member(account, "id_token");
    }
    r := token;
  }

  /** With neither a user nor account tokens, `jwt` leaves the token as it was. */
  lemma JwtUnchangedWithoutInput(email: Json, accessToken: Json, idToken: Json, account: Option<map<string, Json>>)
    requires !Truthy(Member(account, "access_token")) && !Truthy(Member(account, "id_token"))
    ensures JwtEmail(email, None) == email
    ensures JwtToken(accessToken, None, "accessToken", account, "access_token") == accessToken
    ensures JwtToken(idToken, None, "idToken", account, "id_token") == idToken
  {
  }

  /** Running `jwt` again with the same input changes nothing more. */
  lemma JwtIdempotent(t: Json, user: Option<map<string, Json>>, userKey: string,
                      account: Option<map<string, Json>>, accountKey: string)
    ensures var once := JwtToken(t, user, userKey, account, accountKey);
      JwtToken(once, user, userKey, account, accountKey) == once
  {
  }

  /** The session's user after `session`: its email replaced by a truthy token email, when there is a user. */
  function SessionUser(user: Option<map<string, Json>>, tokenEmail: Json): (u: Option<map<string, Json>>)
    ensures u.None? <==> user.None?
    ensures user.Some? && Truthy(tokenEmail) ==> u.value == user.value["email" := tokenEmail]
    ensures !(user.Some? && Truthy(tokenEmail)) ==> u == user
  {
    if Truthy(tokenEmail) && user.Some? then Some(user.value["email" := tokenEmail]) else user
  }

  /** `callbacks.session({ session, token })`: update `session` in place and return it. */
  method SessionCallback(session: Session, token: Token) returns (r: Session)
    modifies session
    ensures r == session
    ensures session.accessToken == token.accessToken && session.idToken == token.idToken
    ensures session.user == SessionUser(old(session.user), token.email)
  {
    session.accessToken := token.accessToken;
    session.idToken := token.idToken;
    if Truthy(token.email) && session.user.Some? {
      session.user := Some(session.user.value["email" := token.email]);
    }
    r := session;
  }

  /**
   * A sign-in followed by a session read hands the user's tokens to the
   * client, unless the account carries its own, which win.
   */
  method SignInThenSession(token: Token, session: Session, account: Option<map<string, Json>>, user: map<string, Json>)
    modifies token, session
    ensures session.accessToken == (if Truthy(Member(account, "access_token")) then Member(account, "access_token")
                                    else Member(Some(user), "accessToken"))
    ensures session.idToken == (if Truthy(Member(account, "id_token")) then Member(account, "id_token")
                                else Member(Some(user), "idToken"))
  {
    var t := Jwt(token, account, Some(user));
    var s := SessionCallback(session, t);
  }
}
