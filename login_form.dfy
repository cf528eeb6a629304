/**
 * The login form: the schema the inputs must pass, and the submit handler
 * that posts the credentials to the login route, picks the message of a
 * refused login or the token of an accepted one, logs in with the token
 * and navigates to the dashboard. The e-mail check of the schema library
 * and the way the browser turns a non-string token into text are
 * parameters; the login route's answer (or the error `fetch` throws) is a
 * parameter of each submission.
 */
module LoginForm {
  import opened Wrappers
  import opened Json
  import opened ApiHandlers
  import ApiService
  import AuthContext

  /** The values the form holds; the switch's value is checked as a JSON value. */
  datatype LoginValues = LoginValues(email: string, password: string, rememberMe: Json)

  /** A schema issue: the field, and its message (none where the schema library's own message applies). */
  datatype Issue = Issue(field: string, message: Option<string>)

  const EmailMessage := "Please enter a valid email address."
  const PasswordMessage := "Password is required."

  /**
   * The schema: a valid e-mail address, a password of at least one
   * character, and a boolean remember-me switch. Every failing field is
   * reported, in that order.
   */
  function Validate(values: LoginValues, isEmail: string -> bool): (issues: seq<Issue>)
    ensures issues == [] <==> isEmail(values.email) && values.password != "" && values.rememberMe.JBool?
    ensures Issue("email", Some(EmailMessage)) in issues <==> !isEmail(values.email)
    ensures Issue("password", Some(PasswordMessage)) in issues <==> values.password == ""
    ensures Issue("rememberMe", None) in issues <==> !values.rememberMe.JBool?
    ensures |issues| <= 3
  {
    (if isEmail(values.email) then [] else [Issue("email", Some(EmailMessage))])
    + (if values.password != "" then [] else [Issue("password", Some(PasswordMessage))])
    + (if values.rememberMe.JBool? then [] else [Issue("rememberMe", None)])
  }

  /** How the login request ended: the route answered, or `fetch` threw. */
  datatype LoginAttempt = Answered(response: ApiService.Response) | Threw(error: Json)

  /** The request body: the e-mail and the password, never the switch. */
  function Credentials(values: LoginValues): (body: Json)
    ensures body.JObj? && body.fields.Keys == {"email", "password"}
    ensures body.fields["email"] == JStr(values.email) && body.fields["password"] == JStr(values.password)
  {
    JObj(map["email" := JStr(values.email), "password" := JStr(values.password)])
  }

  /** The parsed body, or `{}` when it is not JSON. */
  function ResponseData(response: ApiService.Response): (data: Json)
    ensures response.json.Some? ==> data == response.json.value
    ensures response.json.None? ==> data == JObj(map[])
  {
    response.json.GetOr(JObj(map[]))
  }

  const RefusedMessage := "Invalid credentials. Please try again."
  const UnexpectedMessage := "An unexpected error occurred. Please try again."

  /** A refused login's message: `data?.message || data?.error || <default>`. */
  function RefusalMessage(data: Json): (m: Json)
    ensures Truthy(m)
    ensures Truthy(OptGet(data, "message")) ==> m == OptGet(data, "message")
    ensures !Truthy(OptGet(data, "message")) && Truthy(OptGet(data, "error")) ==> m == OptGet(data, "error")
    ensures !Truthy(OptGet(data, "message")) && !Truthy(OptGet(data, "error")) ==> m == JStr(RefusedMessage)
  {
    Or(Or(OptGet(data, "message"), OptGet(data, "error")), JStr(RefusedMessage))
  }

  /** A thrown error's message: `err?.message || <default>`. */
  function CrashMessage(error: Json): (m: Json)
    ensures Truthy(m)
    ensures Truthy(OptGet(error, "message")) ==> m == OptGet(error, "message")
    ensures !Truthy(OptGet(error, "message")) ==> m == JStr(UnexpectedMessage)
  {
    Or(OptGet(error, "message"), JStr(UnexpectedMessage))
  }

  /** The places a token is looked for, in priority order. */
  function TokenCandidates(data: Json): (c: seq<Json>)
    ensures |c| == 6
  {
    [OptGet(data, "token"), OptGet(data, "accessToken"), OptGet(data, "access_token"), OptGet(data, "jwt"),
     OptGet(data, "authToken"), OptGet(OptGet(data, "data"), "token")]
  }

  /** `a || b || ...`: the first truthy value, or the last one when none is. */
  function FirstTruthy(values: seq<Json>): Json
    requires values != []
  {
    if |values| == 1 || Truthy(values[0]) then values[0] else FirstTruthy(values[1..])
  }

  /**
   * The value `||` settles on is truthy exactly when some operand is, and is
   * then the first truthy operand; otherwise it is the last operand.
   */
  lemma {:induction false} FirstTruthySpec(values: seq<Json>)
    requires values != []
    ensures var v := FirstTruthy(values);
      (Truthy(v) <==> exists i :: 0 <= i < |values| && Truthy(values[i]))
      && (Truthy(v) ==> exists i :: 0 <= i < |values| && v == values[i] && forall j :: 0 <= j < i ==> !Truthy(values[j]))
      && (!Truthy(v) ==> v == values[|values| - 1])
  {
    if |values| > 1 && !Truthy(values[0]) {
      var rest := values[1..];
      FirstTruthySpec(rest);
      assert forall i :: 1 <= i < |values| ==> values[i] == rest[i - 1];
      if Truthy(FirstTruthy(rest)) {
        var i :| 0 <= i < |rest| && FirstTruthy(rest) == rest[i] && forall j :: 0 <= j < i ==> !Truthy(rest[j]);
        assert values[i + 1] == rest[i];
      }
    }
  }

  /** The token an accepted login carries, if any. */
  function Token(data: Json): Json {
    FirstTruthy(TokenCandidates(data))
  }

  /** The value `||` settles on is the first truthy one, whatever follows it. */
  lemma {:induction false} FirstTruthyPicks(values: seq<Json>, i: int)
    requires 0 <= i < |values| && Truthy(values[i])
    requires forall j :: 0 <= j < i ==> !Truthy(values[j])
    ensures FirstTruthy(values) == values[i]
    decreases i
  {
    if i > 0 {
      assert !Truthy(values[0]);
      assert values[1..][i - 1] == values[i];
      FirstTruthyPicks(values[1..], i - 1);
    }
  }

  /** `token` wins over `accessToken`. */
  lemma TokenBeforeAccessToken(t: string, u: string)
    requires t != ""
    ensures Token(JObj(map["token" := JStr(t), "accessToken" := JStr(u)])) == JStr(t)
  {
    var data := JObj(map["token" := JStr(t), "accessToken" := JStr(u)]);
    assert OptGet(data, "token") == JStr(t);
    FirstTruthyPicks(TokenCandidates(data), 0);
  }

  /** Any top-level name wins over the nested `data.token`. */
  lemma TopLevelBeforeNested(t: string, u: string)
    requires u != ""
    ensures Token(JObj(map["accessToken" := JStr(u), "data" := JObj(map["token" := JStr(t)])])) == JStr(u)
  {
    var data := JObj(map["accessToken" := JStr(u), "data" := JObj(map["token" := JStr(t)])]);
    assert OptGet(data, "token") == JUndefined;
    assert OptGet(data, "accessToken") == JStr(u);
    FirstTruthyPicks(TokenCandidates(data), 1);
  }

  /** The nested `data.token` is taken when every top-level name is empty or missing. */
  lemma NestedTokenLast(t: string)
    requires t != ""
    ensures Token(JObj(map["token" := JStr(""), "data" := JObj(map["token" := JStr(t)])])) == JStr(t)
  {
    var data := JObj(map["token" := JStr(""), "data" := JObj(map["token" := JStr(t)])]);
    var c := TokenCandidates(data);
    assert c[0] == JStr("");
    assert c[1] == JUndefined && c[2] == JUndefined && c[3] == JUndefined && c[4] == JUndefined;
    assert OptGet(data, "data") == JObj(map["token" := JStr(t)]);
    assert c[5] == JStr(t);
    FirstTruthyPicks(c, 5);
  }

  /** Whether the login route accepted the credentials. */
  predicate Accepted(attempt: LoginAttempt) {
    attempt.Answered? && attempt.response.ok
  }

  /**
   * The one toast a submission ends with: the thrown error's message, the
   * refused login's message, or the success text.
   */
  function SubmitNotice(attempt: LoginAttempt): (n: Notice)
    ensures n.kind == SuccessToast <==> Accepted(attempt)
    ensures attempt.Threw? ==> n.message == CrashMessage(attempt.error)
    ensures attempt.Answered? && !attempt.response.ok ==> n.message == RefusalMessage(ResponseData(attempt.response))
    ensures Accepted(attempt) ==> n.message == JStr("Login successful")
    ensures Truthy(n.message)
  {
    match attempt
    case Threw(e) => Notice(ErrorToast, CrashMessage(e))
    case Answered(response) =>
      if response.ok then Notice(SuccessToast, JStr("Login successful"))
      else Notice(ErrorToast, RefusalMessage(ResponseData(response)))
  }

  /** The token an accepted login logs in with: none for a failed login or a body without a truthy token. */
  function SessionToken(attempt: LoginAttempt): (t: Option<Json>)
    ensures t.Some? <==> Accepted(attempt) && Truthy(Token(ResponseData(attempt.response)))
    ensures t.Some? ==> t.value == Token(ResponseData(attempt.response))
  {
    if Accepted(attempt) && Truthy(Token(ResponseData(attempt.response))) then Some(Token(ResponseData(attempt.response)))
    else None
  }

  /** Where every accepted login goes. */
  const DashboardPath := "/dashboard"

  class LoginPage {
    /** The session the form logs into, the e-mail check, and `String(token)` for a token that is not a string. */
    const auth: AuthContext.AuthProvider
    const isEmail: string -> bool
    const tokenText: Json -> string
    var isLoading: bool
    /** The error shown above the form; `null` when there is none. */
    var error: Json
    var issues: seq<Issue>
    /** The request bodies posted, the toasts shown and the pages navigated to, oldest first. */
    var posted: seq<Json>
    var toasts: seq<Notice>
    var pushed: seq<string>

    constructor (auth: AuthContext.AuthProvider, isEmail: string -> bool, tokenText: Json -> string)
      ensures this.auth == auth && this.isEmail == isEmail && this.tokenText == tokenText
      ensures !isLoading && error == JNull && issues == [] && posted == [] && toasts == [] && pushed == []
    {
      this.auth := auth;
      this.isEmail := isEmail;
      this.tokenText := tokenText;
      isLoading := false;
      error := JNull;
      issues := [];
      posted := [];
      toasts := [];
      pushed := [];
    }

    /** The text `auth.login` receives for a token. */
    function LoginText(token: Json): string {
      if token.JStr? then token.s else tokenText(token)
    }

    /**
     * The form's submit: values that fail the schema only show their
     * issues and never reach `onSubmit`; values that pass are submitted.
     */
    method HandleSubmit(values: LoginValues, attempt: LoginAttempt)
      requires auth.Valid()
      modifies this, auth
      ensures Validate(values, isEmail) != [] ==>
        issues == Validate(values, isEmail) && posted == old(posted) && toasts == old(toasts) && pushed == old(pushed)
        && error == old(error) && isLoading == old(isLoading) && unchanged(auth)
      ensures Validate(values, isEmail) == [] ==> issues == [] && posted == old(posted) + [Credentials(values)] && !isLoading
      ensures Validate(values, isEmail) == [] ==>
        toasts == old(toasts) + [SubmitNotice(attempt)]
        && error == (if Accepted(attempt) then JNull else SubmitNotice(attempt).message)
        && pushed == old(pushed) + (if Accepted(attempt) then [DashboardPath] else [])
      ensures Validate(values, isEmail) == [] && SessionToken(attempt).Some? ==>
        auth.token == Some(LoginText(SessionToken(attempt).value))
        && auth.storage == old(auth.storage)[AuthContext.TokenKey := LoginText(SessionToken(attempt).value)]
      ensures Validate(values, isEmail) == [] && SessionToken(attempt).None? ==> unchanged(auth)
      ensures auth.Valid()
    {
      issues := Validate(values, isEmail);
      if issues != [] {
        return;
      }
      OnSubmit(values, attempt);
    }

    /** A refused or failed login: the message becomes the error and is shown. */
    method Refuse(message: Json)
      modifies this`error, this`toasts
      ensures error == message && toasts == old(toasts) + [Notice(ErrorToast, message)]
    {
      error := message;
      toasts := toasts + [Notice(ErrorToast, message)];
    }

    /** An accepted login: log in when a token was found, then the success toast and the dashboard. */
    method Accept(token: Json)
      requires auth.Valid()
      modifies this`toasts, this`pushed, auth
      ensures toasts == old(toasts) + [Notice(SuccessToast, JStr("Login successful"))]
      ensures pushed == old(pushed) + [DashboardPath]
      ensures Truthy(token) ==>
        auth.token == Some(LoginText(token)) && auth.storage == old(auth.storage)[AuthContext.TokenKey := LoginText(token)]
      ensures !Truthy(token) ==> unchanged(auth)
      ensures auth.Valid()
    {
      if Truthy(token) {
        auth.Login(LoginText(token));
      }
      toasts := toasts + [Notice(SuccessToast, JStr("Login successful"))];
      pushed := pushed + [DashboardPath];
    }

    /**
     * `onSubmit(values)`: the credentials are posted. A refused login and a
     * thrown error set the error and show it, with no navigation and no
     * login. An accepted login clears the error, logs in exactly when a
     * token was found, and always shows the success toast and goes to the
     * dashboard. Loading ends false on every path.
     */
    method OnSubmit(values: LoginValues, attempt: LoginAttempt)
      requires auth.Valid()
      modifies this`isLoading, this`error, this`posted, this`toasts, this`pushed, auth
      ensures posted == old(posted) + [Credentials(values)] && !isLoading
      ensures toasts == old(toasts) + [SubmitNotice(attempt)]
      ensures error == (if Accepted(attempt) then JNull else SubmitNotice(attempt).message)
      ensures pushed == old(pushed) + (if Accepted(attempt) then [DashboardPath] else [])
      ensures SessionToken(attempt).Some? ==>
        auth.token == Some(LoginText(SessionToken(attempt).value))
        && auth.storage == old(auth.storage)[AuthContext.TokenKey := LoginText(SessionToken(attempt).value)]
      ensures SessionToken(attempt).None? ==> unchanged(auth)
      ensures auth.Valid()
    {
      isLoading := true;
      error := JNull;
      posted := posted + [Credentials(values)];
      match attempt {
        case Threw(e) =>
          Refuse(CrashMessage(e));
        case Answered(response) =>
          var data := ResponseData(response);
          if !response.ok {
            Refuse(RefusalMessage(data));
          } else {
            Accept(Token(data));
          }
      }
      isLoading := false;
    }
  }
}
