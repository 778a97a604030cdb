/**
 * The two ways into the dashboard: `apps/www/app/routes/auth.token.tsx` (a one-time token link
 * sent by the CLI) and `apps/www/app/routes/auth.login.tsx` (project id and write key).
 */
module AuthRoutes {
  import opened Wrappers
  import opened Json
  import opened Session
  import opened Tokens

  const LoginFailed: string :=
    "Authentication failed. Invalid Project ID or Write Key, please verify your credentials and try again."

  /** What a route decided before touching the session. */
  datatype Decision =
    | GoHome
    | Deny(message: string)
    | StartSession(projectId: string, remember: bool, redirectTo: string)

  /** A query or form value the route treats as present: given and not the empty string. */
  predicate Given(v: Option<string>) {
    v.Some? && v.value != ""
  }

  /**
   * The token loader's decision: home for a missing parameter or a token `verifyProjectToken`
   * turns down (`verified` is its result); otherwise a session for the query's project id that
   * is not remembered and leads to "/chunks".
   */
  function TokenDecision(token: Option<string>, projectId: Option<string>, verified: Option<Json>): (d: Decision)
    ensures !Given(token) || !Given(projectId) ==> d == GoHome
    ensures d.StartSession? <==> Given(token) && Given(projectId) && verified.Some? && verified.value.Truthy()
    ensures d.StartSession? ==> d == StartSession(projectId.value, false, "/chunks")
    ensures !d.Deny?
  {
    if !Given(token) || !Given(projectId) then GoHome
    else if verified.None? || !verified.value.Truthy() then GoHome
    else StartSession(projectId.value, false, "/chunks")
  }

  /**
   * The whole token loader on the token table and the session data: the response, the table
   * afterwards and the session data afterwards. `check` is `verifyToken` with the default secret.
   */
  function TokenLoaderSpec(rows: map<nat, TokenRow>, upto: nat, data: map<string, string>,
                           check: string -> Result<Json>,
                           commit: (map<string, string>, Option<nat>) -> Result<string>,
                           token: Option<string>, projectId: Option<string>)
    : (r: (Result<Response>, map<nat, TokenRow>, map<string, string>))
    requires Bounded(rows, upto)
    ensures !Given(token) || !Given(projectId) ==> r == (Ok(Redirect("/", None)), rows, data)
    ensures r.0 != Ok(Redirect("/", None)) ==> r.2 == data[ProjectSessionKey := projectId.value]
    ensures Bounded(r.1, upto)
  {
    if !Given(token) || !Given(projectId) then (Ok(Redirect("/", None)), rows, data)
    else
      var (verified, rows') := VerifySpec(rows, upto, check(token.value), projectId.value, token.value);
      match TokenDecision(token, projectId, verified)
      case StartSession(id, remember, redirectTo) =>
        var data' := data[ProjectSessionKey := id];
        var reply := match commit(data', MaxAge(remember))
          case Err(_) => Err(SessionFailed)
          case Ok(cookie) => Ok(Redirect(redirectTo, Some(cookie)));
        (reply, rows', data')
      case _ => (Ok(Redirect("/", None)), rows', data)
  }

  /**
   * Replaying a token link: once a link has started a session, opening it again redirects home
   * and leaves the table as it is, when the token was stored once for its project.
   */
  lemma ReplayedLinkGoesHome(rows: map<nat, TokenRow>, upto: nat, data: map<string, string>,
                             check: string -> Result<Json>,
                             commit: (map<string, string>, Option<nat>) -> Result<string>,
                             token: string, projectId: string)
    requires Bounded(rows, upto)
    requires |Matching(rows, TokenRow(token, projectId))| <= 1
    ensures var (_, rows', data') := TokenLoaderSpec(rows, upto, data, check, commit, Some(token), Some(projectId));
            var (again, rows'', _) := TokenLoaderSpec(rows', upto, data', check, commit, Some(token), Some(projectId));
            again == Ok(Redirect("/", None)) && rows'' == rows'
  {
    SecondVerificationFails(rows, upto, check(token), projectId, token);
  }

  /** A link started a session only if its token was stored for the project in the link. */
  lemma SessionNeedsStoredToken(rows: map<nat, TokenRow>, upto: nat, data: map<string, string>,
                                check: string -> Result<Json>,
                                commit: (map<string, string>, Option<nat>) -> Result<string>,
                                token: Option<string>, projectId: Option<string>)
    requires Bounded(rows, upto)
    requires TokenLoaderSpec(rows, upto, data, check, commit, token, projectId).0 != Ok(Redirect("/", None))
    ensures Given(token) && Given(projectId) && check(token.value).Ok?
    ensures exists k :: k in rows && rows[k] == TokenRow(token.value, projectId.value)
  {
    var (verified, _) := VerifySpec(rows, upto, check(token.value), projectId.value, token.value);
    var k :| k in Matching(rows, TokenRow(token.value, projectId.value));
  }

  /** The token loader: `searchParams.get('token')` and `get('projectId')` are `token` and `projectId`. */
  method TokenLoader(table: TokenTable, session: CookieSession,
                     verify: (string, string) -> Result<Json>,
                     commit: (map<string, string>, Option<nat>) -> Result<string>,
                     token: Option<string>, projectId: Option<string>)
    returns (r: Result<Response>)
    requires table.Valid()
    modifies table, session
    ensures table.Valid() && table.nextId == old(table.nextId)
    ensures (r, table.rows, session.data)
         == TokenLoaderSpec(old(table.rows), old(table.nextId), old(session.data),
                            t => verify(t, DefaultSecret), commit, token, projectId)
  {
    if !Given(token) || !Given(projectId) {
      return Ok(Redirect("/", None));
    }
    var verified := table.VerifyProjectToken(projectId.value, token.value, verify);
    if verified.None? || !verified.value.Truthy() {
      return Ok(Redirect("/", None));
    }
    r := CreateProjectIdSession(session, projectId.value, false, "/chunks", commit);
  }

  /** The login loader: a visitor who already holds a project session goes to "/chunks". */
  function LoginLoader(data: map<string, string>): (r: Response)
    ensures Given(ProjectIdOf(data)) ==> r == Redirect("/chunks", None)
    ensures !Given(ProjectIdOf(data)) ==> r == JsonReply(JObject([]))
  {
    if Given(ProjectIdOf(data)) then Redirect("/chunks", None) else JsonReply(JObject([]))
  }

  /** `String(formData.get(name))`: a missing field reads as "null". */
  function FormString(form: map<string, string>, name: string): (v: string)
    ensures name !in form ==> v == "null"
    ensures name in form ==> v == form[name]
  {
    if name in form then form[name] else "null"
  }

  /**
   * The login action's decision: `verifyLogin` stands for `getVerifiedProjectId`, which is not
   * part of this model. A falsy id is refused; otherwise the session is for that id.
   */
  function LoginDecision(form: map<string, string>, pathname: string,
                         verifyLogin: (string, string) -> Option<string>): (d: Decision)
    ensures var id := verifyLogin(FormString(form, "project"), FormString(form, "writeKey"));
            (d == Deny(LoginFailed) <==> !Given(id))
            && (d.StartSession? <==> Given(id))
            && (d.StartSession? ==> d.projectId == id.value && d.redirectTo == pathname)
    ensures d.StartSession? ==> (d.remember <==> "remember" in form && form["remember"] == "on")
  {
    var id := verifyLogin(FormString(form, "project"), FormString(form, "writeKey"));
    if !Given(id) then Deny(LoginFailed)
    else StartSession(id.value, FormString(form, "remember") == "on", pathname)
  }

  /**
   * The login action; `pathname` is the request's, the default `redirectTo` of
   * `createProjectIdSession`.
   */
  method LoginAction(session: CookieSession, form: map<string, string>, pathname: string,
                     verifyLogin: (string, string) -> Option<string>,
                     commit: (map<string, string>, Option<nat>) -> Result<string>)
    returns (r: Result<Response>)
    modifies session
    ensures match LoginDecision(form, pathname, verifyLogin)
      case StartSession(id, remember, redirectTo) =>
        session.data == old(session.data)[ProjectSessionKey := id]
        && r == (match commit(session.data, MaxAge(remember))
                 case Err(_) => Err(SessionFailed)
                 case Ok(cookie) => Ok(Redirect(redirectTo, Some(cookie))))
      case _ =>
        session.data == old(session.data) && r == Ok(JsonReply(JObject([("error", JString(LoginFailed))])))
  {
    var project := FormString(form, "project");
    var writeKey := FormString(form, "writeKey");
    var remember := FormString(form, "remember");
    var projectId := verifyLogin(project, writeKey);
    if !Given(projectId) {
      return Ok(JsonReply(JObject([("error", JString(LoginFailed))])));
    }
    r := CreateProjectIdSession(session, projectId.value, remember == "on", pathname, commit);
  }
}
