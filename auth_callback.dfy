/**
 * The OAuth redirect endpoint (`GET`/`POST /api/mcp/auth/callback`): a ladder
 * of checks on the query (section 4.1.2 of RFC 6749, and its error response in
 * section 4.1.2.1), then the code exchange. Every outcome is a redirect to
 * `/auth/callback/success` whose query says `step=success` or `step=error`.
 *
 * The signed-in user and the outcome of `finishAuth` are oracles: they come in
 * as parameters, and the response records whether `finishAuth` was called.
 */
module AuthCallback {
  import opened Wrappers
  import opened Strings

  const SourcePath := "/auth/callback/success"
  const MissingStateMessage := "Session ID is required (state parameter missing)"
  const MissingCodeMessage := "Authorization code is required"
  const UnauthorizedMessage := "Unauthorized - Please log in"
  const FinishFailedMessage := "Failed to complete OAuth authorization"

  /** A thrown value: an `Error` object with its message, or anything else. */
  datatype Thrown = ErrorObject(message: string) | OtherValue

  /** The Supabase session lookup. */
  datatype UserLookup = SignedIn(userId: string) | SignedOut | LookupThrew(thrown: Thrown)

  /** What `finishAuth(code)` and the client's getters produce. */
  datatype FinishResult =
    | Finished(serverName: Option<string>, serverId: Option<string>, serverUrl: Option<string>)
    | FinishThrew(thrown: Thrown)

  /** The callback's query: each parameter is `null` when absent. */
  datatype CallbackQuery = CallbackQuery(
    error: Option<string>,
    errorDescription: Option<string>,
    code: Option<string>,
    state: Option<string>)

  /** A redirect to `path` on the app's origin, with its query parameters in the order they were set. */
  datatype Redirect = Redirect(path: string, query: seq<(string, string)>)

  /** The call `finishAuth` received. */
  datatype FinishCall = FinishCall(userId: string, sessionId: string, code: string)

  datatype CallbackResponse = CallbackResponse(redirect: Redirect, finishCall: Option<FinishCall>)

  /** The value of the first query parameter named `name`. */
  function QueryValue(query: seq<(string, string)>, name: string): (r: Option<string>)
    ensures r.Some? <==> exists i :: 0 <= i < |query| && query[i].0 == name
  {
    if query == [] then None
    else if query[0].0 == name then Some(query[0].1)
    else
      var rest := QueryValue(query[1..], name);
      assert forall i :: 1 <= i < |query| ==> query[i] == query[1..][i - 1];
      rest
  }

  function ErrorRedirect(message: string): Redirect {
    Redirect(SourcePath, [("step", "error"), ("error", message)])
  }

  /** The message the catch block puts in the error redirect. */
  function ThrownMessage(t: Thrown): (m: string)
    ensures t.ErrorObject? ==> m == t.message
    ensures t.OtherValue? ==> m == FinishFailedMessage
  {
    match t
    case ErrorObject(message) => message
    case OtherValue => FinishFailedMessage
  }

  /** A query parameter that is set only when its value is truthy. */
  function OptionalParam(name: string, value: Option<string>): seq<(string, string)> {
    if TruthyOpt(value) then [(name, value.value)] else []
  }

  function SuccessRedirect(sessionId: string, serverName: Option<string>, serverId: Option<string>,
                           serverUrl: Option<string>): Redirect {
    Redirect(SourcePath, [("sessionId", sessionId), ("step", "success")]
                         + OptionalParam("server", serverName)
                         + OptionalParam("serverId", serverId)
                         + OptionalParam("serverUrl", serverUrl))
  }

  /** `handleCallback`: the ladder state, provider error, code, user, code exchange. */
  function HandleCallback(q: CallbackQuery, user: UserLookup, finish: FinishResult): (r: CallbackResponse)
    ensures r.redirect.path == SourcePath
    ensures r.finishCall.Some? <==>
              TruthyOpt(q.state) && !TruthyOpt(q.error) && TruthyOpt(q.code) && user.SignedIn?
    ensures r.finishCall.Some? ==> r.finishCall.value == FinishCall(user.userId, q.state.value, q.code.value)
  {
    if !TruthyOpt(q.state) then
      CallbackResponse(ErrorRedirect(MissingStateMessage), None)
    else if TruthyOpt(q.error) then
      CallbackResponse(ErrorRedirect(Or(q.errorDescription, q.error).value), None)
    else if !TruthyOpt(q.code) then
      CallbackResponse(ErrorRedirect(MissingCodeMessage), None)
    else
      match user
      case LookupThrew(t) => CallbackResponse(ErrorRedirect(ThrownMessage(t)), None)
      case SignedOut => CallbackResponse(ErrorRedirect(UnauthorizedMessage), None)
      case SignedIn(userId) =>
        var call := Some(FinishCall(userId, q.state.value, q.code.value));
        match finish
        case FinishThrew(t) => CallbackResponse(ErrorRedirect(ThrownMessage(t)), call)
        case Finished(name, id, url) => CallbackResponse(SuccessRedirect(q.state.value, name, id, url), call)
  }

  /** A missing or empty `state` is reported first, whatever else the query holds. */
  lemma MissingStateFirst(q: CallbackQuery, user: UserLookup, finish: FinishResult)
    requires !TruthyOpt(q.state)
    ensures HandleCallback(q, user, finish).redirect == ErrorRedirect(MissingStateMessage)
  {
  }

  /** A provider error is reported before the code and the user are looked at, with its description preferred. */
  lemma ProviderErrorReported(q: CallbackQuery, user: UserLookup, finish: FinishResult)
    requires TruthyOpt(q.state) && TruthyOpt(q.error)
    ensures var r := HandleCallback(q, user, finish);
            QueryValue(r.redirect.query, "step") == Some("error") &&
            QueryValue(r.redirect.query, "error") ==
              (if TruthyOpt(q.errorDescription) then q.errorDescription else q.error) &&
            r.finishCall.None?
  {
  }

  lemma MissingCodeReported(q: CallbackQuery, user: UserLookup, finish: FinishResult)
    requires TruthyOpt(q.state) && !TruthyOpt(q.error) && !TruthyOpt(q.code)
    ensures HandleCallback(q, user, finish).redirect == ErrorRedirect(MissingCodeMessage)
  {
  }

  /** Without a signed-in user the code is not exchanged. */
  lemma SignedOutNeverExchanges(q: CallbackQuery, finish: FinishResult)
    requires TruthyOpt(q.state) && !TruthyOpt(q.error) && TruthyOpt(q.code)
    ensures HandleCallback(q, SignedOut, finish) == CallbackResponse(ErrorRedirect(UnauthorizedMessage), None)
  {
  }

  /**
   * A success redirect carries `sessionId = state` and `step=success`, and a
   * `server`, `serverId` or `serverUrl` parameter exactly when that value is
   * non-empty, holding that value.
   */
  lemma {:induction false} SuccessCarriesSession(q: CallbackQuery, userId: string, name: Option<string>,
                                                  id: Option<string>, url: Option<string>)
    requires TruthyOpt(q.state) && !TruthyOpt(q.error) && TruthyOpt(q.code)
    ensures var query := HandleCallback(q, SignedIn(userId), Finished(name, id, url)).redirect.query;
            QueryValue(query, "sessionId") == q.state && QueryValue(query, "step") == Some("success") &&
            QueryValue(query, "server") == (if TruthyOpt(name) then name else None) &&
            QueryValue(query, "serverId") == (if TruthyOpt(id) then id else None) &&
            QueryValue(query, "serverUrl") == (if TruthyOpt(url) then url else None)
  {
    var head := [("sessionId", q.state.value), ("step", "success")];
    var a, b, c := OptionalParam("server", name), OptionalParam("serverId", id), OptionalParam("serverUrl", url);
    assert HandleCallback(q, SignedIn(userId), Finished(name, id, url)).redirect.query == head + a + b + c;
    SuccessQueryValues(q.state.value, name, id, url);
  }

  /** The values read back from the success redirect's query, given how it is assembled. */
  lemma SuccessQueryValues(state: string, name: Option<string>, id: Option<string>, url: Option<string>)
    ensures var query := SuccessRedirect(state, name, id, url).query;
            QueryValue(query, "sessionId") == Some(state) && QueryValue(query, "step") == Some("success") &&
            QueryValue(query, "server") == (if TruthyOpt(name) then name else None) &&
            QueryValue(query, "serverId") == (if TruthyOpt(id) then id else None) &&
            QueryValue(query, "serverUrl") == (if TruthyOpt(url) then url else None)
  {
    var a, b, c := OptionalParam("server", name), OptionalParam("serverId", id), OptionalParam("serverUrl", url);
    SuccessHeadValues(state, a + b + c);
    assert SuccessRedirect(state, name, id, url).query == [("sessionId", state), ("step", "success")] + (a + b + c);
    ServerParamValue(state, name, id, url);
    ServerIdParamValue(state, name, id, url);
    ServerUrlParamValue(state, name, id, url);
  }

  /** The first two parameters of the success redirect are fixed. */
  lemma SuccessHeadValues(state: string, rest: seq<(string, string)>)
    ensures QueryValue([("sessionId", state), ("step", "success")] + rest, "sessionId") == Some(state)
    ensures QueryValue([("sessionId", state), ("step", "success")] + rest, "step") == Some("success")
  {
    var query := [("sessionId", state), ("step", "success")] + rest;
    assert query[0] == ("sessionId", state);
    assert query[1..][0] == ("step", "success");
  }

  /** An optional parameter names only itself. */
  lemma OptionalParamNames(name: string, value: Option<string>)
    ensures forall i :: 0 <= i < |OptionalParam(name, value)| ==> OptionalParam(name, value)[i].0 == name
  {
  }

  lemma ServerParamValue(state: string, name: Option<string>, id: Option<string>, url: Option<string>)
    ensures QueryValue(SuccessRedirect(state, name, id, url).query, "server") == (if TruthyOpt(name) then name else None)
  {
    var head: seq<(string, string)> := [("sessionId", state), ("step", "success")];
    var a, b, c := OptionalParam("server", name), OptionalParam("serverId", id), OptionalParam("serverUrl", url);
    OptionalParamNames("serverId", id);
    OptionalParamNames("serverUrl", url);
    var rest: seq<(string, string)> := b + c;
    assert forall i :: 0 <= i < |rest| ==> rest[i].0 != "server";
    OptionalParamFound(head, "server", name, rest);
    assert SuccessRedirect(state, name, id, url).query == head + a + rest;
  }

  lemma ServerIdParamValue(state: string, name: Option<string>, id: Option<string>, url: Option<string>)
    ensures QueryValue(SuccessRedirect(state, name, id, url).query, "serverId") == (if TruthyOpt(id) then id else None)
  {
    var head: seq<(string, string)> := [("sessionId", state), ("step", "success")];
    var a, c := OptionalParam("server", name), OptionalParam("serverUrl", url);
    OptionalParamNames("server", name);
    OptionalParamNames("serverUrl", url);
    assert forall i :: 0 <= i < |head + a| ==> (head + a)[i].0 != "serverId";
    OptionalParamFound(head + a, "serverId", id, c);
  }

  lemma ServerUrlParamValue(state: string, name: Option<string>, id: Option<string>, url: Option<string>)
    ensures QueryValue(SuccessRedirect(state, name, id, url).query, "serverUrl") == (if TruthyOpt(url) then url else None)
  {
    var head: seq<(string, string)> := [("sessionId", state), ("step", "success")];
    var a, b := OptionalParam("server", name), OptionalParam("serverId", id);
    OptionalParamNames("server", name);
    OptionalParamNames("serverId", id);
    assert forall i :: 0 <= i < |head + a + b| ==> (head + a + b)[i].0 != "serverUrl";
    OptionalParamFound(head + a + b, "serverUrl", url, []);
    assert SuccessRedirect(state, name, id, url).query == head + a + b + OptionalParam("serverUrl", url) + [];
  }

  /** An optional parameter between others that do not name it is found exactly when it was set. */
  lemma {:induction false} OptionalParamFound(before: seq<(string, string)>, name: string, value: Option<string>,
                                               after: seq<(string, string)>)
    requires forall i :: 0 <= i < |before| ==> before[i].0 != name
    requires forall i :: 0 <= i < |after| ==> after[i].0 != name
    ensures QueryValue(before + OptionalParam(name, value) + after, name) == (if TruthyOpt(value) then value else None)
  {
    var query := before + OptionalParam(name, value) + after;
    QueryValueSkips(query, |before|, name);
    assert query[|before|..] == OptionalParam(name, value) + after;
    if !TruthyOpt(value) {
      assert query[|before|..] == after;
    }
  }

  /** A query parameter is found past a prefix that does not name it. */
  lemma {:induction false} QueryValueSkips(query: seq<(string, string)>, n: nat, name: string)
    requires n <= |query|
    requires forall i :: 0 <= i < n ==> query[i].0 != name
    ensures QueryValue(query, name) == QueryValue(query[n..], name)
    decreases n
  {
    if n > 0 {
      assert query[1..][n - 1..] == query[n..];
      QueryValueSkips(query[1..], n - 1, name);
    }
  }

  /** A failed code exchange reports the thrown message, or the default text for a non-`Error` value. */
  lemma FinishFailureReported(q: CallbackQuery, userId: string, t: Thrown)
    requires TruthyOpt(q.state) && !TruthyOpt(q.error) && TruthyOpt(q.code)
    ensures var r := HandleCallback(q, SignedIn(userId), FinishThrew(t));
            r.redirect == ErrorRedirect(if t.ErrorObject? then t.message else FinishFailedMessage) &&
            r.finishCall == Some(FinishCall(userId, q.state.value, q.code.value))
  {
  }

  /** Every response says either `step=success` or `step=error`, and success means the code was exchanged. */
  lemma StepIsSuccessOrError(q: CallbackQuery, user: UserLookup, finish: FinishResult)
    ensures var r := HandleCallback(q, user, finish);
            QueryValue(r.redirect.query, "step") in {Some("success"), Some("error")} &&
            (QueryValue(r.redirect.query, "step") == Some("success") <==> r.finishCall.Some? && finish.Finished?)
  {
  }
}
