/**
 * The credential state both entry points keep at module level, and the
 * one-shot authorization listener that fills it.
 *
 * The web app and the bot each hold a `refreshToken` variable, the refresh and
 * access tokens of their music-service client, and the file
 * `refresh_token.txt`; `getRefreshTokenFromWeb` logs the authorization URL and
 * starts an HTTP listener on port 8888 whose handler is the same in both
 * programs. That server has no 'error' handler: if an earlier listener still
 * holds the port, the failed bind is an uncaught exception and the process
 * ends. The token grant, the token refresh and the file write are inputs
 * that succeed or fail.
 *
 * `State` is the value of that state and the functions below are its
 * transitions; the class `Session` holds the same state in mutable fields,
 * and each of its methods is proved to perform the corresponding transition.
 */
module Credentials {
  import opened Wrappers

  /** What the listener writes back: the status code and the plain-text body. */
  datatype Response = Response(status: nat, body: string)

  /** Outcome of exchanging an authorization code for tokens. */
  datatype Grant = Granted(accessToken: string, refreshToken: string) | GrantFailed

  /** Outcome of exchanging the refresh token for a new access token. */
  datatype Refresh = Refreshed(accessToken: string) | RefreshFailed

  const CallbackPath: string := "/callback"

  const SuccessPage: string := "Authorization successful! You can close this window."
  const GrantFailedPage: string := "Authorization failed."
  const NoCodePage: string := "Authorization failed: No code received."
  const NotFoundPage: string := "Not found."

  /** JavaScript truthiness of an optional string: present and not empty. */
  predicate Truthy(v: Option<string>) {
    v.Some? && v.value != []
  }

  datatype State = State(
    refreshToken: Option<string>,     // the module-level `refreshToken`
    apiRefreshToken: Option<string>,  // the client's refresh token
    apiAccessToken: Option<string>,   // the client's access token
    tokenFile: Option<string>,        // contents of refresh_token.txt, None while it does not exist
    listening: bool,                  // an authorization listener is accepting requests
    authorizationStarts: nat,         // how often the authorization flow was started
    exited: bool)                     // the process has ended on a failed bind of port 8888

  /** A process that has just started: nothing set, the file as it was left. */
  function Initial(stored: Option<string>): State {
    State(None, None, None, stored, false, 0, false)
  }

  /** Reading refresh_token.txt when it exists into `refreshToken` and the client. */
  function LoadStored(c: State): State {
    if c.tokenFile.Some? then c.(refreshToken := c.tokenFile, apiRefreshToken := c.tokenFile) else c
  }

  /**
   * `getRefreshTokenFromWeb`: log the authorization URL and start listening.
   * Starting it while a listener is still open ends the process.
   */
  function BeginAuthorization(c: State): (d: State)
    ensures d.exited <==> c.exited || c.listening
    ensures d.listening && d.authorizationStarts == c.authorizationStarts + 1
    ensures d.(listening := c.listening, authorizationStarts := c.authorizationStarts, exited := c.exited) == c
  {
    c.(listening := true, authorizationStarts := c.authorizationStarts + 1, exited := c.exited || c.listening)
  }

  /** Setting the client's access token after a successful refresh; a failure changes nothing here. */
  function AfterRefresh(c: State, r: Refresh): State {
    match r
    case Refreshed(access) => c.(apiAccessToken := Some(access))
    case RefreshFailed => c
  }

  /**
   * The listener's answer to a request for `path` whose query carried `code`,
   * where `grant` is what the code exchange returned and `saved` whether
   * writing refresh_token.txt succeeded.
   */
  function CallbackResponse(path: string, code: Option<string>, grant: Grant, saved: bool): (r: Response)
    ensures r.status == 404 <==> path != CallbackPath
    ensures r.status == 400 <==> path == CallbackPath && !Truthy(code)
    ensures r.status == 500 <==> path == CallbackPath && Truthy(code) && (grant.GrantFailed? || !saved)
    ensures r.status == 200 <==> path == CallbackPath && Truthy(code) && grant.Granted? && saved
  {
    if path != CallbackPath then Response(404, NotFoundPage)
    else if !Truthy(code) then Response(400, NoCodePage)
    else if grant.GrantFailed? || !saved then Response(500, GrantFailedPage)
    else Response(200, SuccessPage)
  }

  /** The state after the listener handled that request. */
  function AfterCallback(c: State, path: string, code: Option<string>, grant: Grant, saved: bool): State {
    if path != CallbackPath then c
    else if !Truthy(code) then c.(listening := false)
    else match grant
      case GrantFailed => c.(listening := false)
      case Granted(access, refresh) =>
        if saved then
          c.(refreshToken := Some(refresh), tokenFile := Some(refresh), apiRefreshToken := Some(refresh),
             apiAccessToken := Some(access), listening := false)
        else
          // `refreshToken` was assigned before the write threw
          c.(refreshToken := Some(refresh), listening := false)
  }

  /** The client always refreshes with the token the file holds. */
  predicate ClientUsesSavedToken(c: State) {
    c.apiRefreshToken == c.tokenFile
  }

  // ---------------------------------------------------------------------------
  // Properties of the listener
  // ---------------------------------------------------------------------------

  /** Any other path: 404, the listener stays as it was, no token changes. */
  lemma CallbackOtherPath(c: State, path: string, code: Option<string>, grant: Grant, saved: bool)
    requires path != CallbackPath
    ensures CallbackResponse(path, code, grant, saved) == Response(404, NotFoundPage)
    ensures AfterCallback(c, path, code, grant, saved) == c
  {
  }

  /** The callback without a code: 400, the listener closes, tokens and file unchanged, no exchange made. */
  lemma CallbackWithoutCode(c: State, code: Option<string>, grant: Grant, saved: bool)
    requires !Truthy(code)
    ensures CallbackResponse(CallbackPath, code, grant, saved) == Response(400, NoCodePage)
    ensures AfterCallback(c, CallbackPath, code, grant, saved) == c.(listening := false)
  {
  }

  /** A failed exchange: 500, the listener closes, tokens and file unchanged. */
  lemma CallbackGrantFailed(c: State, code: Option<string>, saved: bool)
    requires Truthy(code)
    ensures CallbackResponse(CallbackPath, code, GrantFailed, saved) == Response(500, GrantFailedPage)
    ensures AfterCallback(c, CallbackPath, code, GrantFailed, saved) == c.(listening := false)
  {
  }

  /**
   * A successful exchange whose file write fails: 500, the listener closes,
   * and only the module-level `refreshToken` has moved to the new token; the
   * client keeps its old tokens and the file its old contents.
   */
  lemma CallbackSaveFailed(c: State, code: Option<string>, access: string, refresh: string)
    requires Truthy(code)
    ensures CallbackResponse(CallbackPath, code, Granted(access, refresh), false) == Response(500, GrantFailedPage)
    ensures AfterCallback(c, CallbackPath, code, Granted(access, refresh), false)
         == c.(refreshToken := Some(refresh), listening := false)
  {
  }

  /**
   * A successful exchange: 200, the refresh token is stored in the variable,
   * the file and the client alike, the client has the new access token, and
   * the listener closes.
   */
  lemma CallbackGranted(c: State, code: Option<string>, access: string, refresh: string)
    requires Truthy(code)
    ensures CallbackResponse(CallbackPath, code, Granted(access, refresh), true) == Response(200, SuccessPage)
    ensures var d := AfterCallback(c, CallbackPath, code, Granted(access, refresh), true);
      && d.refreshToken == d.tokenFile == d.apiRefreshToken == Some(refresh)
      && d.apiAccessToken == Some(access)
      && !d.listening
      && d.authorizationStarts == c.authorizationStarts
  {
  }

  /** Handling a request never starts another authorization and never reopens the listener. */
  lemma CallbackNeverOpens(c: State, path: string, code: Option<string>, grant: Grant, saved: bool)
    ensures var d := AfterCallback(c, path, code, grant, saved);
      && d.authorizationStarts == c.authorizationStarts
      && (d.listening ==> c.listening)
      && (path == CallbackPath ==> !d.listening)
  {
  }

  /**
   * Once loaded, the client's refresh token is the saved one, and every
   * transition keeps it so: the file and the client's token are only ever
   * changed together.
   */
  lemma SavedTokenInvariant(c: State, path: string, code: Option<string>, grant: Grant, saved: bool, r: Refresh)
    ensures ClientUsesSavedToken(LoadStored(Initial(c.tokenFile)))
    ensures ClientUsesSavedToken(c) ==> ClientUsesSavedToken(AfterCallback(c, path, code, grant, saved))
    ensures ClientUsesSavedToken(c) ==> ClientUsesSavedToken(AfterRefresh(c, r))
    ensures ClientUsesSavedToken(c) ==> ClientUsesSavedToken(BeginAuthorization(c))
  {
  }

  /**
   * A token saved by a successful callback is the one the next process
   * start loads into the client.
   */
  lemma SavedTokenSurvivesRestart(c: State, code: Option<string>, access: string, refresh: string)
    requires Truthy(code)
    ensures var d := AfterCallback(c, CallbackPath, code, Granted(access, refresh), true);
      var next := LoadStored(Initial(d.tokenFile));
      next.refreshToken == next.apiRefreshToken == Some(refresh)
  {
  }

  /** A refresh touches nothing but the access token, and a failed one touches nothing. */
  lemma RefreshOnlySetsAccessToken(c: State, r: Refresh)
    ensures AfterRefresh(c, r).(apiAccessToken := c.apiAccessToken) == c
    ensures r.RefreshFailed? ==> AfterRefresh(c, r) == c
    ensures r.Refreshed? ==> AfterRefresh(c, r).apiAccessToken == Some(r.accessToken)
  {
  }

  // ---------------------------------------------------------------------------
  // The mutable state
  // ---------------------------------------------------------------------------

  class Session {
    var refreshToken: Option<string>
    var apiRefreshToken: Option<string>
    var apiAccessToken: Option<string>
    var tokenFile: Option<string>
    var listening: bool
    var authorizationStarts: nat
    var exited: bool

    ghost function View(): State
      reads this
    {
      State(refreshToken, apiRefreshToken, apiAccessToken, tokenFile, listening, authorizationStarts, exited)
    }

    /** Process start, with refresh_token.txt holding `stored` (None: no such file). */
    constructor (stored: Option<string>)
      ensures View() == Initial(stored)
    {
      refreshToken, apiRefreshToken, apiAccessToken := None, None, None;
      tokenFile := stored;
      listening, authorizationStarts, exited := false, 0, false;
    }

    /** If refresh_token.txt exists, read it into `refreshToken` and the client. */
    method LoadStoredToken()
      modifies this
      ensures View() == LoadStored(old(View()))
    {
      if tokenFile.Some? {
        refreshToken := tokenFile;
        apiRefreshToken := refreshToken;
      }
    }

    /**
     * `getRefreshTokenFromWeb`: log the authorization URL and start the
     * listener; the bind fails, and the process ends, while one is still open.
     */
    method GetRefreshTokenFromWeb()
      modifies this
      ensures View() == BeginAuthorization(old(View()))
    {
      authorizationStarts := authorizationStarts + 1;
      if listening {
        exited := true;
      }
      listening := true;
    }

    /** The listener's request handler. */
    method HandleRequest(path: string, code: Option<string>, grant: Grant, saved: bool) returns (resp: Response)
      modifies this
      ensures resp == CallbackResponse(path, code, grant, saved)
      ensures View() == AfterCallback(old(View()), path, code, grant, saved)
    {
      if path == CallbackPath {
        if Truthy(code) {
          match grant {
            case Granted(access, refresh) =>
              refreshToken := Some(refresh);
              if saved {
                tokenFile := refreshToken;
                apiRefreshToken := refreshToken;
                apiAccessToken := Some(access);
                resp := Response(200, SuccessPage);
              } else {
                resp := Response(500, GrantFailedPage);
              }
              listening := false;
            case GrantFailed =>
              resp := Response(500, GrantFailedPage);
              listening := false;
          }
        } else {
          resp := Response(400, NoCodePage);
          listening := false;
        }
      } else {
        resp := Response(404, NotFoundPage);
      }
    }

    /**
     * The part of `refreshAccessToken` both programs share: on success the
     * client gets the new access token. Returns whether it succeeded.
     */
    method ApplyRefresh(r: Refresh) returns (ok: bool)
      modifies this
      ensures ok <==> r.Refreshed?
      ensures View() == AfterRefresh(old(View()), r)
    {
      ok := r.Refreshed?;
      if ok {
        apiAccessToken := Some(r.accessToken);
      }
    }
  }
}
