/** The client's error handler: a table from error codes to handlers, filled
    with the defaults at construction and extended by `register`; `handle`
    picks a code for an error and runs its handler. The browser effects of
    the 401 handler and of `handleAuthError` (removed storage keys and a
    navigation) are returned as data. */
module ErrorHandling {
  import opened Wrappers
  import opened Utils

  /** A `Map` key: the string codes and the numeric HTTP statuses never collide. */
  datatype Code = StrCode(name: string) | NumCode(status: int)

  const NetworkCode: Code := StrCode("NETWORK_ERROR")
  const UnknownCode: Code := StrCode("UNKNOWN")
  const Unauthorized: Code := NumCode(401)
  const Forbidden: Code := NumCode(403)
  const NotFound: Code := NumCode(404)
  const ValidationError: Code := NumCode(422)
  const ServerError: Code := NumCode(500)

  datatype HandlerResult = HandlerResult(
    message: string, kind: string, retry: bool, details: Option<seq<string>>, redirect: Option<string>)

  /** What a handler did to the browser besides returning. */
  datatype Effects = Effects(removedKeys: seq<string>, navigateTo: Option<string>)

  const NoEffects: Effects := Effects([], None)

  /** `Threw` is a `TypeError` from reading a property of `null`/`undefined`. */
  datatype Outcome = Handled(result: HandlerResult, effects: Effects) | Threw

  /** A registered handler: one of the built-in ones, or one from `register`. */
  datatype Handler =
    | NetworkHandler
    | AuthHandler
    | ForbiddenHandler
    | NotFoundHandler
    | ValidationHandler
    | ServerHandler
    | Custom(run: JsError -> Outcome)

  function Plain(message: string, kind: string, retry: bool): HandlerResult {
    HandlerResult(message, kind, retry, None, None)
  }

  /** `error.response?.data?.errors || []` (an array is truthy even when empty). */
  function ValidationDetails(e: JsError): seq<string> {
    if e.ErrorObject? && e.response.Some? && e.response.value.data.Some? && e.response.value.data.value.errors.Some?
    then e.response.value.data.value.errors.value
    else []
  }

  /** Runs a handler; `path` is `window.location.pathname`. */
  function Run(h: Handler, e: JsError, path: string): Outcome {
    match h
    case NetworkHandler =>
      Handled(Plain("Network connection failed. Please check your internet connection.", "network", true), NoEffects)
    case AuthHandler =>
      Handled(Plain("Your session has expired. Please login again.", "auth", false),
              Effects(["token", "user"], if path != "/login" then Some("/login") else None))
    case ForbiddenHandler =>
      Handled(Plain("You do not have permission to perform this action.", "permission", false), NoEffects)
    case NotFoundHandler =>
      Handled(Plain("The requested resource was not found.", "notFound", false), NoEffects)
    case ValidationHandler =>
      // `error.response?.data?.errors` throws on a null error
      if e.NoError? then Threw
      else Handled(HandlerResult(GetErrorMessage(e), "validation", false, Some(ValidationDetails(e)), None), NoEffects)
    case ServerHandler =>
      Handled(Plain("A server error occurred. Please try again later.", "server", true), NoEffects)
    case Custom(run) => run(e)
  }

  /** `defaultHandler`: the message, unless it is empty (only an empty string
      error gives one), else a fixed text with a full stop. */
  function DefaultResult(e: JsError): (r: HandlerResult)
    ensures r.kind == "unknown" && r.retry && r.details.None? && r.redirect.None?
    ensures GetErrorMessage(e) != "" ==> r.message == GetErrorMessage(e)
    ensures r.message == "An unexpected error occurred." <==> e == StringError("") || GetErrorMessage(e) == "An unexpected error occurred."
  {
    var m := GetErrorMessage(e);
    Plain(if m != "" then m else "An unexpected error occurred.", "unknown", true)
  }

  /** The code `handle` looks up, or `None` when choosing it throws (a null
      error while online). */
  function ErrorCode(e: JsError, online: bool): (c: Option<Code>)
    ensures IsNetworkError(e, online) ==> c == Some(NetworkCode)
    ensures !IsNetworkError(e, online) && e.NoError? ==> c.None?
    ensures forall status :: HasStatus(e, online, status) && status != 0 ==> c == Some(NumCode(status))
    ensures !IsNetworkError(e, online) && !e.NoError? && !(exists status :: HasStatus(e, online, status) && status != 0) ==>
      c == Some(UnknownCode)
  {
    if IsNetworkError(e, online) then Some(NetworkCode)
    else if e.NoError? then None
    else if e.ErrorObject? && e.response.Some? && e.response.value.status.Some? && e.response.value.status.value != 0
    then Some(NumCode(e.response.value.status.value))
    else Some(UnknownCode)
  }

  /** `handle(error)` against a handler table. */
  function HandleWith(handlers: map<Code, Handler>, e: JsError, online: bool, path: string): (r: Outcome)
    ensures ErrorCode(e, online).None? ==> r.Threw?
    ensures ErrorCode(e, online).Some? && ErrorCode(e, online).value !in handlers ==> r == Handled(DefaultResult(e), NoEffects)
  {
    match ErrorCode(e, online)
    case None => Threw
    case Some(c) => if c in handlers then Run(handlers[c], e, path) else Handled(DefaultResult(e), NoEffects)
  }

  /** The table `setupDefaultHandlers` fills. */
  function DefaultHandlers(): (m: map<Code, Handler>)
    ensures m.Keys == {NetworkCode, Unauthorized, Forbidden, NotFound, ValidationError, ServerError}
  {
    map[NetworkCode := NetworkHandler, Unauthorized := AuthHandler, Forbidden := ForbiddenHandler,
        NotFound := NotFoundHandler, ValidationError := ValidationHandler, ServerError := ServerHandler]
  }

  /** A response status of the error, for a non-network error that has one. */
  predicate HasStatus(e: JsError, online: bool, status: int) {
    !IsNetworkError(e, online) && e.ErrorObject? && e.response.Some? && e.response.value.status == Some(status)
  }

  /** The default table's answer to a network error. */
  lemma DefaultNetwork(e: JsError, online: bool, path: string)
    requires IsNetworkError(e, online)
    ensures HandleWith(DefaultHandlers(), e, online, path) == Handled(Plain(
      "Network connection failed. Please check your internet connection.", "network", true), NoEffects)
  {
  }

  /** 401 clears the stored session and navigates to `/login` unless already there. */
  lemma DefaultUnauthorized(e: JsError, online: bool, path: string)
    requires HasStatus(e, online, 401)
    ensures var r := HandleWith(DefaultHandlers(), e, online, path);
      && r.result == Plain("Your session has expired. Please login again.", "auth", false)
      && r.effects.removedKeys == ["token", "user"]
      && (r.effects.navigateTo.Some? <==> path != "/login")
  {
    assert ErrorCode(e, online) == Some(Unauthorized);
  }

  /** 403, 404 and 500 give their fixed results, without effects. */
  lemma DefaultFixedStatuses(e: JsError, online: bool, path: string)
    ensures HasStatus(e, online, 403) ==>
      HandleWith(DefaultHandlers(), e, online, path) == Handled(Plain(
        "You do not have permission to perform this action.", "permission", false), NoEffects)
    ensures HasStatus(e, online, 404) ==>
      HandleWith(DefaultHandlers(), e, online, path) == Handled(Plain(
        "The requested resource was not found.", "notFound", false), NoEffects)
    ensures HasStatus(e, online, 500) ==>
      HandleWith(DefaultHandlers(), e, online, path) == Handled(Plain(
        "A server error occurred. Please try again later.", "server", true), NoEffects)
  {
    if HasStatus(e, online, 403) {
      assert ErrorCode(e, online) == Some(Forbidden);
    }
    if HasStatus(e, online, 404) {
      assert ErrorCode(e, online) == Some(NotFound);
    }
    if HasStatus(e, online, 500) {
      assert ErrorCode(e, online) == Some(ServerError);
    }
  }

  /** 422 reports the server's message and its `errors` list (or `[]`). */
  lemma DefaultValidation(e: JsError, online: bool, path: string)
    requires HasStatus(e, online, 422)
    ensures HandleWith(DefaultHandlers(), e, online, path) == Handled(HandlerResult(
      GetErrorMessage(e), "validation", false, Some(ValidationDetails(e)), None), NoEffects)
  {
    assert ErrorCode(e, online) == Some(ValidationError);
  }

  /** A network error is classified as such before its status is looked at. */
  lemma NetworkBeforeStatus(e: JsError, path: string, status: int)
    requires e.ErrorObject? && e.response == Some(HttpResponse(Some(status), None))
    ensures HandleWith(DefaultHandlers(), e, false, path).result.kind == "network"
  {
  }

  /** Any code without a registered handler gets the default result, which
      retries. */
  lemma UnknownCodesFallBack(e: JsError, online: bool, path: string)
    requires ErrorCode(e, online).Some?
    requires ErrorCode(e, online).value !in DefaultHandlers()
    ensures HandleWith(DefaultHandlers(), e, online, path) == Handled(DefaultResult(e), NoEffects)
    ensures HandleWith(DefaultHandlers(), e, online, path).result.kind == "unknown"
    ensures HandleWith(DefaultHandlers(), e, online, path).result.retry
  {
  }

  /** `handleSocketError`. */
  function HandleSocketError(e: JsError): (r: HandlerResult)
    ensures r.kind == "socket" && r.retry
  {
    Plain("Connection to chat server lost. Reconnecting...", "socket", true)
  }

  /** `handleFileUploadError`: reading `error.code` throws on a null error. */
  function HandleFileUploadError(e: JsError): (r: Outcome)
    ensures r.Threw? <==> e.NoError?
    ensures e.ErrorObject? && e.code == Some("FILE_TOO_LARGE") ==> r.result.kind == "fileSize" && !r.result.retry
    ensures e.ErrorObject? && e.code == Some("INVALID_FILE_TYPE") ==> r.result.kind == "fileType" && !r.result.retry
    ensures !e.NoError? && !(e.ErrorObject? && e.code in {Some("FILE_TOO_LARGE"), Some("INVALID_FILE_TYPE")}) ==>
      r.result.kind == "upload" && r.result.retry
    ensures r.Handled? ==> r.effects == NoEffects
  {
    if e.NoError? then Threw
    else if e.ErrorObject? && e.code == Some("FILE_TOO_LARGE") then
      Handled(Plain("File is too large. Maximum size is 10MB.", "fileSize", false), NoEffects)
    else if e.ErrorObject? && e.code == Some("INVALID_FILE_TYPE") then
      Handled(Plain("File type not supported.", "fileType", false), NoEffects)
    else Handled(Plain("Failed to upload file. Please try again.", "upload", true), NoEffects)
  }

  /** `handleAuthError`: clears the stored session and asks for `/login`. */
  function HandleAuthError(e: JsError): (r: Outcome)
    ensures r.Handled? && r.result.kind == "auth" && !r.result.retry && r.result.redirect == Some("/login")
    ensures r.effects == Effects(["token", "user"], None)
  {
    Handled(HandlerResult("Authentication failed. Please login again.", "auth", false, None, Some("/login")),
            Effects(["token", "user"], None))
  }

  /** The handler object with its `errorHandlers` map. */
  class ErrorHandler {
    var handlers: map<Code, Handler>

    constructor ()
      ensures handlers == DefaultHandlers()
    {
      handlers := map[];
      new;
      Register(NetworkCode, NetworkHandler);
      Register(Unauthorized, AuthHandler);
      Register(Forbidden, ForbiddenHandler);
      Register(NotFound, NotFoundHandler);
      Register(ValidationError, ValidationHandler);
      Register(ServerError, ServerHandler);
    }

    /** `register`: `Map.set`, which replaces an earlier handler for the code. */
    method Register(code: Code, handler: Handler)
      modifies this
      ensures handlers == old(handlers)[code := handler]
    {
      handlers := handlers[code := handler];
    }

    /** `handle(error)`. */
    method Handle(e: JsError, online: bool, path: string) returns (r: Outcome)
      ensures r == HandleWith(handlers, e, online, path)
    {
      var code := ErrorCode(e, online);
      if code.None? {
        return Threw;
      }
      if code.value in handlers {
        r := Run(handlers[code.value], e, path);
      } else {
        r := Handled(DefaultResult(e), NoEffects);
      }
    }
  }

  /** After two registrations for one code, the later handler answers. */
  lemma LastRegistrationWins(handlers: map<Code, Handler>, c: Code, h1: Handler, h2: Handler,
                             e: JsError, online: bool, path: string)
    requires ErrorCode(e, online) == Some(c)
    ensures HandleWith(handlers[c := h1][c := h2], e, online, path) == Run(h2, e, path)
  {
  }

  /** Registering for one code does not change how other codes are handled. */
  lemma RegisterIsLocal(handlers: map<Code, Handler>, c: Code, h: Handler, e: JsError, online: bool, path: string)
    requires ErrorCode(e, online) != Some(c)
    ensures HandleWith(handlers[c := h], e, online, path) == HandleWith(handlers, e, online, path)
  {
  }
}
