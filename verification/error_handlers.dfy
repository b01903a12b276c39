/** The application's error handlers: how each kind of raised error becomes a response, JSON
    for paths under '/api/' and an HTML error page otherwise, and how database integrity
    failures are turned into a readable message. */
module ErrorHandlers {
  import opened Wrappers
  import opened Strings
  import opened Exceptions

  const EMAIL_TAKEN := "El email ya está registrado"
  const RUT_TAKEN := "El RUT ya está registrado"
  const DUPLICATE_ROW := "Registro duplicado: el valor ya existe"
  const BAD_REFERENCE := "Referencia inválida: el registro relacionado no existe"
  const MISSING_FIELD := "Campo requerido faltante"
  const INTEGRITY_FAILURE := "Error de integridad de datos"

  /** The message `handle_integrity_error` picks from the database's error text, matched
      case-insensitively: a uniqueness failure names the email or the RUT when it mentions
      them (email first); otherwise a foreign key, then a null column; otherwise a generic
      message. */
  function IntegrityMessage(text: string): (m: string)
    ensures var t := LowerAll(text);
      && (m == EMAIL_TAKEN <==> Contains(t, "unique") && Contains(t, "email"))
      && (m == RUT_TAKEN <==> Contains(t, "unique") && !Contains(t, "email") && Contains(t, "rut"))
      && (m == DUPLICATE_ROW <==> Contains(t, "unique") && !Contains(t, "email") && !Contains(t, "rut"))
      && (m == BAD_REFERENCE <==> !Contains(t, "unique") && Contains(t, "foreign key"))
      && (m == MISSING_FIELD <==> !Contains(t, "unique") && !Contains(t, "foreign key") && Contains(t, "not null"))
      && (m == INTEGRITY_FAILURE <==>
            !Contains(t, "unique") && !Contains(t, "foreign key") && !Contains(t, "not null"))
  {
    var t := LowerAll(text);
    if Contains(t, "unique") then
      if Contains(t, "email") then EMAIL_TAKEN
      else if Contains(t, "rut") then RUT_TAKEN
      else DUPLICATE_ROW
    else if Contains(t, "foreign key") then BAD_REFERENCE
    else if Contains(t, "not null") then MISSING_FIELD
    else INTEGRITY_FAILURE
  }

  /** The classification ignores letter case. */
  lemma IntegrityMessageIgnoresCase(text: string)
    ensures IntegrityMessage(LowerAll(text)) == IntegrityMessage(text)
  {
    LowerAllIdempotent(text);
  }

  /** The custom integrity error `handle_integrity_error` raises in place of the database's:
      the classified message, the original text as the constraint, status 500. */
  function IntegrityErrorFor(text: string): (e: AppError)
    ensures e.message == IntegrityMessage(text)
    ensures e.kind == Integrity(Some(text), 500)
    ensures ErrorCode(e.kind) == Some("DATABASE_ERROR") && StatusCode(e.kind) == 500
  {
    IntegrityError(IntegrityMessage(text), Some(text), None)
  }

  /** A response: a JSON body with a status, or an HTML error page with a status and the
      message flashed to it, if any. */
  datatype Response = JsonResponse(body: JsonObject, status: nat) | HtmlPage(flashed: Option<string>, status: nat)

  /** API paths get JSON. */
  predicate IsApiPath(path: string) {
    StartsWith(path, "/api/")
  }

  /** `handle_expense_app_exception`: the exception's dictionary as JSON for API paths, an
      error page with the message flashed otherwise; the exception's status either way. */
  function HandleAppException(e: AppError, path: string): (r: Response)
    ensures r.status == StatusCode(e.kind)
    ensures r.JsonResponse? <==> IsApiPath(path)
    ensures r.JsonResponse? ==> r.body == ToDict(e)
    ensures r.HtmlPage? ==> r.flashed == Some(e.message)
  {
    if IsApiPath(path) then JsonResponse(ToDict(e), StatusCode(e.kind))
    else HtmlPage(Some(e.message), StatusCode(e.kind))
  }

  /** A standard HTTP error: its code, name and description. */
  datatype HttpError = HttpError(code: nat, name: string, description: string)

  /** The text of an HTTP error (`str(e)`): code, name and description. */
  function HttpText(h: HttpError): string {
    NatToString(h.code) + " " + h.name + ": " + h.description
  }

  /** `handle_http_exception`: name, description, success false and the code, as JSON for API
      paths; an error page otherwise; the error's own code either way. */
  function HandleHttpException(h: HttpError, path: string): (r: Response)
    ensures r.status == h.code
    ensures r.JsonResponse? <==> IsApiPath(path)
    ensures r.JsonResponse? ==> r.body.Keys == {"error", "message", "success", "status_code"}
    ensures r.JsonResponse? ==> r.body["success"] == JBool(false) && r.body["status_code"] == JNum(h.code)
    ensures r.JsonResponse? ==> r.body["error"] == JStr(h.name) && r.body["message"] == JStr(h.description)
    ensures r.HtmlPage? ==> r.flashed.None?
  {
    if IsApiPath(path) then
      JsonResponse(map["error" := JStr(h.name), "message" := JStr(h.description),
                       "success" := JBool(false), "status_code" := JNum(h.code)], h.code)
    else HtmlPage(None, h.code)
  }

  const MASKED_MESSAGE := "Error interno del servidor. Por favor, contacta al soporte."

  /** `handle_generic_exception`: an INTERNAL_ERROR/500 application error whose message hides
      the cause in production and names it otherwise. */
  function GenericError(text: string, env: Option<string>): (e: AppError)
    ensures e.kind == General(Some("INTERNAL_ERROR"), 500)
    ensures env == Some("production") ==> e.message == MASKED_MESSAGE
    ensures env != Some("production") ==> e.message == "Error no manejado: " + text
    ensures env != Some("production") ==> StartsWith(e.message, "Error no manejado: ") && e.message[19..] == text
  {
    var prefix := "Error no manejado: ";
    assert |prefix| == 19 && (prefix + text)[..|prefix|] == prefix && (prefix + text)[|prefix|..] == text;
    AppError(General(Some("INTERNAL_ERROR"), 500),
             if env == Some("production") then MASKED_MESSAGE else prefix + text, None)
  }

  /** In production two different causes give the same response. */
  lemma ProductionHidesCause(t1: string, t2: string, path: string)
    ensures HandleAppException(GenericError(t1, Some("production")), path)
         == HandleAppException(GenericError(t2, Some("production")), path)
  {
  }

  /** What reached the error handlers. */
  datatype Raised =
    | AppRaised(e: AppError)
    | DbIntegrityRaised(text: string)
    | DbRaised(text: string)
    | HttpRaised(h: HttpError)
    | OtherRaised(text: string)

  /** How handling ended: a response, or the handler itself failed. */
  datatype Handled = Responded(response: Response) | HandlerFailed(reason: string)

  /** The failure of `handle_database_error`: its `getattr` call passes four arguments. */
  const GETATTR_ARITY := "getattr expected at most 3 arguments, got 4"

  /** `register_error_handlers`: the handler of the most specific registered class, and for an
      HTTP error the handler registered for its code first (500 goes to the generic handler,
      401, 403 and 404 to the HTTP one). */
  function Dispatch(x: Raised, path: string, env: Option<string>): (h: Handled)
    ensures x.AppRaised? ==> h == Responded(HandleAppException(x.e, path))
    ensures x.DbIntegrityRaised? ==> h == Responded(HandleAppException(IntegrityErrorFor(x.text), path))
    ensures x.DbRaised? ==> h == HandlerFailed(GETATTR_ARITY)
    ensures x.HttpRaised? && x.h.code == 500 ==> h == Responded(HandleAppException(GenericError(HttpText(x.h), env), path))
    ensures x.HttpRaised? && x.h.code != 500 ==> h == Responded(HandleHttpException(x.h, path))
    ensures x.OtherRaised? ==> h == Responded(HandleAppException(GenericError(x.text, env), path))
  {
    match x
    case AppRaised(e) => Responded(HandleAppException(e, path))
    case DbIntegrityRaised(text) => Responded(HandleAppException(IntegrityErrorFor(text), path))
    case DbRaised(_) => HandlerFailed(GETATTR_ARITY)
    case HttpRaised(herr) =>
      if herr.code == 500 then Responded(HandleAppException(GenericError(HttpText(herr), env), path))
      else Responded(HandleHttpException(herr, path))
    case OtherRaised(text) => Responded(HandleAppException(GenericError(text, env), path))
  }

  /** Every response the handlers produce carries the status of what was raised: the
      exception's own, 500 for integrity and unexpected errors, the HTTP code otherwise. */
  lemma DispatchStatus(x: Raised, path: string, env: Option<string>)
    requires Dispatch(x, path, env).Responded?
    ensures var s := Dispatch(x, path, env).response.status;
      && (x.AppRaised? ==> s == StatusCode(x.e.kind))
      && (x.DbIntegrityRaised? || x.OtherRaised? ==> s == 500)
      && (x.HttpRaised? ==> s == x.h.code)
  {
    if x.HttpRaised? && x.h.code == 500 {
      assert StatusCode(GenericError(HttpText(x.h), env).kind) == 500;
    }
  }

  /** On an API path an integrity failure answers with the classified message, the original
      text as the constraint, and success false. */
  lemma IntegrityJsonBody(text: string, path: string, env: Option<string>)
    requires IsApiPath(path) && text != ""
    ensures var r := Dispatch(DbIntegrityRaised(text), path, env).response;
      && r.JsonResponse? && r.status == 500
      && "error" in r.body && r.body["error"] == JStr(IntegrityMessage(text))
      && "error_code" in r.body && r.body["error_code"] == JStr("DATABASE_ERROR")
      && "success" in r.body && r.body["success"] == JBool(false)
      && "constraint" in r.body && r.body["constraint"] == JStr(text)
      && "operation" in r.body && r.body["operation"] == JStr("INTEGRITY_CHECK")
  {
    var e := IntegrityErrorFor(text);
    IntegrityFields(Some(text), 500);
    assert BaseDict(e).Keys == {"error", "error_code", "success"} by {
      assert BaseDict(e) == map["error" := JStr(e.message), "error_code" := JStr("DATABASE_ERROR"), "success" := JBool(false)];
    }
    assert "error" !in Fields(e.kind) && "error_code" !in Fields(e.kind) && "success" !in Fields(e.kind) by {
      assert Fields(e.kind).Keys == {"operation", "constraint"};
    }
  }
}
