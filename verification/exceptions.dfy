/** The application's exception hierarchy: each class fixes an error code and an HTTP status,
    and `to_dict` renders an exception as the JSON object the API returns. */
module Exceptions {
  import opened Wrappers
  import opened Strings

  /** The JSON values that appear in error bodies. Numbers are abstract integers. */
  datatype Json = JStr(s: string) | JNum(n: int) | JBool(b: bool) | JNull

  /** A JSON object. Key order is not modelled. */
  type JsonObject = map<string, Json>

  /** The exception classes with the attributes their `to_dict` reads. A subclass carries its
      parent's attributes, as Python's inheritance does. `Database`, `ExternalService` and
      `Api` take their status from the caller (500 unless given). */
  datatype Kind =
    | General(code: Option<string>, status: nat)
    | Validation(invalidField: Option<string>)
    | Authentication
    | Authorization
    | NotFound(resource: string)
    | Conflict
    | DuplicateResource(resource: string, field: string, value: string)
    | BusinessRule(rule: Option<string>)
    | ExpenseLimit(amount: int, limit: int)
    | FileUpload
    | FileValidation(fileType: Option<string>)
    | FileSize(size: int, maxSize: int)
    | Database(operation: Option<string>, dbStatus: nat)
    | Integrity(constraint: Option<string>, integrityStatus: nat)
    | ExternalService(service: string, serviceStatus: nat)
    | Api(endpoint: Option<string>, apiStatus: nat)

  /** An exception value: its class, its message and the optional extra payload. */
  datatype AppError = AppError(kind: Kind, message: string, payload: Option<JsonObject>)

  /** The `error_code` each class passes to the base constructor. */
  function ErrorCode(k: Kind): Option<string> {
    match k
    case General(code, _) => code
    case Validation(_) => Some("VALIDATION_ERROR")
    case Authentication => Some("AUTH_ERROR")
    case Authorization => Some("AUTHZ_ERROR")
    case NotFound(_) => Some("NOT_FOUND")
    case Conflict => Some("CONFLICT")
    case DuplicateResource(_, _, _) => Some("CONFLICT")
    case BusinessRule(_) => Some("BUSINESS_RULE_ERROR")
    case ExpenseLimit(_, _) => Some("BUSINESS_RULE_ERROR")
    case FileUpload => Some("FILE_UPLOAD_ERROR")
    case FileValidation(_) => Some("FILE_UPLOAD_ERROR")
    case FileSize(_, _) => Some("FILE_UPLOAD_ERROR")
    case Database(_, _) => Some("DATABASE_ERROR")
    case Integrity(_, _) => Some("DATABASE_ERROR")
    case ExternalService(_, _) => Some("EXTERNAL_SERVICE_ERROR")
    case Api(_, _) => Some("API_ERROR")
  }

  /** The `status_code` each class passes to the base constructor. */
  function StatusCode(k: Kind): nat {
    match k
    case General(_, status) => status
    case Validation(_) => 400
    case Authentication => 401
    case Authorization => 403
    case NotFound(_) => 404
    case Conflict => 409
    case DuplicateResource(_, _, _) => 409
    case BusinessRule(_) => 422
    case ExpenseLimit(_, _) => 422
    case FileUpload => 400
    case FileValidation(_) => 400
    case FileSize(_, _) => 400
    case Database(_, status) => status
    case Integrity(_, status) => status
    case ExternalService(_, status) => status
    case Api(_, status) => status
  }

  /** The class each class derives from (the base class for the direct subclasses). */
  function Parent(k: Kind): (p: Option<Kind>)
    ensures p.Some? ==> ErrorCode(p.value) == ErrorCode(k) && StatusCode(p.value) == StatusCode(k)
  {
    match k
    case DuplicateResource(_, _, _) => Some(Conflict)
    case ExpenseLimit(_, _) => Some(BusinessRule(Some("EXPENSE_LIMIT")))
    case FileValidation(_) => Some(FileUpload)
    case FileSize(_, _) => Some(FileUpload)
    case Integrity(_, status) => Some(Database(Some("INTEGRITY_CHECK"), status))
    case _ => None
  }

  /** The error code/status table of the fixed-status classes. */
  lemma CodeStatusTable(field: Option<string>, resource: string, rule: Option<string>)
    ensures ErrorCode(Validation(field)) == Some("VALIDATION_ERROR") && StatusCode(Validation(field)) == 400
    ensures ErrorCode(Authentication) == Some("AUTH_ERROR") && StatusCode(Authentication) == 401
    ensures ErrorCode(Authorization) == Some("AUTHZ_ERROR") && StatusCode(Authorization) == 403
    ensures ErrorCode(NotFound(resource)) == Some("NOT_FOUND") && StatusCode(NotFound(resource)) == 404
    ensures ErrorCode(Conflict) == Some("CONFLICT") && StatusCode(Conflict) == 409
    ensures ErrorCode(BusinessRule(rule)) == Some("BUSINESS_RULE_ERROR") && StatusCode(BusinessRule(rule)) == 422
    ensures ErrorCode(FileUpload) == Some("FILE_UPLOAD_ERROR") && StatusCode(FileUpload) == 400
  {
  }

  /** Python truthiness of an optional text attribute. */
  predicate Present(s: Option<string>) { Truthy(s) }

  /** The base `to_dict`: error, error_code and success, then the payload merged over them
      when it is non-empty. */
  function BaseDict(e: AppError): (d: JsonObject)
    ensures "error" in d && "error_code" in d && "success" in d
    ensures e.payload.Some? ==> forall key :: key in e.payload.value ==> key in d && d[key] == e.payload.value[key]
    ensures forall key :: key in d && key !in {"error", "error_code", "success"} ==> e.payload.Some? && key in e.payload.value
    ensures (e.payload.None? || "error" !in e.payload.value) ==> d["error"] == JStr(e.message)
    ensures (e.payload.None? || "success" !in e.payload.value) ==> d["success"] == JBool(false)
  {
    var code := ErrorCode(e.kind);
    var base := map["error" := JStr(e.message),
                    "error_code" := (if code.Some? then JStr(code.value) else JNull),
                    "success" := JBool(false)];
    if e.payload.Some? && |e.payload.value| > 0 then base + e.payload.value else base
  }

  /** The attributes a class's own `to_dict` adds, after its parent's. */
  function OwnFields(k: Kind): (d: JsonObject) {
    match k
    case Validation(field) => if Present(field) then map["field" := JStr(field.value)] else map[]
    case NotFound(resource) => map["resource" := JStr(resource)]
    case DuplicateResource(resource, field, value) =>
      map["resource" := JStr(resource), "field" := JStr(field), "value" := JStr(value)]
    case BusinessRule(rule) => if Present(rule) then map["rule" := JStr(rule.value)] else map[]
    case ExpenseLimit(amount, limit) => map["amount" := JNum(amount), "limit" := JNum(limit)]
    case FileValidation(fileType) => if Present(fileType) then map["file_type" := JStr(fileType.value)] else map[]
    case FileSize(size, maxSize) => map["size" := JNum(size), "max_size" := JNum(maxSize)]
    case Database(operation, _) => if Present(operation) then map["operation" := JStr(operation.value)] else map[]
    case Integrity(constraint, _) => if Present(constraint) then map["constraint" := JStr(constraint.value)] else map[]
    case ExternalService(service, _) => map["service" := JStr(service)]
    case Api(endpoint, _) => if Present(endpoint) then map["endpoint" := JStr(endpoint.value)] else map[]
    case _ => map[]
  }

  /** The fields of the class and its ancestors, ancestors first. */
  function Fields(k: Kind): JsonObject {
    match Parent(k)
    case None => OwnFields(k)
    case Some(p) => OwnFields(p) + OwnFields(k)
  }

  /** `to_dict`: the base dictionary, then each class's fields from the root down, so class
      fields win over payload keys of the same name. */
  function ToDict(e: AppError): (d: JsonObject)
    ensures forall key :: key in Fields(e.kind) ==> key in d && d[key] == Fields(e.kind)[key]
    ensures forall key :: key in BaseDict(e) && key !in Fields(e.kind) ==> key in d && d[key] == BaseDict(e)[key]
    ensures d.Keys == BaseDict(e).Keys + Fields(e.kind).Keys
  {
    BaseDict(e) + Fields(e.kind)
  }

  /** Whatever the payload holds, a not-found error always names its resource and a duplicate
      always names resource, field and value. */
  lemma ClassFieldsWinOverPayload(e: AppError)
    ensures e.kind.NotFound? ==> ToDict(e)["resource"] == JStr(e.kind.resource)
    ensures e.kind.DuplicateResource? ==>
      && ToDict(e)["resource"] == JStr(e.kind.resource)
      && ToDict(e)["field"] == JStr(e.kind.field)
      && ToDict(e)["value"] == JStr(e.kind.value)
  {
    assert e.kind.NotFound? ==> "resource" in Fields(e.kind);
    assert e.kind.DuplicateResource? ==> "resource" in Fields(e.kind) && "field" in Fields(e.kind) && "value" in Fields(e.kind);
  }

  /** A payload may override the base keys: `success` can come out true. */
  lemma PayloadOverridesSuccess(message: string, payload: JsonObject)
    requires "success" in payload && payload["success"] == JBool(true)
    ensures var e := AppError(Conflict, message, Some(payload));
      "success" in ToDict(e) && ToDict(e)["success"] == JBool(true)
  {
    var e := AppError(Conflict, message, Some(payload));
    assert "success" !in Fields(e.kind) by {
      assert Fields(e.kind) == map[];
    }
  }

  /** An optional attribute shows up exactly when it is non-empty. */
  lemma OptionalFieldsOnlyWhenPresent(field: Option<string>, message: string)
    ensures "field" in ToDict(AppError(Validation(field), message, None)) <==> Present(field)
  {
    var e := AppError(Validation(field), message, None);
    assert BaseDict(e).Keys == {"error", "error_code", "success"};
  }

  /** The fields of an integrity error: its parent's operation label, then the constraint
      when one is given. */
  lemma IntegrityFields(constraint: Option<string>, status: nat)
    ensures var f := Fields(Integrity(constraint, status));
      && "operation" in f && f["operation"] == JStr("INTEGRITY_CHECK")
      && ("constraint" in f <==> Present(constraint))
      && (Present(constraint) ==> f["constraint"] == JStr(constraint.value))
  {
    var own := OwnFields(Integrity(constraint, status));
    assert Fields(Integrity(constraint, status)) == map["operation" := JStr("INTEGRITY_CHECK")] + own;
    assert "operation" !in own;
  }

  /** The integrity error keeps its database operation label next to the constraint. */
  lemma IntegrityCarriesOperation(constraint: string, message: string)
    ensures var d := ToDict(AppError(Integrity(Some(constraint), 500), message, None));
      && "operation" in d && d["operation"] == JStr("INTEGRITY_CHECK")
      && "error_code" in d && d["error_code"] == JStr("DATABASE_ERROR")
      && (constraint != "" ==> "constraint" in d && d["constraint"] == JStr(constraint))
      && (constraint == "" ==> "constraint" !in d)
  {
    var e := AppError(Integrity(Some(constraint), 500), message, None);
    IntegrityFields(Some(constraint), 500);
    assert BaseDict(e).Keys == {"error", "error_code", "success"} by {
      assert BaseDict(e) == map["error" := JStr(message), "error_code" := JStr("DATABASE_ERROR"), "success" := JBool(false)];
    }
    assert "error_code" !in Fields(e.kind) by {
      assert "error_code" != "operation" && "error_code" != "constraint";
    }
    assert "constraint" !in BaseDict(e);
  }

  /** `ValidationError(message, field)`: code VALIDATION_ERROR, status 400, and a `field`
      entry in its dictionary exactly when the field is non-empty. */
  function ValidationError(message: string, field: Option<string>): (e: AppError)
    ensures e.kind == Validation(field) && e.message == message && e.payload.None?
    ensures ErrorCode(e.kind) == Some("VALIDATION_ERROR") && StatusCode(e.kind) == 400
    ensures "field" in ToDict(e) <==> Present(field)
    ensures Present(field) ==> ToDict(e)["field"] == JStr(field.value)
  {
    OptionalFieldsOnlyWhenPresent(field, message);
    AppError(Validation(field), message, None)
  }

  /** `AuthenticationError()` with its default message. */
  function AuthenticationError(message: Option<string>): (e: AppError)
    ensures e.message == (if message.Some? then message.value else "Credenciales inválidas")
    ensures StatusCode(e.kind) == 401
  {
    AppError(Authentication, if message.Some? then message.value else "Credenciales inválidas", None)
  }

  /** `AuthorizationError()` with its default message. */
  function AuthorizationError(message: Option<string>): (e: AppError)
    ensures e.message == (if message.Some? then message.value else "Permisos insuficientes")
    ensures StatusCode(e.kind) == 403
  {
    AppError(Authorization, if message.Some? then message.value else "Permisos insuficientes", None)
  }

  /** `ResourceNotFoundError(resource)`: the message is the resource followed by
      ' no encontrado'; the resource defaults to 'Recurso'. */
  function ResourceNotFoundError(resource: Option<string>): (e: AppError)
    ensures var r := if resource.Some? then resource.value else "Recurso";
      && e.kind == NotFound(r)
      && StartsWith(e.message, r) && e.message[|r|..] == " no encontrado"
  {
    var r := if resource.Some? then resource.value else "Recurso";
    assert (r + " no encontrado")[|r|..] == " no encontrado";
    AppError(NotFound(r), r + " no encontrado", None)
  }

  /** `DuplicateResourceError(resource, field, value)`: the message names all three, the value
      in double quotes. */
  function DuplicateResourceError(resource: string, field: string, value: string): (e: AppError)
    ensures e.kind == DuplicateResource(resource, field, value)
    ensures StatusCode(e.kind) == 409
    ensures var prefix := resource + " con " + field + " \"";
      && StartsWith(e.message, prefix)
      && e.message[|prefix|..] == value + "\" ya existe"
  {
    var prefix := resource + " con " + field + " \"";
    assert (prefix + value + "\" ya existe")[|prefix|..] == value + "\" ya existe";
    AppError(DuplicateResource(resource, field, value), prefix + value + "\" ya existe", None)
  }

  /** `IntegrityError(message, constraint)`: a database error on the 'INTEGRITY_CHECK'
      operation, status 500 unless given. */
  function IntegrityError(message: string, constraint: Option<string>, status: Option<nat>): (e: AppError)
    ensures ErrorCode(e.kind) == Some("DATABASE_ERROR")
    ensures StatusCode(e.kind) == (if status.Some? then status.value else 500)
    ensures Parent(e.kind) == Some(Database(Some("INTEGRITY_CHECK"), StatusCode(e.kind)))
  {
    AppError(Integrity(constraint, if status.Some? then status.value else 500), message, None)
  }

  /** `OCRError(message)` (`service == "OCR"`) and `EmailError(message)`
      (`service == "EMAIL"`): external-service errors naming their service, with status 500. */
  function ServiceSubclassError(service: string, message: string): (e: AppError)
    requires service in {"OCR", "EMAIL"}
    ensures e.kind == ExternalService(service, 500) && e.message == message
    ensures ErrorCode(e.kind) == Some("EXTERNAL_SERVICE_ERROR") && StatusCode(e.kind) == 500
    ensures "service" in ToDict(e) && ToDict(e)["service"] == JStr(service)
  {
    AppError(ExternalService(service, 500), message, None)
  }

  /** The type error of a call that passes a keyword argument twice: the interpreter names the
      called function by module and qualified name, here the base constructor. */
  const DUPLICATE_ERROR_CODE := "utils.exceptions.ExpenseAppException.__init__() got multiple values for keyword argument 'error_code'"

  /** `APIError(message, endpoint, **kwargs)`: it passes `error_code='API_ERROR'` on to the base
      constructor together with the forwarded keywords, so forwarding an `error_code` raises. */
  function NewApiError(message: string, endpoint: Option<string>, forwarded: set<string>, status: Option<nat>)
    : (r: Result<AppError, string>)
    ensures r.Failure? <==> "error_code" in forwarded
    ensures r.Failure? ==> r.error == DUPLICATE_ERROR_CODE
    ensures r.Success? ==> r.value.kind == Api(endpoint, if status.Some? then status.value else 500) && r.value.message == message
    ensures r.Success? ==> ErrorCode(r.value.kind) == Some("API_ERROR")
  {
    if "error_code" in forwarded then Failure(DUPLICATE_ERROR_CODE)
    else Success(AppError(Api(endpoint, if status.Some? then status.value else 500), message, None))
  }

  /** `RateLimitError(limit, reset_time)`: it forwards `error_code='RATE_LIMIT'` and
      `status_code=429` to `APIError`, so constructing one always raises. */
  function RateLimitError(limit: nat, resetTime: int): (r: Result<AppError, string>)
    ensures r == Failure(DUPLICATE_ERROR_CODE)
  {
    NewApiError("Límite de solicitudes excedido. Máximo: " + NatToString(limit), None, {"error_code", "status_code"}, Some(429))
  }
}
