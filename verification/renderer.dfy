/**
 * The API's global exception handler: the status and headers of an error
 * are looked up by its exact type, a 500 hides what the error says, and the
 * body is the `{"error": {...}}` envelope with the request's trace id.
 */
module Responses {
  import opened Wrappers
  import opened PyValues
  import opened Errors

  /** `type(exc)`: a class of the taxonomy, or any other class by its name. */
  datatype ExcType = KindType(kind: Kind) | ForeignType(name: string)

  function TypeOf(e: Exc): ExcType {
    if e.AppExc? then KindType(e.kind) else ForeignType(TypeNameOf(e))
  }

  const HTTP_400_BAD_REQUEST := 400
  const HTTP_404_NOT_FOUND := 404
  const HTTP_409_CONFLICT := 409
  const HTTP_422_UNPROCESSABLE_ENTITY := 422
  const HTTP_500_INTERNAL_SERVER_ERROR := 500
  const HTTP_503_SERVICE_UNAVAILABLE := 503

  /** `ExceptionHandler.status_mapping`; the validation classes are those of the domain exceptions module. */
  const StatusTable: map<ExcType, int> := map[
    ForeignType("RequestValidationError") := HTTP_422_UNPROCESSABLE_ENTITY,
    ForeignType("ValidationException") := HTTP_400_BAD_REQUEST,
    KindType(DomainInvalidFormatError) := HTTP_400_BAD_REQUEST,
    KindType(DomainEmptyValueError) := HTTP_400_BAD_REQUEST,
    KindType(DomainInvalidTypeError) := HTTP_400_BAD_REQUEST,
    KindType(DomainFieldNegativeError) := HTTP_400_BAD_REQUEST,
    KindType(DomainFieldZeroError) := HTTP_400_BAD_REQUEST,
    KindType(DomainFieldTooShortError) := HTTP_400_BAD_REQUEST,
    KindType(DomainFieldTooLongError) := HTTP_400_BAD_REQUEST,
    KindType(PasswordTooShortError) := HTTP_400_BAD_REQUEST,
    KindType(PasswordTooLongError) := HTTP_400_BAD_REQUEST,
    KindType(PasswordInvalidCharactersError) := HTTP_400_BAD_REQUEST,
    KindType(EntityNotFoundError) := HTTP_404_NOT_FOUND,
    KindType(DuplicateEntityError) := HTTP_409_CONFLICT,
    KindType(DatabaseTimedOutError) := HTTP_503_SERVICE_UNAVAILABLE,
    KindType(DatabaseError) := HTTP_500_INTERNAL_SERVER_ERROR,
    KindType(ApplicationError) := HTTP_400_BAD_REQUEST,
    KindType(DomainError) := HTTP_400_BAD_REQUEST,
    KindType(UseCaseError) := HTTP_500_INTERNAL_SERVER_ERROR]

  /** The headers of a timed-out database. */
  const RetryHeaders: map<string, string> :=
    map["Retry-After" := "30", "Cache-Control" := "no-store, no-cache, must-revalidate"]

  /** `ExceptionHandler.headers_mapping`. */
  const HeadersTable: map<ExcType, map<string, string>> := map[KindType(DatabaseTimedOutError) := RetryHeaders]

  /** The `"error"` object of the response body; `details` is present only when not `None`. */
  datatype ErrorBody = ErrorBody(code: string, message: string, traceId: string, details: Option<map<string, PyValue>>)

  /** A JSON response: status, body and headers. */
  datatype Response = Response(status: int, body: ErrorBody, headers: map<string, string>)

  /** `getattr(exc, "code", exc.__class__.__name__)`, stringified. */
  function CodeOf(e: Exc): string {
    if e.AppExc? && e.code.Some? then CodeText(e.code.value) else TypeNameOf(e)
  }

  /** `getattr(exc, "message", str(exc))`. */
  function MessageOf(e: Exc): string {
    if e.AppExc? then e.message else ExcStr(e)
  }

  /** `getattr(exc, "details", None)`. */
  function DetailsOf(e: Exc): Option<map<string, PyValue>> {
    if e.AppExc? && e.details.Passed? then Some(e.details.entries) else None
  }

  /** `table.get(key, default)`. */
  function Lookup<V>(table: map<ExcType, V>, key: ExcType, default: V): V {
    if key in table then table[key] else default
  }

  /** The response `handle` builds from the two tables, for `exc` under the trace id `traceId`. */
  function Render(statusTable: map<ExcType, int>, headersTable: map<ExcType, map<string, string>>,
                  exc: Exc, traceId: string): (r: Response)
    ensures r.status == Lookup(statusTable, TypeOf(exc), HTTP_500_INTERNAL_SERVER_ERROR)
    ensures r.headers == Lookup(headersTable, TypeOf(exc), map[])
    ensures r.body.traceId == traceId
    // a server error says nothing about its cause
    ensures r.status == HTTP_500_INTERNAL_SERVER_ERROR ==>
      r.body == ErrorBody("INTERNAL_SERVER_ERROR", "Internal server error", traceId, None)
    // any other status shows the error's code, message and details
    ensures r.status != HTTP_500_INTERNAL_SERVER_ERROR ==>
      r.body == ErrorBody(CodeOf(exc), MessageOf(exc), traceId, DetailsOf(exc))
  {
    var status := Lookup(statusTable, TypeOf(exc), HTTP_500_INTERNAL_SERVER_ERROR);
    var headers := Lookup(headersTable, TypeOf(exc), map[]);
    if status == HTTP_500_INTERNAL_SERVER_ERROR then
      Response(status, ErrorBody("INTERNAL_SERVER_ERROR", "Internal server error", traceId, None), headers)
    else
      Response(status, ErrorBody(CodeOf(exc), MessageOf(exc), traceId, DetailsOf(exc)), headers)
  }

  /** The application's `ExceptionHandler` instance and its two lookup tables. */
  class ExceptionHandler {
    var statusMapping: map<ExcType, int>
    var headersMapping: map<ExcType, map<string, string>>

    constructor()
      ensures statusMapping == StatusTable && headersMapping == HeadersTable
    {
      statusMapping := StatusTable;
      headersMapping := HeadersTable;
    }

    /** `handle(request, exc)` with the current trace id. */
    method Handle(exc: Exc, traceId: string) returns (r: Response)
      ensures r == Render(statusMapping, headersMapping, exc, traceId)
    {
      var excType := TypeOf(exc);
      var status := HTTP_500_INTERNAL_SERVER_ERROR;
      if excType in statusMapping {
        status := statusMapping[excType];
      }
      var headers: map<string, string> := map[];
      if excType in headersMapping {
        headers := headersMapping[excType];
      }
      var code, message, details;
      if status == HTTP_500_INTERNAL_SERVER_ERROR {
        code, message, details := "INTERNAL_SERVER_ERROR", "Internal server error", None;
      } else {
        code, message, details := CodeOf(exc), MessageOf(exc), DetailsOf(exc);
      }
      var body := ErrorBody(code, message, traceId, None);
      if details.Some? {
        body := body.(details := details);
      }
      r := Response(status, body, headers);
    }
  }

  /** The context variable holding the current request's trace id. */
  class TraceContext {
    var traceId: string

    constructor()
      ensures traceId == ""
    {
      traceId := "";
    }
  }

  /** `global_exception_handler`: a fresh trace id (`freshId`, from `uuid4`) is set, then the error is handled. */
  method GlobalExceptionHandler(handler: ExceptionHandler, context: TraceContext, exc: Exc, freshId: string)
    returns (r: Response)
    modifies context
    ensures context.traceId == freshId
    ensures r == Render(handler.statusMapping, handler.headersMapping, exc, freshId)
  {
    context.traceId := freshId;
    r := handler.Handle(exc, context.traceId);
  }

  /** The response of the application's handler. */
  function Respond(exc: Exc, traceId: string): Response {
    Render(StatusTable, HeadersTable, exc, traceId)
  }

  /** The status of each class in the table, and 500 for every class that is not in it. */
  lemma {:induction false} StatusByKind(k: Kind)
    ensures IsDomainValidation(k) && k != DomainEntityWithoutIdHashError ==>
      Lookup(StatusTable, KindType(k), 500) == 400
    ensures k == PasswordTooLongError || k == PasswordInvalidCharactersError ==> Lookup(StatusTable, KindType(k), 500) == 400
    ensures k == EntityNotFoundError ==> Lookup(StatusTable, KindType(k), 500) == 404
    ensures k == DuplicateEntityError ==> Lookup(StatusTable, KindType(k), 500) == 409
    ensures k == DatabaseTimedOutError ==> Lookup(StatusTable, KindType(k), 500) == 503
    ensures k == ApplicationError || k == DomainError ==> Lookup(StatusTable, KindType(k), 500) == 400
    ensures k == DatabaseError || k == UseCaseError ==> Lookup(StatusTable, KindType(k), 500) == 500
    ensures KindType(k) !in StatusTable <==>
      k == AppError || k == TemplateAppError || k == InfrastructureException
      || IsSharedValidation(k) || k == DomainEntityWithoutIdHashError
  {
    ListedStatuses(k);
    UnlistedKinds(k);
  }

  /** The statuses the table lists. */
  lemma {:induction false} ListedStatuses(k: Kind)
    ensures IsDomainValidation(k) && k != DomainEntityWithoutIdHashError ==>
      Lookup(StatusTable, KindType(k), 500) == 400
    ensures k == PasswordTooLongError || k == PasswordInvalidCharactersError ==> Lookup(StatusTable, KindType(k), 500) == 400
    ensures k == EntityNotFoundError ==> Lookup(StatusTable, KindType(k), 500) == 404
    ensures k == DuplicateEntityError ==> Lookup(StatusTable, KindType(k), 500) == 409
    ensures k == DatabaseTimedOutError ==> Lookup(StatusTable, KindType(k), 500) == 503
    ensures k == ApplicationError || k == DomainError ==> Lookup(StatusTable, KindType(k), 500) == 400
    ensures k == DatabaseError || k == UseCaseError ==> Lookup(StatusTable, KindType(k), 500) == 500
  {
  }

  /** The classes the table leaves out. */
  lemma {:induction false} UnlistedKinds(k: Kind)
    ensures KindType(k) !in StatusTable <==>
      k == AppError || k == TemplateAppError || k == InfrastructureException
      || IsSharedValidation(k) || k == DomainEntityWithoutIdHashError
  {
  }

  /** Only a timed-out database gets headers: the retry hint and the no-store cache policy. */
  lemma {:induction false} OnlyTimeoutHasHeaders(exc: Exc, traceId: string)
    ensures TypeOf(exc) == KindType(DatabaseTimedOutError) ==> Respond(exc, traceId).headers == RetryHeaders
    ensures TypeOf(exc) != KindType(DatabaseTimedOutError) ==> Respond(exc, traceId).headers == map[]
  {
  }

  /** An error of the taxonomy with a listed status other than 500 and no headers shows its own code, message and details. */
  lemma {:induction false} ShownWithoutHeaders(e: Exc, traceId: string, status: int)
    requires e.AppExc? && e.kind != DatabaseTimedOutError
    requires Lookup(StatusTable, KindType(e.kind), 500) == status && status != HTTP_500_INTERNAL_SERVER_ERROR
    ensures Respond(e, traceId) == Response(status, ErrorBody(CodeOf(e), e.message, traceId, DetailsOf(e)), map[])
  {
    OnlyTimeoutHasHeaders(e, traceId);
  }

  /** A timed-out database without a code of its own is a 503 with the retry headers and its class name as the code. */
  lemma {:induction false} TimeoutShown(e: Exc, traceId: string)
    requires e.AppExc? && e.kind == DatabaseTimedOutError && e.code.None?
    ensures Respond(e, traceId)
      == Response(HTTP_503_SERVICE_UNAVAILABLE, ErrorBody("DatabaseTimedOutError", e.message, traceId, DetailsOf(e)), RetryHeaders)
  {
    ListedStatuses(DatabaseTimedOutError);
    OnlyTimeoutHasHeaders(e, traceId);
    assert TypeNameOf(e) == "DatabaseTimedOutError";
  }

  /**
   * The errors the value objects raise are the shared module's classes,
   * which the table does not list: they render as a server error that
   * hides the message.
   */
  lemma {:induction false} ValueObjectErrorsHidden(e: Exc, traceId: string)
    requires e.AppExc? && IsSharedValidation(e.kind)
    ensures Respond(e, traceId).status == HTTP_500_INTERNAL_SERVER_ERROR
    ensures Respond(e, traceId).body == ErrorBody("INTERNAL_SERVER_ERROR", "Internal server error", traceId, None)
  {
    StatusByKind(e.kind);
  }

  /** The status table with the value objects' own validation classes listed beside their domain twins. */
  const CorrectedStatusTable: map<ExcType, int> := StatusTable + ValueObjectStatuses

  /** The entries the corrected table adds. */
  const ValueObjectStatuses: map<ExcType, int> := map[
    KindType(InvalidFormatError) := HTTP_400_BAD_REQUEST,
    KindType(EmptyValueError) := HTTP_400_BAD_REQUEST,
    KindType(InvalidTypeError) := HTTP_400_BAD_REQUEST,
    KindType(FieldNegativeError) := HTTP_400_BAD_REQUEST,
    KindType(FieldZeroError) := HTTP_400_BAD_REQUEST,
    KindType(FieldTooShortError) := HTTP_400_BAD_REQUEST,
    KindType(FieldTooLongError) := HTTP_400_BAD_REQUEST]

  /** With the corrected table a value-object error is a bad request that shows its message and class name. */
  lemma {:induction false} CorrectedValueObjectErrorsShown(e: Exc, traceId: string)
    requires e.AppExc? && IsSharedValidation(e.kind) && e.kind != EntityWithoutIdHashError
    ensures Render(CorrectedStatusTable, HeadersTable, e, traceId).status == HTTP_400_BAD_REQUEST
    ensures Render(CorrectedStatusTable, HeadersTable, e, traceId).body
      == ErrorBody(CodeOf(e), e.message, traceId, DetailsOf(e))
  {
    AddedKeys(TypeOf(e));
    LookupAdded(StatusTable, ValueObjectStatuses, TypeOf(e), 500);
  }

  /** A key the added entries hold is looked up among them. */
  lemma LookupAdded<V>(table: map<ExcType, V>, added: map<ExcType, V>, key: ExcType, default: V)
    requires key in added
    ensures Lookup(table + added, key, default) == added[key]
  {
  }

  /** The corrected table renders every other error exactly as the original one. */
  lemma {:induction false} CorrectedAgreesElsewhere(e: Exc, traceId: string)
    requires !(e.AppExc? && IsSharedValidation(e.kind))
    ensures Render(CorrectedStatusTable, HeadersTable, e, traceId) == Respond(e, traceId)
  {
    AddedKeys(TypeOf(e));
    LookupPastAdded(StatusTable, ValueObjectStatuses, TypeOf(e), 500);
  }

  /** The keys the corrected table adds are the value objects' classes, all but the hash error. */
  lemma AddedKeys(t: ExcType)
    ensures t in ValueObjectStatuses <==> t.KindType? && IsSharedValidation(t.kind) && t.kind != EntityWithoutIdHashError
  {
  }

  /** A key the added entries do not hold is looked up in the original table. */
  lemma LookupPastAdded<V>(table: map<ExcType, V>, added: map<ExcType, V>, key: ExcType, default: V)
    requires key !in added
    ensures Lookup(table + added, key, default) == Lookup(table, key, default)
  {
  }
}
