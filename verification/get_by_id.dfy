/**
 * `UserGetByIdUseCase.execute` under its `handle_db_errors` translator, and
 * the responses its outcomes become: the repository's answer is an input,
 * and the output mapping of a found entity is a parameter, which may fail;
 * `UserDomainMapper` gives the mapping as written and as corrected.
 */
module GetUserById {
  import opened Wrappers
  import opened PyText
  import opened PyValues
  import opened Errors
  import opened AppErrors
  import opened StorageErrors
  import opened UseCaseBoundary
  import opened Responses
  import opened ValueObjects
  import opened UserMapper
  import opened UserDomainMapper
  import opened UserEntities

  /** An entity, as its attribute dict. */
  type Entity = map<string, PyValue>

  const UseCaseClass := "UserGetByIdUseCase"
  const Operation := "execute"

  /** `EntityNotFoundError.for_entity(entity_name="user", identifier="id", value=str(user_id), code=USER_NOT_FOUND)`. */
  function NotFound(userId: PyValue): (r: Exc)
    ensures r.AppExc? && r.kind == EntityNotFoundError
    ensures r.message == "User with id=" + Str(userId) + " not found"
    ensures r.code == Some(USER_NOT_FOUND) && r.details == PassedNone && r.context.None?
  {
    NotFoundMade(Str(userId));
    ForEntity(EntityNotFoundError, PyStr("user"), PyStr("id"), PyStr(Str(userId)), None, None, USER_NOT_FOUND).value
  }

  /** `for_entity` on the user's id: the message reads "User with id=<id> not found". */
  lemma NotFoundMade(id: string)
    ensures var made := ForEntity(EntityNotFoundError, PyStr("user"), PyStr("id"), PyStr(id), None, None, USER_NOT_FOUND);
      made.Success? && made.value.message == "User with id=" + id + " not found"
  {
    var made := ForEntity(EntityNotFoundError, PyStr("user"), PyStr("id"), PyStr(id), None, None, USER_NOT_FOUND);
    CapitalizeExample();
    var crit := Criteria(PyStr("id"), PyStr(id));
    assert crit == "id" + "=" + id;
    var lead := "User" + " with ";
    assert made.value.message == lead + crit + " not found";
    NotFoundLead();
    Associative(lead, "id" + "=", id);
  }

  lemma NotFoundLead()
    ensures "User" + " with " + ("id" + "=") == "User with id="
  {
  }

  lemma Associative(a: string, b: string, c: string)
    ensures a + (b + c) == a + b + c
  {
  }

  /** The undecorated body of `execute`: `found` is what `user_repo.get_by_id(user_id)` returned or raised. */
  function Body<T>(userId: PyValue, found: Result<Option<Entity>, Exc>, toOutput: Entity -> Result<T, Exc>): Result<T, Exc> {
    var entity :- found;
    if entity.None? then Failure(NotFound(userId)) else toOutput(entity.value)
  }

  /** `execute` as called: the body under the use-case translator. */
  function Execute<T>(userId: PyValue, found: Result<Option<Entity>, Exc>, toOutput: Entity -> Result<T, Exc>): Result<T, Exc> {
    Translate(UseCaseClass, Operation, Body(userId, found, toOutput))
  }

  /**
   * A found user is mapped to the output, and a failure of the mapping goes
   * to the translator; a missing one is reported as not found, unchanged by
   * the translator, since it is an application error; an error the
   * repository raised goes to the translator.
   */
  lemma {:induction false} ExecuteOutcomes<T>(userId: PyValue, found: Result<Option<Entity>, Exc>, toOutput: Entity -> Result<T, Exc>)
    ensures found.Success? && found.value.Some? ==>
      Execute(userId, found, toOutput) == Translate(UseCaseClass, Operation, toOutput(found.value.value))
    ensures found.Success? && found.value.Some? && toOutput(found.value.value).Success? ==>
      Execute(userId, found, toOutput) == toOutput(found.value.value)
    ensures found.Success? && found.value.Some? && toOutput(found.value.value).Failure? ==>
      var e := toOutput(found.value.value).error;
      e.ForeignExc? && !IsCritical(e) ==>
        && Execute(userId, found, toOutput).Failure?
        && Execute(userId, found, toOutput).error.AppExc? && Execute(userId, found, toOutput).error.kind == UseCaseError
        && Execute(userId, found, toOutput).error.context == Some(e)
    ensures found == Success(None) ==> Execute(userId, found, toOutput) == Failure(NotFound(userId))
    ensures found.Failure? ==> Execute(userId, found, toOutput) == Translate(UseCaseClass, Operation, Failure(found.error))
  {
    ApplicationErrors(EntityNotFoundError);
  }

  /**
   * With the mapper as written, a user the repository finds is never
   * returned: whatever the entity holds, the mapper raises a foreign error,
   * the `TypeError` of the missing `password` once its arguments are read,
   * and `execute` answers with a `UseCaseError`, a 500 that hides it.
   */
  lemma {:induction false} FoundUserHiddenAsWritten(userId: PyValue, d: Entity, traceId: string)
    ensures var r := Execute(userId, Success(Some(d)), EntityToOutputDtoAsWritten);
      && r.Failure? && r.error.AppExc? && r.error.kind == UseCaseError
      && r.error.context == Some(EntityToOutputDtoAsWritten(d).error)
      && Respond(r.error, traceId)
        == Response(HTTP_500_INTERNAL_SERVER_ERROR, ErrorBody("INTERNAL_SERVER_ERROR", "Internal server error", traceId, None), map[])
    ensures OutputArguments(d).Success? ==>
      Execute(userId, Success(Some(d)), EntityToOutputDtoAsWritten).error.context == Some(ForeignExc(TypeError, MissingPassword))
  {
    OutputAsWrittenFails(d);
    ExecuteOutcomes(userId, Success(Some(d)), EntityToOutputDtoAsWritten);
    StatusByKind(UseCaseError);
  }

  /** With the mapper as written, every stored user the repository loads gives a 500. */
  lemma {:induction false} StoredUserHiddenAsWritten(userId: PyValue, row: UserRow, names: SizeNames, now: PyValue,
                                                     freshUuid: PyValue, traceId: string)
    requires now.PyDatetime? && freshUuid.PyUuid?
    requires RepositoryGetById(Some(row), names, now, freshUuid).Success?
    ensures var r := Execute(userId, RepositoryGetById(Some(row), names, now, freshUuid), EntityToOutputDtoAsWritten);
      && r.Failure? && r.error.AppExc? && r.error.kind == UseCaseError
      && Respond(r.error, traceId).status == HTTP_500_INTERNAL_SERVER_ERROR
  {
    var d := RepositoryGetById(Some(row), names, now, freshUuid).value.value;
    assert RepositoryGetById(Some(row), names, now, freshUuid) == Success(Some(d));
    FoundUserHiddenAsWritten(userId, d, traceId);
  }

  /**
   * With the corrected mapper, a found user whose fields hold value objects
   * is returned as the output of their payloads.
   */
  lemma {:induction false} FoundUserReturned(userId: PyValue, id: PyValue, email: PyValue, password: PyValue,
                                             createdAt: PyValue, updatedAt: PyValue, firstName: PyValue, lastName: PyValue,
                                             isSuperuser: PyValue, isActive: PyValue)
    requires id.PyVo? && email.PyVo? && password.PyVo? && createdAt.PyVo? && updatedAt.PyVo?
    requires OptionalVo(firstName, UserFirstNameVo) && OptionalVo(lastName, UserLastNameVo)
    ensures var d := EntityDict(id, email, password, createdAt, updatedAt, firstName, lastName, isSuperuser, isActive);
      Execute(userId, Success(Some(d)), EntityToOutputDto)
        == Success(OutputDto(id.value, email.value, password.value, createdAt.value, updatedAt.value,
                             Payload(firstName), Payload(lastName), isSuperuser, isActive))
  {
    var d := EntityDict(id, email, password, createdAt, updatedAt, firstName, lastName, isSuperuser, isActive);
    OutputOfEntity(id, email, password, createdAt, updatedAt, firstName, lastName, isSuperuser, isActive);
    ExecuteOutcomes(userId, Success(Some(d)), EntityToOutputDto);
  }

  /** The not-found error is a 404 that shows its code, its message and no details, with no headers. */
  lemma {:induction false} NotFoundResponse(userId: PyValue, traceId: string)
    ensures Respond(NotFound(userId), traceId)
      == Response(HTTP_404_NOT_FOUND, ErrorBody("USER_NOT_FOUND", "User with id=" + Str(userId) + " not found", traceId, None), map[])
  {
    var e := NotFound(userId);
    ListedStatuses(EntityNotFoundError);
    ShownWithoutHeaders(e, traceId, HTTP_404_NOT_FOUND);
    NotFoundCodeShown(userId);
  }

  lemma NotFoundCodeShown(userId: PyValue)
    ensures CodeOf(NotFound(userId)) == "USER_NOT_FOUND" && DetailsOf(NotFound(userId)).None?
  {
    assert CodeText(USER_NOT_FOUND) == "USER_NOT_FOUND";
  }

  /**
   * The user repository's `get_by_id` is not wrapped by the storage
   * decorator, so a database failure it raises, a timeout included, reaches
   * the translator raw: it becomes a `UseCaseError`, a 500 that hides it.
   */
  lemma {:induction false} RawDatabaseFailureHidden<T>(userId: PyValue, e: Exc, toOutput: Entity -> Result<T, Exc>, traceId: string)
    requires IsSqlAlchemy(e)
    ensures Execute(userId, Failure(e), toOutput).Failure?
    ensures Execute(userId, Failure(e), toOutput).error.AppExc? && Execute(userId, Failure(e), toOutput).error.kind == UseCaseError
    ensures Execute(userId, Failure(e), toOutput).error.context == Some(e)
    ensures Respond(Execute(userId, Failure(e), toOutput).error, traceId)
      == Response(HTTP_500_INTERNAL_SERVER_ERROR, ErrorBody("INTERNAL_SERVER_ERROR", "Internal server error", traceId, None), map[])
  {
    StatusByKind(UseCaseError);
  }

  /**
   * A stored row that fails its value objects' checks on load raises a
   * value-object error inside `execute`, which also becomes a 500.
   */
  lemma {:induction false} LoadValidationFailureHidden<T>(userId: PyValue, e: Exc, toOutput: Entity -> Result<T, Exc>, traceId: string)
    requires e.AppExc? && IsSharedValidation(e.kind)
    ensures Execute(userId, Failure(e), toOutput).Failure?
    ensures Execute(userId, Failure(e), toOutput).error.AppExc? && Execute(userId, Failure(e), toOutput).error.kind == UseCaseError
    ensures Respond(Execute(userId, Failure(e), toOutput).error, traceId).status == HTTP_500_INTERNAL_SERVER_ERROR
  {
    ValueObjectErrorsBecomeUseCaseErrors<T>(UseCaseClass, Operation, e);
    StatusByKind(UseCaseError);
  }

  /**
   * The whole pipeline for a repository that the storage decorator does
   * wrap: an operational failure that timed out is classified with the
   * timeout code, remapped to a `DatabaseTimedOutError`, and answered with
   * a 503, the retry headers and the class name as the code.
   */
  lemma {:induction false} DecoratedTimeoutRetries<T>(repositoryClass: string, repoOperation: string, text: string,
                                                      userId: PyValue, toOutput: Entity -> Result<T, Exc>, traceId: string)
    requires IsTimeout(text)
    ensures var found := HandleDbErrors<Option<Entity>>(repositoryClass, repoOperation, Failure(ForeignExc(OperationalError, text)));
      var r := Execute(userId, found, toOutput);
      && r.Failure? && r.error.AppExc? && r.error.kind == DatabaseTimedOutError
      && Respond(r.error, traceId).status == HTTP_503_SERVICE_UNAVAILABLE
      && Respond(r.error, traceId).headers == RetryHeaders
      && Respond(r.error, traceId).body.code == "DatabaseTimedOutError"
      && Respond(r.error, traceId).body.message == DefaultMessage(DatabaseTimedOutError)
  {
    DecoratedTimeoutRemapped<T>(repositoryClass, repoOperation, text, userId, toOutput);
    var found := HandleDbErrors<Option<Entity>>(repositoryClass, repoOperation, Failure(ForeignExc(OperationalError, text)));
    TimeoutShown(Execute(userId, found, toOutput).error, traceId);
  }

  /** The timeout the decorator classifies reaches `execute`'s caller as a `DatabaseTimedOutError` with its default message. */
  lemma {:induction false} DecoratedTimeoutRemapped<T>(repositoryClass: string, repoOperation: string, text: string,
                                                       userId: PyValue, toOutput: Entity -> Result<T, Exc>)
    requires IsTimeout(text)
    ensures var found := HandleDbErrors<Option<Entity>>(repositoryClass, repoOperation, Failure(ForeignExc(OperationalError, text)));
      var r := Execute(userId, found, toOutput);
      && r.Failure? && r.error.AppExc? && r.error.kind == DatabaseTimedOutError && r.error.code.None?
      && r.error.message == DefaultMessage(DatabaseTimedOutError)
  {
    var e := ForeignExc(OperationalError, text);
    var c := Classify(e, EntityName(repositoryClass), repoOperation);
    assert c.code == Some(DATABASE_TIMEOUT) && c.details.Passed?;
    var found := HandleDbErrors<Option<Entity>>(repositoryClass, repoOperation, Failure(e));
    assert Body(userId, found, toOutput) == Failure(c);
    InfrastructureRemapped<T>(UseCaseClass, Operation, c);
    assert ErrMapper(DATABASE_TIMEOUT) == Some(ErrorClass(DatabaseTimedOutError));
  }

  /** A user id with no row: the repository answers `None`, and `execute` raises the not-found error. */
  lemma {:induction false} MissingRowNotFound<T>(userId: PyValue, names: SizeNames, now: PyValue, freshUuid: PyValue,
                                                 toOutput: Entity -> Result<T, Exc>)
    requires now.PyDatetime? && freshUuid.PyUuid?
    ensures Execute(userId, RepositoryGetById(None, names, now, freshUuid), toOutput) == Failure(NotFound(userId))
  {
    ExecuteOutcomes(userId, Success(None), toOutput);
  }

  /**
   * A stored row whose columns fail their value objects' checks: the
   * repository's mapping raises a value-object error, and `execute` turns
   * it into a `UseCaseError`, a 500.
   */
  lemma {:induction false} InvalidRowHidden<T>(userId: PyValue, row: UserRow, names: SizeNames, now: PyValue,
                                               freshUuid: PyValue, toOutput: Entity -> Result<T, Exc>, traceId: string)
    requires now.PyDatetime? && freshUuid.PyUuid?
    requires Arguments(row, row.firstName, names).Failure?
    ensures var r := Execute(userId, RepositoryGetById(Some(row), names, now, freshUuid), toOutput);
      && r.Failure? && r.error.AppExc? && r.error.kind == UseCaseError
      && Respond(r.error, traceId).status == HTTP_500_INTERNAL_SERVER_ERROR
  {
    ArgumentsBuilt(row, row.firstName, names);
    var e := Arguments(row, row.firstName, names).error;
    assert RepositoryGetById(Some(row), names, now, freshUuid) == Failure(e);
    LoadValidationFailureHidden<T>(userId, e, toOutput, traceId);
  }
}
