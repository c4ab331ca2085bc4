/**
 * The use cases' `handle_db_errors` decorator: application and domain
 * errors pass through, infrastructure errors are remapped by their code,
 * `SystemExit` and `KeyboardInterrupt` pass through, and anything else is
 * wrapped as a `UseCaseError`.
 */
module UseCaseBoundary {
  import opened Wrappers
  import opened PyText
  import opened PyValues
  import opened Errors
  import opened AppErrors
  import opened StorageErrors

  /** What `err_mapper` holds for a code: `DuplicateEntityError.for_entity`, or an error class. */
  datatype Target = ForDuplicate | ErrorClass(kind: Kind)

  /** `err_mapper.get(code)`. */
  function ErrMapper(code: ErrorCode): (r: Option<Target>)
    ensures r.Some? <==> code in {DUPLICATE_ENTITY, DATA_INTEGRITY_ERROR, DATABASE_TIMEOUT, DATABASE_ERROR}
    ensures r == Some(ForDuplicate) <==> code == DUPLICATE_ENTITY
    ensures r.Some? && r.value.ErrorClass? ==>
      r.value.kind == (if code == DATABASE_TIMEOUT then DatabaseTimedOutError else DatabaseError)
  {
    match code
    case DUPLICATE_ENTITY => Some(ForDuplicate)
    case DATA_INTEGRITY_ERROR => Some(ErrorClass(DatabaseError))
    case DATABASE_TIMEOUT => Some(ErrorClass(DatabaseTimedOutError))
    case DATABASE_ERROR => Some(ErrorClass(DatabaseError))
    case _ => None
  }

  /** The `AttributeError` of reading an attribute that was never set. */
  function NoAttribute(e: Exc, attr: string): Exc {
    ForeignExc(AttributeError, "'" + TypeNameOf(e) + "' object has no attribute '" + attr + "'")
  }

  /** The `TypeError` of calling the `None` that `err_mapper.get` returns for an unmapped code. */
  const NotCallable := ForeignExc(TypeError, "'NoneType' object is not callable")

  /** `d.get(key)`: the entry, or `None`. */
  function Get(d: map<string, PyValue>, key: string): PyValue {
    if key in d then d[key] else PyNone
  }

  /** `e.details or {}`: the details dict, empty when `None` or empty, and an `AttributeError` when never set. */
  function DetailsOrEmpty(e: Exc): (r: Result<map<string, PyValue>, Exc>)
    requires e.AppExc?
    ensures r.Failure? <==> e.details.NotPassed?
    ensures e.details.Passed? ==> r == Success(e.details.entries)
    ensures e.details.PassedNone? ==> r == Success(map[])
  {
    match e.details
    case NotPassed => Failure(NoAttribute(e, "details"))
    case PassedNone => Success(map[])
    case Passed(d) => Success(d)
  }

  /** The `details_apps` dict of the remapped error: the stringified entity and operation. */
  function AppDetails(db: map<string, PyValue>): map<string, PyValue> {
    map["entity" := PyStr(Str(Get(db, "entity"))), "operation" := PyStr(Str(Get(db, "operation")))]
  }

  /** The error an `InfrastructureException` `e` is remapped to, or the exception remapping it raises. */
  function Remap(e: Exc): (r: Exc)
    requires e.AppExc? && e.kind == InfrastructureException
    ensures e.details.NotPassed? ==> r == NoAttribute(e, "details")
    ensures !e.details.NotPassed? && e.code.None? ==> r == NoAttribute(e, "code")
    ensures !e.details.NotPassed? && e.code.Some? && ErrMapper(e.code.value).None? ==> r == NotCallable
    // a mapped class other than for_entity: its default message, no code, the entity and operation as details
    ensures !e.details.NotPassed? && e.code.Some? && e.code.value != DUPLICATE_ENTITY && ErrMapper(e.code.value).Some? ==>
      && r.AppExc? && r.kind == ErrMapper(e.code.value).value.kind
      && r.message == DefaultMessage(r.kind) && r.code.None? && r.context == Some(e)
      && r.details == Passed(AppDetails(DetailsOrEmpty(e).value))
  {
    match DetailsOrEmpty(e)
    case Failure(x) => x
    case Success(db) =>
      if e.code.None? then NoAttribute(e, "code")
      else
        var details := AppDetails(db);
        match ErrMapper(e.code.value)
        case None => NotCallable
        case Some(ForDuplicate) =>
          var withKey := details["identifier" := Get(db, "identifier")]["value" := PyStr(Str(Get(db, "value")))];
          var made := ForEntity(DuplicateEntityError, Get(db, "entity"), Get(db, "identifier"), Get(db, "value"),
                                Some(withKey), Some(e), DUPLICATE_ENTITY);
          if made.Success? then made.value else made.error
        case Some(ErrorClass(k)) =>
          NewError(k, None, Some(e), None, None, Passed(details)).value
  }

  /** The classes `except ApplicationError` and `except DomainError` catch. */
  predicate PassesThrough(e: Exc) {
    e.AppExc? && (IsSubclass(e.kind, ApplicationError) || IsSubclass(e.kind, DomainError))
  }

  /** The class `except InfrastructureException` catches. */
  predicate IsInfrastructure(e: Exc) {
    e.AppExc? && e.kind == InfrastructureException
  }

  /** The classes `except (SystemExit, KeyboardInterrupt)` catches. */
  predicate IsCritical(e: Exc) {
    e.ForeignExc? && (e.cls.SystemExit? || e.cls.KeyboardInterrupt?)
  }

  /** The details of the generic branch. */
  function UnexpectedDetails(operation: string): map<string, PyValue> {
    map["entity" := PyStr("Unknown"), "operation" := PyStr(operation), "error_type" := PyStr("unexpected")]
  }

  /**
   * A use-case method wrapped by `handle_db_errors`: `useCaseClass` is the
   * class of `self`, `operation` the method's name, and `outcome` what the
   * undecorated method returned or raised.
   */
  function Translate<T>(useCaseClass: string, operation: string, outcome: Result<T, Exc>): (r: Result<T, Exc>)
    ensures outcome.Success? ==> r == outcome
    ensures outcome.Failure? && PassesThrough(outcome.error) ==> r == outcome
    ensures outcome.Failure? && IsInfrastructure(outcome.error) ==> r == Failure(Remap(outcome.error))
    ensures outcome.Failure? && IsCritical(outcome.error) ==> r == outcome
    // everything else becomes a UseCaseError naming the use case, caused by the original error
    ensures outcome.Failure? && !PassesThrough(outcome.error) && !IsInfrastructure(outcome.error) && !IsCritical(outcome.error) ==>
      && r.Failure? && r.error.AppExc? && r.error.kind == UseCaseError
      && r.error.message == "Use case failed: " + useCaseClass
      && r.error.code == Some(USE_CASE_ERROR) && r.error.context == Some(outcome.error)
      && r.error.details == Passed(UnexpectedDetails(operation))
  {
    match outcome
    case Success(_) => outcome
    case Failure(e) =>
      InfrastructureIsApart(InfrastructureException);
      if PassesThrough(e) then outcome
      else if IsInfrastructure(e) then Failure(Remap(e))
      else if IsCritical(e) then outcome
      else Failure(ForUseCase(useCaseClass, Some(e), Some(UnexpectedDetails(operation)), USE_CASE_ERROR))
  }

  /**
   * A value-object error is neither an application nor a domain error, so a
   * use case that lets one escape reports it as a `UseCaseError`.
   */
  lemma {:induction false} ValueObjectErrorsBecomeUseCaseErrors<T>(useCaseClass: string, operation: string, e: Exc)
    requires e.AppExc? && IsSharedValidation(e.kind)
    ensures Translate<T>(useCaseClass, operation, Failure(e)).Failure?
    ensures Translate<T>(useCaseClass, operation, Failure(e)).error.AppExc?
    ensures Translate<T>(useCaseClass, operation, Failure(e)).error.kind == UseCaseError
    ensures Translate<T>(useCaseClass, operation, Failure(e)).error.context == Some(e)
  {
    DomainErrors(e.kind);
    ApplicationErrors(e.kind);
  }

  /** A domain-layer validation error reaches the caller unchanged. */
  lemma {:induction false} DomainErrorsPassThrough<T>(useCaseClass: string, operation: string, e: Exc)
    requires e.AppExc? && IsDomainValidation(e.kind)
    ensures Translate<T>(useCaseClass, operation, Failure(e)) == Failure(e)
  {
    DomainErrors(e.kind);
  }

  /**
   * A storage failure classified by the repositories' decorator is always
   * remapped to an application error caused by it: a duplicate, a database
   * error or a timeout, never the `TypeError` of an unmapped code.
   */
  lemma {:induction false} ClassifiedFailuresAreMapped<T>(useCaseClass: string, operation: string, e: Exc,
                                                          entity: string, repoOperation: string)
    requires IsSqlAlchemy(e)
    ensures var c := Classify(e, entity, repoOperation);
      var r := Translate<T>(useCaseClass, operation, Failure(c));
      && r.Failure? && r.error.AppExc? && r.error.context == Some(c)
      && (c.code == Some(DUPLICATE_ENTITY) ==> r.error.kind == DuplicateEntityError)
      && (c.code == Some(DATABASE_TIMEOUT) ==> r.error.kind == DatabaseTimedOutError)
      && (c.code == Some(DATA_INTEGRITY_ERROR) || c.code == Some(DATABASE_ERROR) ==> r.error.kind == DatabaseError)
  {
    var c := Classify(e, entity, repoOperation);
    ClassifiedCodes(e, entity, repoOperation);
    InfrastructureRemapped<T>(useCaseClass, operation, c);
    RemapClassified(c);
  }

  /** The translator hands an `InfrastructureException` to the remapping. */
  lemma {:induction false} InfrastructureRemapped<T>(useCaseClass: string, operation: string, c: Exc)
    requires IsInfrastructure(c)
    ensures Translate<T>(useCaseClass, operation, Failure(c)) == Failure(Remap(c))
  {
    ApplicationErrors(c.kind);
    DomainErrors(c.kind);
  }

  /**
   * An infrastructure error with details and a mapped code is remapped to
   * an application error of the code's class, caused by it; a duplicate
   * needs its entity name as a string.
   */
  lemma {:induction false} RemapClassified(c: Exc)
    requires IsInfrastructure(c) && c.details.Passed? && c.code.Some?
    requires c.code.value in {DUPLICATE_ENTITY, DATA_INTEGRITY_ERROR, DATABASE_TIMEOUT, DATABASE_ERROR}
    requires c.code == Some(DUPLICATE_ENTITY) ==> "entity" in c.details.entries && c.details.entries["entity"].PyStr?
    ensures Remap(c).AppExc? && Remap(c).context == Some(c)
    ensures c.code == Some(DUPLICATE_ENTITY) ==> Remap(c).kind == DuplicateEntityError
    ensures c.code == Some(DATABASE_TIMEOUT) ==> Remap(c).kind == DatabaseTimedOutError
    ensures c.code == Some(DATA_INTEGRITY_ERROR) || c.code == Some(DATABASE_ERROR) ==> Remap(c).kind == DatabaseError
  {
    if c.code == Some(DUPLICATE_ENTITY) {
      assert Get(c.details.entries, "entity").PyStr?;
    }
  }

  /** The details a classified unique violation carries. */
  lemma DuplicateDetails(text: string, entity: string, repoOperation: string)
    requires IsUniqueViolation(text)
    ensures Classify(ForeignExc(IntegrityError, text), entity, repoOperation).details
      == Passed(DuplicateAppDetails(entity, repoOperation, DuplicateKey(text)))
  {
    var c := Classify(ForeignExc(IntegrityError, text), entity, repoOperation);
    assert c.details.entries == DuplicateAppDetails(entity, repoOperation, DuplicateKey(text));
  }

  /** `details_apps` of a duplicate whose details name an entity, an operation and a key, all strings. */
  function DuplicateAppDetails(entity: string, operation: string, key: KeyMatch): map<string, PyValue> {
    map["entity" := PyStr(entity), "operation" := PyStr(operation),
        "identifier" := PyStr(key.field), "value" := PyStr(key.value)]
  }

  /** An infrastructure duplicate with string details is remapped by `for_entity` on those strings. */
  lemma RemapDuplicate(c: Exc, entity: string, operation: string, key: KeyMatch)
    requires IsInfrastructure(c) && c.code == Some(DUPLICATE_ENTITY)
    requires c.details == Passed(DuplicateAppDetails(entity, operation, key))
    ensures Remap(c).AppExc? && Remap(c).kind == DuplicateEntityError
    ensures Remap(c).message == Capitalize(entity) + " with " + key.field + "=" + key.value + " already exists"
    ensures Remap(c).code == Some(DUPLICATE_ENTITY) && Remap(c).context == Some(c)
    ensures Remap(c).details == Passed(DuplicateAppDetails(entity, operation, key))
  {
    var db := DuplicateAppDetails(entity, operation, key);
    DuplicateDetailsKept(entity, operation, key);
    assert DetailsOrEmpty(c) == Success(db);
    assert ErrMapper(DUPLICATE_ENTITY) == Some(ForDuplicate);
    var made := ForEntity(DuplicateEntityError, PyStr(entity), PyStr(key.field), PyStr(key.value),
                          Some(db), Some(c), DUPLICATE_ENTITY);
    assert Remap(c) == made.value;
    DuplicateMessage(entity, key);
  }

  /** The `for_entity` message of a duplicate, with the key's strings as identifier and value. */
  lemma DuplicateMessage(entity: string, key: KeyMatch)
    ensures Capitalize(entity) + " with " + Criteria(PyStr(key.field), PyStr(key.value)) + EntitySuffix(DuplicateEntityError)
      == Capitalize(entity) + " with " + key.field + "=" + key.value + " already exists"
  {
    var lead := Capitalize(entity) + " with ";
    assert Criteria(PyStr(key.field), PyStr(key.value)) == key.field + "=" + key.value;
    assert lead + (key.field + "=" + key.value) == lead + key.field + "=" + key.value;
  }

  /** The remapping reads back the four strings of a duplicate's details, and rebuilds them unchanged. */
  lemma DuplicateDetailsKept(entity: string, operation: string, key: KeyMatch)
    ensures var db := DuplicateAppDetails(entity, operation, key);
      && Get(db, "entity") == PyStr(entity) && Get(db, "operation") == PyStr(operation)
      && Get(db, "identifier") == PyStr(key.field) && Get(db, "value") == PyStr(key.value)
      && AppDetails(db)["identifier" := Get(db, "identifier")]["value" := PyStr(Str(Get(db, "value")))] == db
  {
    var db := DuplicateAppDetails(entity, operation, key);
    assert Get(db, "entity") == PyStr(entity) && Get(db, "operation") == PyStr(operation);
    assert Get(db, "identifier") == PyStr(key.field) && Get(db, "value") == PyStr(key.value);
  }

  /**
   * A classified unique violation becomes a `DuplicateEntityError` whose
   * message names the capitalised entity and the parsed key, and whose
   * details keep the parsed identifier and value.
   */
  lemma {:induction false} DuplicateRemapped<T>(useCaseClass: string, operation: string, text: string,
                                               entity: string, repoOperation: string)
    requires IsUniqueViolation(text)
    ensures var c := Classify(ForeignExc(IntegrityError, text), entity, repoOperation);
      var key := DuplicateKey(text);
      var r := Translate<T>(useCaseClass, operation, Failure(c));
      && r.Failure? && r.error.AppExc? && r.error.kind == DuplicateEntityError
      && r.error.message == Capitalize(entity) + " with " + key.field + "=" + key.value + " already exists"
      && r.error.code == Some(DUPLICATE_ENTITY)
      && r.error.details == Passed(DuplicateAppDetails(entity, repoOperation, key))
  {
    var c := Classify(ForeignExc(IntegrityError, text), entity, repoOperation);
    InfrastructureRemapped<T>(useCaseClass, operation, c);
    DuplicateDetails(text, entity, repoOperation);
    RemapDuplicate(c, entity, repoOperation, DuplicateKey(text));
  }

  /** An infrastructure error carrying a code the table does not map fails with a `TypeError`. */
  lemma {:induction false} UnmappedCodeFails<T>(useCaseClass: string, operation: string, e: Exc)
    requires e.AppExc? && e.kind == InfrastructureException && !e.details.NotPassed?
    requires e.code.Some? && e.code.value !in {DUPLICATE_ENTITY, DATA_INTEGRITY_ERROR, DATABASE_TIMEOUT, DATABASE_ERROR}
    ensures Translate<T>(useCaseClass, operation, Failure(e)) == Failure(NotCallable)
  {
    InfrastructureRemapped<T>(useCaseClass, operation, e);
  }
}
