/**
 * The application layer's errors: the convenience constructors
 * `EntityNotFoundError.for_entity`, `DuplicateEntityError.for_entity` and
 * `UseCaseError.for_use_case`, and the argument-less defaults of the
 * hierarchy's base classes.
 */
module AppErrors {
  import opened Wrappers
  import opened PyText
  import opened PyValues
  import opened Templates
  import opened Errors

  /** How an optional `details` argument ends up as an attribute: always passed, possibly as `None`. */
  function DetailsArg(details: Option<map<string, PyValue>>): DetailsAttr {
    if details.Some? then Passed(details.value) else PassedNone
  }

  /** `f"{identifier}={value}"`. */
  function Criteria(identifier: PyValue, value: PyValue): string {
    Str(identifier) + "=" + Str(value)
  }

  /** The `AttributeError` Python raises for `x.capitalize()` on a non-string. */
  function NoCapitalize(v: PyValue): Exc {
    ForeignExc(AttributeError, "'" + TypeName(v) + "' object has no attribute 'capitalize'")
  }

  /**
   * `EntityNotFoundError.for_entity` (with `k == EntityNotFoundError`) and
   * `DuplicateEntityError.for_entity` (with `k == DuplicateEntityError`).
   * `code` is the caller's code, which the Python signature defaults to
   * `DefaultForEntityCode(k)`.
   */
  function ForEntity(k: Kind, entityName: PyValue, identifier: PyValue, value: PyValue,
                     details: Option<map<string, PyValue>>, context: Option<Exc>, code: ErrorCode): (r: Result<Exc, Exc>)
    requires k == EntityNotFoundError || k == DuplicateEntityError
    ensures !entityName.PyStr? ==> r == Failure(NoCapitalize(entityName))
    ensures entityName.PyStr? ==> r.Success?
    ensures r.Success? ==>
      && r.value.AppExc? && r.value.kind == k
      && r.value.message == Capitalize(entityName.s) + " with " + Criteria(identifier, value)
         + EntitySuffix(k)
      && r.value.code == Some(code) && r.value.details == DetailsArg(details) && r.value.context == context
  {
    if !entityName.PyStr? then Failure(NoCapitalize(entityName))
    else
      var kw := map["entity" := PyStr(Capitalize(entityName.s)), "criteria" := PyStr(Criteria(identifier, value))];
      EntityTemplateFill(k, Capitalize(entityName.s), Criteria(identifier, value));
      FilledMessage(k, context, kw, Some(code), DetailsArg(details));
      NewErrorStored(k, None, context, Some(kw), Some(code), DetailsArg(details));
      NewError(k, None, context, Some(kw), Some(code), DetailsArg(details))
  }

  /** The `for_entity` template filled with an entity and a criteria string. */
  lemma EntityTemplateFill(k: Kind, entity: string, crit: string)
    requires k == EntityNotFoundError || k == DuplicateEntityError
    ensures MessageTemplate(k).Some?
    ensures Placeholders(MessageTemplate(k).value) == {"entity", "criteria"}
    ensures Fill(MessageTemplate(k).value, map["entity" := PyStr(entity), "criteria" := PyStr(crit)])
      == Success(entity + " with " + crit + EntitySuffix(k))
  {
    EntityTemplateShape(k);
    NotFoundHoles();
    DuplicateHoles();
    FillEntityShape(EntitySuffix(k), entity, crit);
  }

  /** What follows the criteria in the two `for_entity` messages. */
  function EntitySuffix(k: Kind): string {
    if k == EntityNotFoundError then " not found" else " already exists"
  }

  /** Both `for_entity` templates read "{entity} with {criteria}" and then their own suffix. */
  lemma EntityTemplateShape(k: Kind)
    requires k == EntityNotFoundError || k == DuplicateEntityError
    ensures MessageTemplate(k) == Some([Hole("entity"), Lit(" with "), Hole("criteria"), Lit(EntitySuffix(k))])
  {
  }

  /** Filling "{entity} with {criteria}" and a literal suffix. */
  lemma FillEntityShape(suffix: string, entity: string, crit: string)
    ensures Fill([Hole("entity"), Lit(" with "), Hole("criteria"), Lit(suffix)],
                 map["entity" := PyStr(entity), "criteria" := PyStr(crit)])
      == Success(entity + " with " + crit + suffix)
  {
    var kw := map["entity" := PyStr(entity), "criteria" := PyStr(crit)];
    assert Fill([], kw) == Success([]);
    FillLit(suffix, [], kw, []);
    assert [Lit(suffix)] + [] == [Lit(suffix)] && suffix + [] == suffix;
    FillHole("criteria", [Lit(suffix)], kw, suffix);
    assert [Hole("criteria")] + [Lit(suffix)] == [Hole("criteria"), Lit(suffix)];
    FillLit(" with ", [Hole("criteria"), Lit(suffix)], kw, crit + suffix);
    assert [Lit(" with ")] + [Hole("criteria"), Lit(suffix)] == [Lit(" with "), Hole("criteria"), Lit(suffix)];
    FillHole("entity", [Lit(" with "), Hole("criteria"), Lit(suffix)], kw, " with " + (crit + suffix));
    assert [Hole("entity")] + [Lit(" with "), Hole("criteria"), Lit(suffix)]
      == [Hole("entity"), Lit(" with "), Hole("criteria"), Lit(suffix)];
    assert entity + (" with " + (crit + suffix)) == entity + " with " + crit + suffix;
  }

  /** The code `for_entity` passes when the caller gives none. */
  function DefaultForEntityCode(k: Kind): ErrorCode {
    if k == EntityNotFoundError then ENTITY_NOT_FOUND else DUPLICATE_ENTITY
  }

  /** `UseCaseError.for_use_case(name, context, details, code)`; the code defaults to `USE_CASE_ERROR`. */
  function ForUseCase(useCaseName: string, context: Option<Exc>, details: Option<map<string, PyValue>>,
                      code: ErrorCode): (r: Exc)
    ensures r.AppExc? && r.kind == UseCaseError
    ensures r.message == "Use case failed: " + useCaseName
    ensures r.code == Some(code) && r.details == DetailsArg(details) && r.context == context
  {
    var kw := map["use_case_name" := PyStr(useCaseName)];
    UseCaseHoles();
    UseCaseFill(useCaseName);
    FilledMessage(UseCaseError, context, kw, Some(code), DetailsArg(details));
    NewErrorStored(UseCaseError, None, context, Some(kw), Some(code), DetailsArg(details));
    NewError(UseCaseError, None, context, Some(kw), Some(code), DetailsArg(details)).value
  }

  /** The `for_use_case` template filled with a use case's name. */
  lemma UseCaseFill(useCaseName: string)
    ensures MessageTemplate(UseCaseError) == Some(UseCaseTemplate)
    ensures Fill(UseCaseTemplate, map["use_case_name" := PyStr(useCaseName)]) == Success("Use case failed: " + useCaseName)
  {
    var kw := map["use_case_name" := PyStr(useCaseName)];
    assert Fill([], kw) == Success([]);
    FillHole("use_case_name", [], kw, []);
    assert [Hole("use_case_name")] + [] == [Hole("use_case_name")] && useCaseName + [] == useCaseName;
    FillLit("Use case failed: ", [Hole("use_case_name")], kw, useCaseName);
    assert [Lit("Use case failed: ")] + [Hole("use_case_name")] == UseCaseTemplate;
  }

  /** Argument-less construction of the base classes gives each class's own default message. */
  lemma {:induction false} BareDefaults()
    ensures NewError(ApplicationError, None, None, None, None, NotPassed)
      == Success(AppExc(ApplicationError, "Application error occurred", None, NotPassed, None))
    ensures NewError(DatabaseTimedOutError, None, None, None, None, NotPassed)
      == Success(AppExc(DatabaseTimedOutError, "Database connection timed out", None, NotPassed, None))
    ensures NewError(DatabaseError, None, None, None, None, NotPassed)
      == Success(AppExc(DatabaseError, "Database error", None, NotPassed, None))
    ensures NewError(DomainError, None, None, None, None, NotPassed)
      == Success(AppExc(DomainError, "Domain error occurred", None, NotPassed, None))
    ensures NewError(InfrastructureException, None, None, None, None, NotPassed)
      == Success(AppExc(InfrastructureException, "Infrastructure error occurred", None, NotPassed, None))
    ensures NewError(AppError, None, None, None, None, NotPassed)
      == Success(AppExc(AppError, "Application error occurred.", None, NotPassed, None))
  {
    BaseClassAttributes();
    BareDefault(ApplicationError);
    BareDefault(DatabaseTimedOutError);
    BareDefault(DatabaseError);
    BareDefault(DomainError);
    BareDefault(InfrastructureException);
    BareDefault(AppError);
  }

  /** The base classes declare no template, and these default messages. */
  lemma BaseClassAttributes()
    ensures MessageTemplate(ApplicationError).None? && DefaultMessage(ApplicationError) == "Application error occurred"
    ensures MessageTemplate(DatabaseTimedOutError).None? && DefaultMessage(DatabaseTimedOutError) == "Database connection timed out"
    ensures MessageTemplate(DatabaseError).None? && DefaultMessage(DatabaseError) == "Database error"
    ensures MessageTemplate(DomainError).None? && DefaultMessage(DomainError) == "Domain error occurred"
    ensures MessageTemplate(InfrastructureException).None? && DefaultMessage(InfrastructureException) == "Infrastructure error occurred"
    ensures MessageTemplate(AppError).None? && DefaultMessage(AppError) == "Application error occurred."
  {
  }

  /** A class without a template, constructed with no arguments, takes its default message and nothing else. */
  lemma BareDefault(k: Kind)
    requires MessageTemplate(k).None?
    ensures NewError(k, None, None, None, None, NotPassed) == Success(AppExc(k, DefaultMessage(k), None, NotPassed, None))
  {
    NewErrorDefaulted(k, None, None, None, None, NotPassed);
    NewErrorStored(k, None, None, None, None, NotPassed);
  }

  /** A bare `DomainError` or `InfrastructureException` ignores a keyword map, having no template. */
  lemma {:induction false} NoTemplateIgnoresKeywords(k: Kind, kw: map<string, PyValue>)
    requires k == DomainError || k == InfrastructureException
    ensures NewError(k, None, None, Some(kw), None, NotPassed).value.message == DefaultMessage(k)
  {
    assert MessageTemplate(k).None?;
    NewErrorDefaulted(k, None, None, Some(kw), None, NotPassed);
  }

  /** The entity name is capitalised: "user" reads "User". */
  lemma {:induction false} CapitalizeExample()
    ensures Capitalize("user") == "User"
  {
    assert Lower("") == "";
    assert Lower("r") == "r";
    assert Lower("er") == "er";
    assert Lower("ser") == "ser";
  }

  /** `FieldZeroError` with attr_name "x" reads "Field 'x' cannot be zero". */
  lemma {:induction false} FieldZeroExample()
    ensures NewError(FieldZeroError, None, None, Some(map["attr_name" := PyStr("x")]), None, NotPassed).value.message
      == "Field 'x' cannot be zero"
  {
    var kw := map["attr_name" := PyStr("x")];
    FieldZeroHoles();
    FieldZeroFill("x");
    FilledMessage(FieldZeroError, None, kw, None, NotPassed);
    var msg := NewError(FieldZeroError, None, None, Some(kw), None, NotPassed).value.message;
    assert Success(msg) == Fill(FieldZeroTemplate, kw);
    assert msg == "Field '" + "x" + "' cannot be zero";
    FieldZeroText();
  }

  lemma FieldZeroText()
    ensures "Field '" + "x" + "' cannot be zero" == "Field 'x' cannot be zero"
  {
  }

  /** The `FieldZeroError` template filled with a field name. */
  lemma FieldZeroFill(name: string)
    ensures MessageTemplate(FieldZeroError) == Some(FieldZeroTemplate)
    ensures Fill(FieldZeroTemplate, map["attr_name" := PyStr(name)]) == Success("Field '" + name + "' cannot be zero")
  {
    FillBetween("Field '", "attr_name", "' cannot be zero", map["attr_name" := PyStr(name)]);
  }
}
