/**
 * Message templates: the class-level `MESSAGE_TEMPLATE` strings of the error
 * taxonomy, as sequences of literal text and `{name}` placeholders, and the
 * `str.format(**kw)` that fills them.
 */
module Templates {
  import opened Wrappers
  import opened PyValues

  datatype Piece = Lit(text: string) | Hole(name: string)

  type Template = seq<Piece>

  /** The placeholder names a template mentions. */
  function Placeholders(t: Template): set<string> {
    if t == [] then {} else (if t[0].Hole? then {t[0].name} else {}) + Placeholders(t[1..])
  }

  /** The template as the class attribute spells it: each placeholder in braces. */
  function RawText(t: Template): string {
    if t == [] then []
    else
      (match t[0] case Lit(s) => s case Hole(n) => "{" + n + "}") + RawText(t[1..])
  }

  /** Total length of the literal pieces. */
  function LiteralLength(t: Template): nat {
    if t == [] then 0 else (if t[0].Lit? then |t[0].text| else 0) + LiteralLength(t[1..])
  }

  /**
   * `template.format(**kw)`: every placeholder replaced by `str` of its value.
   * A placeholder missing from `kw` fails with the `KeyError` of the first
   * such name, reading left to right; extra keys are ignored.
   */
  function Fill(t: Template, kw: map<string, PyValue>): Result<string, string> {
    if t == [] then Success([])
    else
      match t[0]
      case Lit(s) =>
        var rest :- Fill(t[1..], kw);
        Success(s + rest)
      case Hole(n) =>
        if n !in kw then Failure(n)
        else
          var rest :- Fill(t[1..], kw);
          Success(Str(kw[n]) + rest)
  }

  /**
   * Filling succeeds exactly when every placeholder has a key; a failure
   * names a placeholder that has none; the filled text holds all the
   * literal text.
   */
  lemma {:induction false} FillRules(t: Template, kw: map<string, PyValue>)
    ensures Fill(t, kw).Success? <==> Placeholders(t) <= kw.Keys
    ensures Fill(t, kw).Failure? ==> Fill(t, kw).error in Placeholders(t) && Fill(t, kw).error !in kw
    ensures Fill(t, kw).Success? ==> |Fill(t, kw).value| >= LiteralLength(t)
  {
    if t != [] {
      FillRules(t[1..], kw);
    }
  }

  lemma PlaceholdersCons(t: Template)
    requires t != []
    ensures Placeholders(t) == Placeholders([t[0]]) + Placeholders(t[1..])
  {
    assert [t[0]][1..] == [];
  }

  /** Filling a template that starts with literal text. */
  lemma FillLit(s: string, rest: Template, kw: map<string, PyValue>, tail: string)
    requires Fill(rest, kw) == Success(tail)
    ensures Fill([Lit(s)] + rest, kw) == Success(s + tail)
  {
    assert ([Lit(s)] + rest)[1..] == rest;
  }

  /** Filling a template that starts with a supplied placeholder. */
  lemma FillHole(n: string, rest: Template, kw: map<string, PyValue>, tail: string)
    requires n in kw && Fill(rest, kw) == Success(tail)
    ensures Fill([Hole(n)] + rest, kw) == Success(Str(kw[n]) + tail)
  {
    assert ([Hole(n)] + rest)[1..] == rest;
  }

  /** Filling a template of one placeholder between two literals. */
  lemma FillBetween(pre: string, n: string, post: string, kw: map<string, PyValue>)
    requires n in kw
    ensures Fill([Lit(pre), Hole(n), Lit(post)], kw) == Success(pre + Str(kw[n]) + post)
  {
    assert Fill([], kw) == Success([]);
    FillLit(post, [], kw, []);
    assert [Lit(post)] + [] == [Lit(post)] && post + [] == post;
    FillHole(n, [Lit(post)], kw, post);
    assert [Hole(n)] + [Lit(post)] == [Hole(n), Lit(post)];
    FillLit(pre, [Hole(n), Lit(post)], kw, Str(kw[n]) + post);
    assert [Lit(pre)] + [Hole(n), Lit(post)] == [Lit(pre), Hole(n), Lit(post)];
    assert pre + (Str(kw[n]) + post) == pre + Str(kw[n]) + post;
  }

  /** Filling every placeholder with its own spelling gives back the raw template text. */
  lemma {:induction false} FillSelfNames(t: Template, kw: map<string, PyValue>)
    requires forall n | n in Placeholders(t) :: n in kw && kw[n] == PyStr("{" + n + "}")
    ensures Fill(t, kw) == Success(RawText(t))
  {
    if t != [] {
      PlaceholdersCons(t);
      FillSelfNames(t[1..], kw);
      if t[0].Hole? {
        assert t[0].name in Placeholders(t);
      }
    }
  }

  /** `str.format` reads only the placeholders' keys: two maps that agree on them fill alike. */
  lemma {:induction false} FillReadsOnlyPlaceholders(t: Template, kw1: map<string, PyValue>, kw2: map<string, PyValue>)
    requires forall n | n in Placeholders(t) :: (n in kw1 <==> n in kw2)
    requires forall n | n in Placeholders(t) && n in kw1 :: kw1[n] == kw2[n]
    ensures Fill(t, kw1) == Fill(t, kw2)
  {
    if t != [] {
      PlaceholdersCons(t);
      FillReadsOnlyPlaceholders(t[1..], kw1, kw2);
      if t[0].Hole? {
        assert t[0].name in Placeholders(t);
      }
    }
  }
}

/**
 * The exception classes of the core, their class-level constants looked up
 * along the class hierarchy, exception values, and the `AppError` /
 * `TemplateAppError` constructors.
 */
module Errors {
  import opened Wrappers
  import opened PyText
  import opened PyValues
  import opened Templates

  /** The members of the `ErrorCode` enumeration the core uses. */
  datatype ErrorCode =
    | VALIDATION_ERROR | ENTITY_NOT_FOUND | USER_NOT_FOUND | DUPLICATE_ENTITY
    | DATABASE_TIMEOUT | DATABASE_ERROR | DATA_INTEGRITY_ERROR | USE_CASE_ERROR
    | APPLICATION_ERROR

  /** `str(code)`: the member's name. */
  function CodeText(c: ErrorCode): string {
    match c
    case VALIDATION_ERROR => "VALIDATION_ERROR"
    case ENTITY_NOT_FOUND => "ENTITY_NOT_FOUND"
    case USER_NOT_FOUND => "USER_NOT_FOUND"
    case DUPLICATE_ENTITY => "DUPLICATE_ENTITY"
    case DATABASE_TIMEOUT => "DATABASE_TIMEOUT"
    case DATABASE_ERROR => "DATABASE_ERROR"
    case DATA_INTEGRITY_ERROR => "DATA_INTEGRITY_ERROR"
    case USE_CASE_ERROR => "USE_CASE_ERROR"
    case APPLICATION_ERROR => "APPLICATION_ERROR"
  }

  /**
   * The application's exception classes. The validation kinds exist twice:
   * once in the shared exceptions module (plain `TemplateAppError`
   * subclasses, raised by the value objects) and once in the shared domain
   * exceptions module (`DomainError` subclasses with a `DEFAULT_CODE`),
   * named here with a `Domain` prefix.
   */
  datatype Kind =
    | AppError | TemplateAppError | DomainError | InfrastructureException
    | ApplicationError | EntityNotFoundError | DuplicateEntityError
    | DatabaseTimedOutError | DatabaseError | UseCaseError
    | EmptyValueError | InvalidTypeError | FieldNegativeError | FieldZeroError
    | EntityWithoutIdHashError | FieldTooShortError | FieldTooLongError | InvalidFormatError
    | DomainEmptyValueError | DomainInvalidTypeError | DomainFieldNegativeError
    | DomainFieldZeroError | DomainEntityWithoutIdHashError | DomainFieldTooShortError
    | DomainFieldTooLongError | DomainInvalidFormatError | PasswordTooShortError
    | PasswordTooLongError | PasswordInvalidCharactersError

  /** `cls.__name__`; a `Domain`-prefixed kind has the same name as its shared twin. */
  function ClassName(k: Kind): string {
    match k
    case AppError => "AppError"
    case TemplateAppError => "TemplateAppError"
    case DomainError => "DomainError"
    case InfrastructureException => "InfrastructureException"
    case ApplicationError => "ApplicationError"
    case EntityNotFoundError => "EntityNotFoundError"
    case DuplicateEntityError => "DuplicateEntityError"
    case DatabaseTimedOutError => "DatabaseTimedOutError"
    case DatabaseError => "DatabaseError"
    case UseCaseError => "UseCaseError"
    case EmptyValueError | DomainEmptyValueError => "EmptyValueError"
    case InvalidTypeError | DomainInvalidTypeError => "InvalidTypeError"
    case FieldNegativeError | DomainFieldNegativeError => "FieldNegativeError"
    case FieldZeroError | DomainFieldZeroError => "FieldZeroError"
    case EntityWithoutIdHashError | DomainEntityWithoutIdHashError => "EntityWithoutIdHashError"
    case FieldTooShortError | DomainFieldTooShortError => "FieldTooShortError"
    case FieldTooLongError | DomainFieldTooLongError => "FieldTooLongError"
    case InvalidFormatError | DomainInvalidFormatError => "InvalidFormatError"
    case PasswordTooShortError => "PasswordTooShortError"
    case PasswordTooLongError => "PasswordTooLongError"
    case PasswordInvalidCharactersError => "PasswordInvalidCharactersError"
  }

  /** The shared value-object error kinds. */
  predicate IsSharedValidation(k: Kind) {
    match k
    case EmptyValueError | InvalidTypeError | FieldNegativeError | FieldZeroError
      | EntityWithoutIdHashError | FieldTooShortError | FieldTooLongError | InvalidFormatError => true
    case _ => false
  }

  /** The validation kinds of the shared domain exceptions module that derive from `DomainError`. */
  predicate IsDomainValidation(k: Kind) {
    match k
    case DomainEmptyValueError | DomainInvalidTypeError | DomainFieldNegativeError | DomainFieldZeroError
      | DomainEntityWithoutIdHashError | DomainFieldTooShortError | DomainFieldTooLongError
      | DomainInvalidFormatError | PasswordTooShortError => true
    case _ => false
  }

  /** Distance from `AppError` in the class hierarchy. */
  function Depth(k: Kind): nat {
    match k
    case AppError => 0
    case TemplateAppError => 1
    case DomainError | InfrastructureException | ApplicationError | PasswordTooLongError
      | PasswordInvalidCharactersError => 2
    case EmptyValueError | InvalidTypeError | FieldNegativeError | FieldZeroError
      | EntityWithoutIdHashError | FieldTooShortError | FieldTooLongError | InvalidFormatError => 2
    case _ => 3
  }

  /** The direct base class. */
  function Parent(k: Kind): (p: Option<Kind>)
    ensures p.None? <==> k == AppError
    ensures p.Some? ==> Depth(p.value) + 1 == Depth(k)
  {
    match k
    case AppError => None
    case TemplateAppError => Some(AppError)
    case DomainError | InfrastructureException | ApplicationError | PasswordTooLongError
      | PasswordInvalidCharactersError => Some(TemplateAppError)
    case EmptyValueError | InvalidTypeError | FieldNegativeError | FieldZeroError
      | EntityWithoutIdHashError | FieldTooShortError | FieldTooLongError | InvalidFormatError
      => Some(TemplateAppError)
    case EntityNotFoundError | DuplicateEntityError | DatabaseTimedOutError | DatabaseError
      | UseCaseError => Some(ApplicationError)
    case _ => Some(DomainError)
  }

  /** `issubclass(k, base)`. */
  predicate IsSubclass(k: Kind, base: Kind)
    decreases Depth(k)
  {
    k == base || (Parent(k).Some? && IsSubclass(Parent(k).value, base))
  }

  /** `DEFAULT_MESSAGE` as declared in the class body itself. */
  function DeclaredDefaultMessage(k: Kind): Option<string> {
    match k
    case AppError => Some("Application error occurred.")
    case DomainError => Some("Domain error occurred")
    case InfrastructureException => Some("Infrastructure error occurred")
    case ApplicationError => Some("Application error occurred")
    case DatabaseTimedOutError => Some("Database connection timed out")
    case DatabaseError => Some("Database error")
    case _ => None
  }

  /** `cls.DEFAULT_MESSAGE`: the nearest declaration along the class hierarchy. */
  function DefaultMessage(k: Kind): (m: string)
    ensures m != ""
    ensures DeclaredDefaultMessage(k).Some? ==> m == DeclaredDefaultMessage(k).value
    decreases Depth(k)
  {
    if DeclaredDefaultMessage(k).Some? then DeclaredDefaultMessage(k).value
    else DefaultMessage(Parent(k).value)
  }

  /** `DEFAULT_CODE` as declared in the class body itself. */
  function DeclaredDefaultCode(k: Kind): Option<ErrorCode> {
    match k
    case ApplicationError => Some(APPLICATION_ERROR)
    case DatabaseTimedOutError => Some(DATABASE_TIMEOUT)
    case DatabaseError => Some(DATABASE_ERROR)
    case DomainEmptyValueError | DomainInvalidTypeError | DomainFieldNegativeError
      | DomainFieldZeroError | DomainFieldTooShortError | DomainFieldTooLongError
      | DomainInvalidFormatError | PasswordTooShortError | PasswordTooLongError
      | PasswordInvalidCharactersError => Some(VALIDATION_ERROR)
    case _ => None
  }

  /** `cls.DEFAULT_CODE` when some class along the hierarchy declares one. */
  function DefaultCode(k: Kind): Option<ErrorCode>
    decreases Depth(k)
  {
    if DeclaredDefaultCode(k).Some? then DeclaredDefaultCode(k)
    else if k == AppError then None
    else DefaultCode(Parent(k).value)
  }

  /** `MESSAGE_TEMPLATE` as declared in the class body: `Some(None)` is an explicit `None`. */
  function DeclaredTemplate(k: Kind): Option<Option<Template>> {
    match k
    case TemplateAppError | DomainError => Some(None)
    case EntityNotFoundError => Some(Some(NotFoundTemplate))
    case DuplicateEntityError => Some(Some(DuplicateTemplate))
    case UseCaseError => Some(Some(UseCaseTemplate))
    case EmptyValueError | DomainEmptyValueError => Some(Some(EmptyValueTemplate))
    case InvalidTypeError | DomainInvalidTypeError => Some(Some(InvalidTypeTemplate))
    case FieldNegativeError | DomainFieldNegativeError => Some(Some(FieldNegativeTemplate))
    case FieldZeroError | DomainFieldZeroError => Some(Some(FieldZeroTemplate))
    case EntityWithoutIdHashError | DomainEntityWithoutIdHashError => Some(Some(EntityWithoutIdHashTemplate))
    case FieldTooShortError | DomainFieldTooShortError => Some(Some(FieldTooShortTemplate))
    case FieldTooLongError | DomainFieldTooLongError => Some(Some(FieldTooLongTemplate))
    case InvalidFormatError | DomainInvalidFormatError => Some(Some(InvalidFormatTemplate))
    case PasswordTooShortError => Some(Some(PasswordTooShortTemplate))
    case PasswordTooLongError => Some(Some(PasswordTooLongTemplate))
    case PasswordInvalidCharactersError => Some(Some(PasswordInvalidCharactersTemplate))
    case _ => None
  }

  /** `cls.MESSAGE_TEMPLATE` along the hierarchy; `AppError` itself has none. */
  function MessageTemplate(k: Kind): Option<Template>
    decreases Depth(k)
  {
    if DeclaredTemplate(k).Some? then DeclaredTemplate(k).value
    else if k == AppError then None
    else MessageTemplate(Parent(k).value)
  }

  const NotFoundTemplate: Template := [Hole("entity"), Lit(" with "), Hole("criteria"), Lit(" not found")]
  const DuplicateTemplate: Template := [Hole("entity"), Lit(" with "), Hole("criteria"), Lit(" already exists")]
  const UseCaseTemplate: Template := [Lit("Use case failed: "), Hole("use_case_name")]
  const EmptyValueTemplate: Template :=
    [Lit("Field '"), Hole("attr_name"), Lit("' cannot be empty, but got value: "), Hole("value")]
  const InvalidTypeTemplate: Template :=
    [Lit("Expected type '"), Hole("expected_type"), Lit("' for field '"), Hole("attr_name"),
     Lit("', but got '"), Hole("actual_type"), Lit("' with value: '"), Hole("value"), Lit("'")]
  const FieldNegativeTemplate: Template :=
    [Lit("Field '"), Hole("attr_name"), Lit("' cannot be negative, but got value: "), Hole("value")]
  const FieldZeroTemplate: Template := [Lit("Field '"), Hole("attr_name"), Lit("' cannot be zero")]
  const EntityWithoutIdHashTemplate: Template :=
    [Lit("Cannot hash an entity of type "), Hole("entity"), Lit(" without an ID.")]
  const FieldTooShortTemplate: Template :=
    [Lit("The '"), Hole("attr_name"), Lit("' field must be at least "), Hole("min_length"),
     Lit(" characters long. Current length is "), Hole("current_length"), Lit(" characters: '"),
     Hole("value"), Lit("'")]
  const FieldTooLongTemplate: Template :=
    [Lit("Field '"), Hole("attr_name"), Lit("' exceeds maximum length of "), Hole("max_length"),
     Lit(" characters. Got "), Hole("current_length"), Lit(" characters: "), Hole("value")]
  const InvalidFormatTemplate: Template :=
    [Lit("Field '"), Hole("attr_name"), Lit("' has invalid format. Expected format: "),
     Hole("expected_format"), Lit(". Got: "), Hole("value")]
  const PasswordTooShortTemplate: Template :=
    [Lit("The password is too short!The '"), Hole("attr_name"), Lit("' field must be at least "),
     Hole("min_length"), Lit(" characters long.Current length is "), Hole("current_length"),
     Lit(" characters: '"), Hole("value"), Lit("'")]
  const PasswordTooLongTemplate: Template :=
    [Lit("The password is too long!The '"), Hole("attr_name"), Lit("' field must be at least "),
     Hole("min_length"), Lit(" characters long.Current length is "), Hole("current_length"),
     Lit(" characters: '"), Hole("value"), Lit("'")]
  const PasswordInvalidCharactersTemplate: Template :=
    [Lit("The password contains invalid characters! The '"), Hole("attr_name"),
     Lit("' field must include only latin letters, digits and special symbols. Provided value: '"),
     Hole("value"), Lit("'")]

  /** The placeholders of the templates that the value objects and the factories fill. */
  lemma NotFoundHoles()
    ensures Placeholders(NotFoundTemplate) == {"entity", "criteria"}
  {
  }

  lemma DuplicateHoles()
    ensures Placeholders(DuplicateTemplate) == {"entity", "criteria"}
  {
  }

  lemma UseCaseHoles()
    ensures Placeholders(UseCaseTemplate) == {"use_case_name"}
  {
  }

  lemma InvalidTypeHoles()
    ensures Placeholders(InvalidTypeTemplate) == {"expected_type", "attr_name", "actual_type", "value"}
  {
  }

  lemma FieldNegativeHoles()
    ensures Placeholders(FieldNegativeTemplate) == {"attr_name", "value"}
  {
  }

  lemma FieldZeroHoles()
    ensures Placeholders(FieldZeroTemplate) == {"attr_name"}
  {
  }

  lemma FieldTooShortHoles()
    ensures Placeholders(FieldTooShortTemplate) == {"attr_name", "min_length", "current_length", "value"}
  {
  }

  lemma FieldTooLongHoles()
    ensures Placeholders(FieldTooLongTemplate) == {"attr_name", "max_length", "current_length", "value"}
  {
  }

  lemma InvalidFormatHoles()
    ensures Placeholders(InvalidFormatTemplate) == {"attr_name", "expected_format", "value"}
  {
  }

  /** Every template the taxonomy declares has literal text, so a filled one is never empty. */
  lemma {:induction false} DeclaredTemplatesHaveText(k: Kind)
    requires MessageTemplate(k).Some?
    ensures LiteralLength(MessageTemplate(k).value) > 0
    decreases Depth(k)
  {
    if DeclaredTemplate(k).Some? {
      OwnTemplateHasText(k);
    } else {
      DeclaredTemplatesHaveText(Parent(k).value);
    }
  }

  /** The templates the class bodies declare each open with literal text, or with a placeholder then literal text. */
  lemma {:induction false} OwnTemplateHasText(k: Kind)
    requires DeclaredTemplate(k).Some? && DeclaredTemplate(k).value.Some?
    ensures LiteralLength(DeclaredTemplate(k).value.value) > 0
  {
    var t := DeclaredTemplate(k).value.value;
    assert |t| >= 2 && if t[0].Lit? then t[0].text != "" else t[1].Lit? && t[1].text != "";
    LeadingLiteral(t);
  }

  lemma LeadingLiteral(t: Template)
    requires |t| >= 2
    ensures t[0].Lit? ==> LiteralLength(t) >= |t[0].text|
    ensures t[0].Hole? && t[1].Lit? ==> LiteralLength(t) >= |t[1].text|
  {
  }

  /** The `details` attribute: never passed, passed as `None`, or passed as a dict. */
  datatype DetailsAttr = NotPassed | PassedNone | Passed(entries: map<string, PyValue>)

  /** Exceptions the core catches or raises that are not part of the application taxonomy. */
  datatype ForeignClass =
    | KeyError | TypeError | ValueError | AttributeError
    | SystemExit | KeyboardInterrupt
    | IntegrityError | OperationalError | OtherSqlAlchemyError(name: string)
    | RequestValidationError | ValidationException
    | HTTPException(status: int)
    | OtherException(name: string)

  /**
   * An exception object. `AppExc` is an instance of the taxonomy: its
   * `message`, the `code` a caller set (`None` when no `code` attribute was
   * set), its `details` and its `context`, which is also its `__cause__`.
   */
  datatype Exc =
    | AppExc(kind: Kind, message: string, code: Option<ErrorCode>, details: DetailsAttr, context: Option<Exc>)
    | ForeignExc(cls: ForeignClass, text: string)

  /** `type(e).__name__`. */
  function TypeNameOf(e: Exc): string {
    match e
    case AppExc(k, _, _, _, _) => ClassName(k)
    case ForeignExc(c, _) =>
      match c
      case KeyError => "KeyError"
      case TypeError => "TypeError"
      case ValueError => "ValueError"
      case AttributeError => "AttributeError"
      case SystemExit => "SystemExit"
      case KeyboardInterrupt => "KeyboardInterrupt"
      case IntegrityError => "IntegrityError"
      case OperationalError => "OperationalError"
      case OtherSqlAlchemyError(n) => n
      case RequestValidationError => "RequestValidationError"
      case ValidationException => "ValidationException"
      case HTTPException(_) => "HTTPException"
      case OtherException(n) => n
  }

  /** The `KeyError` `str.format` raises for a missing placeholder: its `str` is the quoted key. */
  function MissingKey(name: string): Exc {
    ForeignExc(KeyError, "'" + name + "'")
  }

  /**
   * `str(e)`. For the taxonomy: the message, followed by the context when
   * there is one. An `HTTPException` reads "status: detail".
   */
  function ExcStr(e: Exc): (s: string)
    ensures e.AppExc? && e.context.None? ==> s == e.message
    ensures e.AppExc? && e.context.Some? ==> s == e.message + " (caused by " + ExcStr(e.context.value) + ")"
  {
    match e
    case AppExc(_, m, _, _, ctx) => if ctx.Some? then m + " (caused by " + ExcStr(ctx.value) + ")" else m
    case ForeignExc(c, t) => if c.HTTPException? then IntToString(c.status) + ": " + t else t
  }

  /** The text of the `TypeError` `AppError.__init__` raises when handed a keyword map. */
  const UnexpectedKeyword := "AppError.__init__() got an unexpected keyword argument 'message_to_extend'"

  /** The message `TemplateAppError.__init__` hands on to `AppError.__init__`. */
  function TemplateMessage(k: Kind, message: Option<string>, kw: Option<map<string, PyValue>>): Result<Option<string>, Exc> {
    if k == AppError || message.Some? || MessageTemplate(k).None? then Success(message)
    else if kw.None? then Success(Some(RawText(MessageTemplate(k).value)))
    else
      match Fill(MessageTemplate(k).value, kw.value)
      case Success(s) => Success(Some(s))
      case Failure(n) => Failure(MissingKey(n))
  }

  /**
   * `k(message=..., context=..., message_to_extend=..., code=..., details=...)`.
   * `code` and `details` become attributes only when the caller passes them.
   * `AppError` itself takes no `message_to_extend`.
   */
  function NewError(k: Kind, message: Option<string>, context: Option<Exc>,
                    kw: Option<map<string, PyValue>>, code: Option<ErrorCode>, details: DetailsAttr): Result<Exc, Exc>
  {
    if k == AppError && kw.Some? then
      Failure(ForeignExc(TypeError, UnexpectedKeyword))
    else
      var m :- TemplateMessage(k, message, kw);
      Success(AppExc(k, SettledMessage(k, m), code, details, context))
  }

  /** `message or self.DEFAULT_MESSAGE`: the settled message, unless it is missing or empty. */
  function SettledMessage(k: Kind, m: Option<string>): (text: string)
    ensures text != ""
    ensures m.Some? && m.value != "" ==> text == m.value
    ensures m.None? || m == Some("") ==> text == DefaultMessage(k)
  {
    if m.Some? && m.value != "" then m.value else DefaultMessage(k)
  }

  /** What the constructors store besides the message, which is never empty; the only failures are a `KeyError` or a `TypeError`. */
  lemma NewErrorStored(k: Kind, message: Option<string>, context: Option<Exc>,
                       kw: Option<map<string, PyValue>>, code: Option<ErrorCode>, details: DetailsAttr)
    ensures var r := NewError(k, message, context, kw, code, details);
      r.Success? ==>
        && r.value.AppExc? && r.value.kind == k && r.value.code == code
        && r.value.details == details && r.value.context == context && r.value.message != ""
    ensures var r := NewError(k, message, context, kw, code, details);
      r.Failure? ==> r.error.ForeignExc? && r.error.cls in {KeyError, TypeError}
  {
    if k != AppError || kw.None? {
      NewErrorUnfold(k, message, context, kw, code, details);
      TemplateMessageFails(k, message, kw);
    }
  }

  /** The constructor once `TemplateAppError.__init__` has settled the message: `message or DEFAULT_MESSAGE`. */
  lemma NewErrorUnfold(k: Kind, message: Option<string>, context: Option<Exc>,
                       kw: Option<map<string, PyValue>>, code: Option<ErrorCode>, details: DetailsAttr)
    requires k != AppError || kw.None?
    ensures var m := TemplateMessage(k, message, kw);
      m.Success? ==>
        NewError(k, message, context, kw, code, details) == Success(AppExc(k, SettledMessage(k, m.value), code, details, context))
    ensures var m := TemplateMessage(k, message, kw);
      m.Failure? ==> NewError(k, message, context, kw, code, details) == Failure(m.error)
  {
  }

  /** The template step fails only with the `KeyError` of a placeholder that has no key. */
  lemma TemplateMessageFails(k: Kind, message: Option<string>, kw: Option<map<string, PyValue>>)
    ensures TemplateMessage(k, message, kw).Failure? ==>
      && k != AppError && message.None? && MessageTemplate(k).Some? && kw.Some?
      && Fill(MessageTemplate(k).value, kw.value).Failure?
      && TemplateMessage(k, message, kw).error == MissingKey(Fill(MessageTemplate(k).value, kw.value).error)
  {
  }

  /**
   * A given message wins unless it is empty, when the default replaces it;
   * with neither a message nor a template the keyword map is ignored and
   * the default is used.
   */
  lemma NewErrorDefaulted(k: Kind, message: Option<string>, context: Option<Exc>,
                          kw: Option<map<string, PyValue>>, code: Option<ErrorCode>, details: DetailsAttr)
    ensures var r := NewError(k, message, context, kw, code, details);
      message.Some? && (k != AppError || kw.None?) ==>
        r.Success? && r.value.message == (if message.value != "" then message.value else DefaultMessage(k))
    ensures var r := NewError(k, message, context, kw, code, details);
      message.None? && MessageTemplate(k).None? && (k != AppError || kw.None?) ==>
        r.Success? && r.value.message == DefaultMessage(k)
  {
    if (message.Some? || MessageTemplate(k).None?) && (k != AppError || kw.None?) {
      assert TemplateMessage(k, message, kw) == Success(message);
      NewErrorUnfold(k, message, context, kw, code, details);
    }
  }

  /** `AppError.__init__` has no `message_to_extend` parameter: passing keywords raises `TypeError`. */
  lemma AppErrorRefusesKeywords(message: Option<string>, context: Option<Exc>, kw: map<string, PyValue>,
                                code: Option<ErrorCode>, details: DetailsAttr)
    ensures NewError(AppError, message, context, Some(kw), code, details) == Failure(ForeignExc(TypeError, UnexpectedKeyword))
  {
  }

  /** With no message, a template and no keyword map, the message is the raw template text. */
  lemma NewErrorRaw(k: Kind, context: Option<Exc>, code: Option<ErrorCode>, details: DetailsAttr)
    requires MessageTemplate(k).Some?
    ensures var r := NewError(k, None, context, None, code, details);
      r.Success? && r.value.message == RawText(MessageTemplate(k).value)
  {
    RawTemplateHasText(k);
    TemplateMessageRaw(k);
    NewErrorUnfold(k, None, context, None, code, details);
  }

  /** With no message and no keyword map, the template step hands on the raw template text. */
  lemma TemplateMessageRaw(k: Kind)
    requires MessageTemplate(k).Some?
    ensures k != AppError
    ensures TemplateMessage(k, None, None) == Success(Some(RawText(MessageTemplate(k).value)))
  {
  }

  /** The raw text of a declared template is never empty. */
  lemma RawTemplateHasText(k: Kind)
    requires MessageTemplate(k).Some?
    ensures RawText(MessageTemplate(k).value) != ""
  {
    DeclaredTemplatesHaveText(k);
    RawTextHasLiterals(MessageTemplate(k).value);
  }

  /** A declared template, once filled, is never empty. */
  lemma FilledTemplateHasText(k: Kind, kw: map<string, PyValue>)
    requires MessageTemplate(k).Some? && Fill(MessageTemplate(k).value, kw).Success?
    ensures Fill(MessageTemplate(k).value, kw).value != ""
  {
    DeclaredTemplatesHaveText(k);
    FillRules(MessageTemplate(k).value, kw);
  }

  /** A keyword map that lacks a placeholder of the template: the constructor raises the `KeyError` of a missing one. */
  lemma NewErrorMissingKey(k: Kind, context: Option<Exc>, kw: map<string, PyValue>, code: Option<ErrorCode>, details: DetailsAttr)
    requires MessageTemplate(k).Some? && !(Placeholders(MessageTemplate(k).value) <= kw.Keys)
    ensures var r := NewError(k, None, context, Some(kw), code, details);
      r.Failure? && r.error.ForeignExc? && r.error.cls == KeyError
    ensures var r := NewError(k, None, context, Some(kw), code, details);
      exists n :: n in Placeholders(MessageTemplate(k).value) && n !in kw && r == Failure(MissingKey(n))
  {
    FillRules(MessageTemplate(k).value, kw);
    TemplateMessageFilled(k, kw);
    NewErrorUnfold(k, None, context, Some(kw), code, details);
  }

  /** With no message and a keyword map, the template step hands on the filled template, or the `KeyError` of a missing key. */
  lemma TemplateMessageFilled(k: Kind, kw: map<string, PyValue>)
    requires MessageTemplate(k).Some?
    ensures k != AppError
    ensures Fill(MessageTemplate(k).value, kw).Success? ==>
      TemplateMessage(k, None, Some(kw)) == Success(Some(Fill(MessageTemplate(k).value, kw).value))
    ensures Fill(MessageTemplate(k).value, kw).Failure? ==>
      TemplateMessage(k, None, Some(kw)) == Failure(MissingKey(Fill(MessageTemplate(k).value, kw).error))
  {
  }

  lemma {:induction false} RawTextHasLiterals(t: Template)
    ensures |RawText(t)| >= LiteralLength(t)
  {
    if t != [] {
      RawTextHasLiterals(t[1..]);
    }
  }

  /** The constructors' message rules when every placeholder is supplied: a filled template is never replaced by the default. */
  lemma FilledMessage(k: Kind, context: Option<Exc>, kw: map<string, PyValue>, code: Option<ErrorCode>, details: DetailsAttr)
    requires MessageTemplate(k).Some? && Placeholders(MessageTemplate(k).value) <= kw.Keys
    ensures NewError(k, None, context, Some(kw), code, details).Success?
    ensures Success(NewError(k, None, context, Some(kw), code, details).value.message)
      == Fill(MessageTemplate(k).value, kw)
  {
    FillRules(MessageTemplate(k).value, kw);
    FilledTemplateHasText(k, kw);
    TemplateMessageFilled(k, kw);
    NewErrorUnfold(k, None, context, Some(kw), code, details);
  }

  /** Which classes declare which code: the validation kinds of the domain module, and none of the shared module's. */
  lemma {:induction false} DefaultCodes(k: Kind)
    ensures IsSharedValidation(k) ==> DefaultCode(k).None?
    ensures IsDomainValidation(k) && k != DomainEntityWithoutIdHashError ==> DefaultCode(k) == Some(VALIDATION_ERROR)
    ensures k == DomainEntityWithoutIdHashError ==> DeclaredDefaultCode(k).None? && DefaultCode(k).None?
    ensures IsSubclass(k, ApplicationError) && k !in {DatabaseTimedOutError, DatabaseError} ==>
      DefaultCode(k) == Some(APPLICATION_ERROR)
  {
    ValidationCodes(k);
    ApplicationCodes(k);
  }

  /** The validation kinds' codes. */
  lemma {:induction false} ValidationCodes(k: Kind)
    ensures IsSharedValidation(k) ==> DefaultCode(k).None?
    ensures IsDomainValidation(k) && k != DomainEntityWithoutIdHashError ==> DefaultCode(k) == Some(VALIDATION_ERROR)
    ensures k == DomainEntityWithoutIdHashError ==> DeclaredDefaultCode(k).None? && DefaultCode(k).None?
  {
    BaseCodes();
    match k
    case AppError =>
    case TemplateAppError =>
    case DomainError =>
    case InfrastructureException =>
    case ApplicationError =>
    case EntityNotFoundError =>
    case DuplicateEntityError =>
    case DatabaseTimedOutError =>
    case DatabaseError =>
    case UseCaseError =>
    case EmptyValueError =>
    case InvalidTypeError =>
    case FieldNegativeError =>
    case FieldZeroError =>
    case EntityWithoutIdHashError =>
    case FieldTooShortError =>
    case FieldTooLongError =>
    case InvalidFormatError =>
    case DomainEmptyValueError =>
    case DomainInvalidTypeError =>
    case DomainFieldNegativeError =>
    case DomainFieldZeroError =>
    case DomainEntityWithoutIdHashError =>
    case DomainFieldTooShortError =>
    case DomainFieldTooLongError =>
    case DomainInvalidFormatError =>
    case PasswordTooShortError =>
    case PasswordTooLongError =>
    case PasswordInvalidCharactersError =>
  }

  /** The application layer's codes. */
  lemma {:induction false} ApplicationCodes(k: Kind)
    ensures IsSubclass(k, ApplicationError) && k !in {DatabaseTimedOutError, DatabaseError} ==>
      DefaultCode(k) == Some(APPLICATION_ERROR)
  {
    BaseCodes();
    ApplicationErrors(k);
  }

  /** The codes the base classes read: only `ApplicationError` declares one. */
  lemma BaseCodes()
    ensures DefaultCode(AppError).None? && DefaultCode(TemplateAppError).None?
    ensures DefaultCode(DomainError).None? && DefaultCode(ApplicationError) == Some(APPLICATION_ERROR)
  {
    assert DefaultCode(TemplateAppError) == DefaultCode(AppError);
  }

  /** Every kind is an `AppError`, and all but `AppError` itself are `TemplateAppError`s. */
  lemma {:induction false} AllAppErrors(k: Kind)
    ensures IsSubclass(k, AppError)
    ensures k != AppError ==> IsSubclass(k, TemplateAppError)
    decreases Depth(k)
  {
    if k != AppError {
      AllAppErrors(Parent(k).value);
    }
  }

  /** The kinds below `DomainError` are exactly the domain validation kinds and `DomainError` itself. */
  lemma {:induction false} DomainErrors(k: Kind)
    ensures IsSubclass(k, DomainError) <==> k == DomainError || IsDomainValidation(k)
  {
    BasesApart();
    ParentCases(k);
    if k != AppError {
      assert IsSubclass(k, DomainError) == (k == DomainError || IsSubclass(Parent(k).value, DomainError));
    }
  }

  /** Every parent is one of four classes; the domain validation kinds are the children of `DomainError`. */
  lemma ParentCases(k: Kind)
    ensures k != AppError ==>
      var p := Parent(k).value;
      p == AppError || p == TemplateAppError || p == ApplicationError || p == DomainError
    ensures Parent(k) == Some(DomainError) <==> IsDomainValidation(k)
    ensures Parent(k) == Some(ApplicationError) <==>
      k == EntityNotFoundError || k == DuplicateEntityError || k == DatabaseTimedOutError || k == DatabaseError
      || k == UseCaseError
  {
  }

  /** The roots of the hierarchy and the three layer bases lie below none of the layer bases but their own. */
  lemma BasesApart()
    ensures !IsSubclass(AppError, DomainError) && !IsSubclass(TemplateAppError, DomainError)
    ensures !IsSubclass(AppError, ApplicationError) && !IsSubclass(TemplateAppError, ApplicationError)
    ensures !IsSubclass(AppError, InfrastructureException) && !IsSubclass(TemplateAppError, InfrastructureException)
    ensures !IsSubclass(DomainError, ApplicationError) && !IsSubclass(DomainError, InfrastructureException)
    ensures !IsSubclass(ApplicationError, DomainError) && !IsSubclass(ApplicationError, InfrastructureException)
  {
    assert !IsSubclass(AppError, DomainError);
    assert !IsSubclass(AppError, ApplicationError);
    assert !IsSubclass(AppError, InfrastructureException);
  }

  /** The kinds below `ApplicationError` are exactly the application layer's kinds. */
  lemma {:induction false} ApplicationErrors(k: Kind)
    ensures IsSubclass(k, ApplicationError) <==>
      k in {ApplicationError, EntityNotFoundError, DuplicateEntityError, DatabaseTimedOutError, DatabaseError, UseCaseError}
  {
    BasesApart();
    ParentCases(k);
    if k != AppError {
      assert IsSubclass(k, ApplicationError) == (k == ApplicationError || IsSubclass(Parent(k).value, ApplicationError));
    }
  }

  /** Nothing derives from `InfrastructureException`, and it is neither an application nor a domain error. */
  lemma {:induction false} InfrastructureIsApart(k: Kind)
    ensures IsSubclass(k, InfrastructureException) <==> k == InfrastructureException
    ensures !IsSubclass(InfrastructureException, DomainError) && !IsSubclass(InfrastructureException, ApplicationError)
  {
    BasesApart();
    ParentCases(k);
    if k != AppError {
      assert IsSubclass(k, InfrastructureException)
        == (k == InfrastructureException || IsSubclass(Parent(k).value, InfrastructureException));
    }
    assert Parent(InfrastructureException) == Some(TemplateAppError);
  }

}
