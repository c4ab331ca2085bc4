# Error pipeline and value validation of the FastAPI user backend

This project models the part of the backend that decides what an error *is*, and what the client sees of it. It covers:

- **The exception hierarchy.** `AppError` and `TemplateAppError` take a message or a default, or fill a `MESSAGE_TEMPLATE` from keyword arguments with `str.format`. Under them sit the domain, shared-validation, application and infrastructure branches, together with their `DEFAULT_MESSAGE`/`DEFAULT_CODE` class attributes.
- **The value objects.** These are the type, sign, stripped-length and e-mail-format checks of `BaseVo`, `PositiveIntVo`, `StrWithSizeVo` and the user value objects, and the exception each check raises, one of the eight validation classes of `shared/exceptions.py`.
- **The `ValidatedField` descriptor.** It guards each slot of the `UserEntity`. The entity's constructor is modelled field by field, together with its `id` setter.
- **The storage decorator `handle_db_errors`.** It classifies SQLAlchemy failures into infrastructure errors. That includes the regular expression that pulls a duplicate key out of a PostgreSQL message.
- **The use cases' `handle_db_errors` decorator.** It passes application and domain errors through, remaps infrastructure errors by code and wraps everything else as `UseCaseError`.
- **The API-level `ExceptionHandler`.** It picks the status, headers and JSON envelope for each error.
- **The bearer-token extraction of `GetCurrentUserService`.** It also pulls the token subject out of the verified payload.
- **The persistence mapper of the user entity, the output mapper `entity_to_output_dto`, and the `get by id` use case.** These tie the pieces above together.

Pure Python logic becomes datatypes, functions and lemmas. The objects whose attributes the source changes become classes:

- the descriptor and the instance dict it writes to;
- the user entity, with its `_id`, credentials, timestamps and profile set step by step;
- the exception handler with its registry;
- the trace context.

Their methods are proved against the functions that specify them.

Python values are modelled by the `PyValue` datatype: None, bool, int, str, datetime, UUID and value-object instances. Exceptions are modelled by `Exc`, either an application exception of a known class or a foreign one such as `KeyError` or `AttributeError`. Text operations (`strip`, `split`, `lower`, `capitalize`, `str.format`) are written out over `seq<char>`.

## Model

Proof helpers carry no row. They are:

- `Templates.PlaceholdersCons`, `Templates.FillLit` and `Templates.FillHole`;
- `AppErrors.FieldZeroText`;
- `StorageErrors.NewlineInside`, `StorageErrors.MatchesAreBounded`, `StorageErrors.GroupsMatch` and `StorageErrors.NoMatchAnywhere`;
- `BearerAuth.WordThenSpace`, `BearerAuth.WordsAfterWord` and `BearerAuth.SplitWsTrailing`;
- `GetUserById.NotFoundLead` and `GetUserById.Associative`.

The rows whose member names a single input (`AppErrors.CapitalizeExample`, `AppErrors.FieldZeroExample`, `ValueObjects.EmailExample`, `StorageErrors.DuplicateEmailExample`) are worked instances of the general lemmas beside them.

| member | source | states |
|---|---|---|
| Templates.FillRules | backend/src/base_exceptions.py:66 | `str.format` over the template's keyword map succeeds exactly when every placeholder has a key. A failure names a placeholder that has no key. A success is at least as long as the template's literal text. |
| Templates.FillSelfNames | backend/src/base_exceptions.py:64-68 | Filling every placeholder with its own braced spelling gives back the raw template. So the unformatted template is the same text the filling would give. |
| Templates.FillReadsOnlyPlaceholders | backend/src/base_exceptions.py:66 | Keys that no placeholder names do not change the filled message. |
| Templates.FillBetween | backend/src/base_exceptions.py:66 | A template of one placeholder between two literals fills to the literals around `str` of the placeholder's value. |
| Errors.Parent | backend/src/apps/base_apps_exception.py:5-81 | Only the root `AppError` has no base class. Every other class's base is one step closer to the root. |
| Errors.DefaultMessage | backend/src/base_exceptions.py:14-24 | The message a class falls back to is never empty. It is the class's own `DEFAULT_MESSAGE` where the class declares one. |
| Errors.DeclaredTemplatesHaveText | backend/src/shared/exceptions.py:3-59 | Every declared `MESSAGE_TEMPLATE` has non-empty literal text. |
| Errors.OwnTemplateHasText | backend/src/shared/exceptions.py:3-59 | Each template a class body declares opens with literal text, or with one placeholder and then literal text. |
| Errors.RawTemplateHasText | backend/src/base_exceptions.py:64-69 | The unformatted template, used when no keywords are given, is never empty. |
| Errors.FilledTemplateHasText | backend/src/base_exceptions.py:66 | A filled template is never empty. |
| Errors.ExcStr | backend/src/base_exceptions.py:30-34 | `__str__` is the message alone, or the message followed by ` (caused by <context>)` when a context is present. |
| Errors.NewErrorStored | backend/src/base_exceptions.py:16-70 | A constructed error keeps its class, code, details and cause, and its message is never empty. Construction fails only with `KeyError` or `TypeError`. |
| Errors.SettledMessage | backend/src/base_exceptions.py:24 | `message or DEFAULT_MESSAGE`: a non-empty message is kept, and a missing or empty one becomes the class default. The result is never empty. |
| Errors.NewErrorUnfold | backend/src/base_exceptions.py:24-70 | The constructor succeeds with the settled message exactly when the template step succeeds, and otherwise raises the template step's error. |
| Errors.NewErrorDefaulted | backend/src/base_exceptions.py:24 | An explicit message is kept unless it is empty, when the default replaces it. With neither a message nor a template, the default is used and the keywords are ignored. |
| Errors.AppErrorRefusesKeywords | backend/src/base_exceptions.py:16 | A plain `AppError` given keywords raises `TypeError`, since its constructor takes none. |
| Errors.NewErrorRaw | backend/src/base_exceptions.py:64-69 | With no message and no keywords, the message is the raw template text. |
| Errors.NewErrorMissingKey | backend/src/base_exceptions.py:66 | Keywords that lack a placeholder of the template raise the `KeyError` of a placeholder with no key. |
| Errors.TemplateMessageFails | backend/src/base_exceptions.py:64-69 | The template step fails only for a templated class given keywords and no message, and then with the `KeyError` of the fill. |
| Errors.TemplateMessageFilled | backend/src/base_exceptions.py:64-67 | With keywords and no message, the template step yields the filled template, or the `KeyError` of the fill. |
| Errors.TemplateMessageRaw | backend/src/base_exceptions.py:64-69 | With neither keywords nor a message, the template step yields the raw template. |
| Errors.FilledMessage | backend/src/base_exceptions.py:64-67 | When the keywords cover the template, the new error's message is the filled template. |
| Errors.DefaultCodes | backend/src/shared/domain/exceptions.py:6-105 | The shared validation classes have no code. The domain validation classes have `VALIDATION_ERROR`, except the id-hash error, which has none. Application classes have `APPLICATION_ERROR`, except the two database errors. |
| Errors.ValidationCodes | backend/src/shared/domain/exceptions.py:6-105 | The shared validation classes have no code. The domain validation classes have `VALIDATION_ERROR`, except the id-hash error, which declares none and inherits none. |
| Errors.ApplicationCodes | backend/src/apps/base_apps_exception.py:5-96 | Every application class other than the two database errors has `APPLICATION_ERROR`. |
| Errors.BaseCodes | backend/src/apps/base_apps_exception.py:8 | `AppError`, `TemplateAppError` and `DomainError` have no code, and `ApplicationError` has `APPLICATION_ERROR`. |
| Errors.AllAppErrors | backend/src/base_exceptions.py:37 | Every modelled class derives from `AppError`. Every class other than `AppError` derives from `TemplateAppError`. |
| Errors.DomainErrors | backend/src/domain/base_domain_exception.py:4-8 | A class is a `DomainError` exactly when it is `DomainError` itself or one of the domain validation classes. |
| Errors.ApplicationErrors | backend/src/apps/base_apps_exception.py:5-81 | A class is an `ApplicationError` exactly when it is `ApplicationError` itself or one of its five subclasses. |
| Errors.InfrastructureIsApart | backend/src/data_access/base_data_access_exceptions.py:4-7 | Only `InfrastructureException` itself is an `InfrastructureException`. It is neither a domain error nor an application error. |
| Errors.ParentCases | backend/src/apps/base_apps_exception.py:5-78 | Every class but `AppError` has `AppError`, `TemplateAppError`, `ApplicationError` or `DomainError` as its parent. The direct children of `DomainError` are exactly the domain validation classes, and those of `ApplicationError` exactly the five application classes. |
| Errors.BasesApart | backend/src/domain/base_domain_exception.py:4 | None of the bases `AppError`, `TemplateAppError`, `DomainError` and `ApplicationError` lies below another layer's base. |
| AppErrors.ForEntity | backend/src/apps/base_apps_exception.py:17-61 | `for_entity` on a non-str entity name raises the `AttributeError` of `capitalize`. Otherwise it builds `<Capitalized> with <field>=<value> not found`, or `already exists` for a duplicate, carrying the given code, details and context. |
| AppErrors.EntityTemplateFill | backend/src/apps/base_apps_exception.py:15-41 | The two entity templates have exactly the placeholders `entity` and `criteria`. Filling them gives `<entity> with <criteria> not found` or `already exists`. |
| AppErrors.EntityTemplateShape | backend/src/apps/base_apps_exception.py:15-41 | The not-found and duplicate templates are an entity placeholder, " with ", a criteria placeholder and the class's suffix. |
| AppErrors.FillEntityShape | backend/src/apps/base_apps_exception.py:27-31 | That shape fills to the entity, " with ", the criteria and the suffix. |
| AppErrors.ForUseCase | backend/src/apps/base_apps_exception.py:81-96 | `for_use_case` gives `Use case failed: <name>`, with the code, details and context passed in. |
| AppErrors.UseCaseFill | backend/src/apps/base_apps_exception.py:81-92 | The use-case template fills to "Use case failed: " followed by the use case's name. |
| AppErrors.BareDefaults | backend/src/apps/base_apps_exception.py:9-75 | Built with no arguments, `ApplicationError`, `DatabaseTimedOutError`, `DatabaseError`, `DomainError`, `InfrastructureException` and `AppError` carry their own default messages, spelled out. |
| AppErrors.BareDefault | backend/src/base_exceptions.py:24 | A class without a template, built with no arguments, carries its default message and nothing else. |
| AppErrors.BaseClassAttributes | backend/src/apps/base_apps_exception.py:5-75 | The base and database classes declare no template, and their default messages are the declared texts. |
| AppErrors.NoTemplateIgnoresKeywords | backend/src/domain/base_domain_exception.py:4-8 | A class without a template ignores its keyword arguments and uses its default message. |
| AppErrors.CapitalizeExample | backend/src/apps/base_apps_exception.py:29 | `"user".capitalize()` is `"User"`. |
| AppErrors.FieldZeroExample | backend/src/shared/exceptions.py:21-24 | `FieldZeroError` with `attr_name="x"` reads `Field 'x' cannot be zero`. |
| AppErrors.FieldZeroFill | backend/src/shared/exceptions.py:21-24 | The field-zero template fills to "Field '", the name and "' cannot be zero". |
| ValueObjects.NoPlainClassVars | backend/src/domain/user/value_objects.py:38-39 | No value-object class declares a bound under a name without a leading underscore. |
| ValueObjects.RootsAgree | backend/src/shared/value_objects.py:84-174 | Every value-object class descends from a root with no base. The sized classes are exactly the subclasses of `StrWithSizeVo`. |
| ValueObjects.TypeCheck | backend/src/shared/value_objects.py:38-46 | The type check passes exactly when the value has its root's type. Otherwise it raises `InvalidTypeError` naming the expected type, the attribute and the value. |
| ValueObjects.SignCheck | backend/src/shared/value_objects.py:86-100 | A positive int passes. A negative one raises `FieldNegativeError` with the value, and zero raises `FieldZeroError`. |
| ValueObjects.SizeCheck | backend/src/shared/value_objects.py:237-260 | The stripped length must lie within the declared bounds. Too short is reported before too long, each with its bound and the measured length. |
| ValueObjects.TypeCheckWellFormed | backend/src/shared/value_objects.py:38-46 | The type check's error has every keyword its template needs. |
| ValueObjects.SignCheckWellFormed | backend/src/shared/value_objects.py:86-100 | The sign check's error has every keyword its template needs. |
| ValueObjects.TooShortWellFormed | backend/src/shared/value_objects.py:241-252 | The too-short error has every keyword its template needs. |
| ValueObjects.TooLongWellFormed | backend/src/shared/value_objects.py:253-260 | The too-long error has every keyword its template needs. |
| ValueObjects.SizeCheckWellFormed | backend/src/shared/value_objects.py:237-260 | The size check's error has every keyword its template needs. |
| ValueObjects.FormatErrorWellFormed | backend/src/domain/user/value_objects.py:156-185 | The e-mail format errors have every keyword their template needs. |
| ValueObjects.EmailFormat | backend/src/domain/user/value_objects.py:156-185 | The first format step passes exactly when the address has one `@` with non-empty parts and a dotted domain. A missing `@` gives its own message. |
| ValueObjects.LocalRules | backend/src/domain/user/value_objects.py:197-212 | The local part must neither start nor end with a dot, nor contain two dots in a row. |
| ValueObjects.Construct | backend/src/shared/value_objects.py:31-260 | A value object is built exactly when every check passes. The checks run in order: type, then sign or size, then e-mail format. The first failing check decides the violation. |
| ValueObjects.RaiseWellFormed | backend/src/base_exceptions.py:64-67 | Raising a violation with all its keys gives an exception of that class whose message is the filled template, with no code and no context. |
| ValueObjects.ConstructViolationsWellFormed | backend/src/shared/value_objects.py:241-260 | Every violation a check reports supplies all its template's placeholders, so raising it never hits `KeyError`. |
| ValueObjects.ConstructErrorKinds | backend/src/shared/value_objects.py:31-260 | Every refusal of a value object is one of the shared module's validation classes. |
| ValueObjects.Instantiate | backend/src/shared/value_objects.py:5-11 | Instantiation succeeds exactly when the checks pass. A failure is a shared-validation exception, with no code and no context. |
| ValueObjects.UnsizedInstantiate | backend/src/shared/value_objects.py:5-46 | A value object with only a type check is built exactly as the type check allows. |
| ValueObjects.SizeOnlyChecks | backend/src/domain/user/value_objects.py:38-128 | A password or a name is accepted exactly when its size check passes. |
| ValueObjects.EmailAcceptedShape | backend/src/domain/user/value_objects.py:214-242 | An accepted address is its local part, `@` and its domain, and both parts obey the rules. |
| ValueObjects.EmailAcceptsWellFormed | backend/src/domain/user/value_objects.py:156-212 | Conversely, any well-formed local part and domain joined by `@` is accepted and splits back into the same parts. |
| ValueObjects.EmailExample | backend/src/domain/user/value_objects.py:223-240 | `user@example.com` is accepted, with local part `user` and domain `example.com`. |
| ValueObjects.BoundsAsWritten | backend/src/shared/value_objects.py:204-218 | As written, the lookup of `MIN_SIZE`/`MAX_SIZE` finds no bound on any class. |
| ValueObjects.BoundsIgnoredAsWritten | backend/src/domain/user/value_objects.py:38-39 | As written, any string is a valid password, first name or last name. |
| ValueObjects.EmptyPasswordAsWritten | backend/src/domain/user/value_objects.py:38-39 | As written, the empty password is accepted. |
| ValueObjects.IntendedClassVars | backend/src/domain/user/value_objects.py:38-128 | With the lookup reading the underscore names, each user class finds the bounds it declares. |
| ValueObjects.IntendedBounds | backend/src/shared/value_objects.py:238-260 | With the intended lookup, a password is accepted exactly when its stripped length is within 5 to 15. A name is accepted exactly when its stripped length is at most 30. |
| ValueObjects.TooShortTakesPrecedence | backend/src/shared/value_objects.py:241-252 | A string shorter than its minimum gets the too-short violation, whatever its maximum says. |
| ValueObjects.EmailTypeFirst | backend/src/domain/user/value_objects.py:139-141 | A non-str e-mail fails the type check before any other check. |
| ValueObjects.EmailSizeBeforeFormat | backend/src/domain/user/value_objects.py:139-141 | With the corrected bound lookup, a one-character e-mail is refused as too short, before its format is looked at. |
| ValueObjects.EmailFormatAsWritten | backend/src/shared/value_objects.py:204-218 | With the lookup as written no bound is found, so the one-character e-mail `a` reaches the format check and fails there, for want of `@`. |
| ValueObjects.PositiveInts | backend/src/shared/value_objects.py:84-100 | `PositiveIntVo` accepts exactly the positive ints. That includes `True`, since bool is an int subclass. Zero gives `FieldZeroError`. |
| StorageErrors.Search | backend/src/data_access/handle_err.py:41 | `re.search` of the `Key (field)=(value)` pattern gives the groups of the match at the leftmost position where the pattern matches, and nothing exactly when it matches at no position. |
| StorageErrors.SearchFrom | backend/src/data_access/handle_err.py:41 | Scanning from a position finds the first position at or after it where the pattern matches, with that position's match. No position in between matches. Nothing is found only when no position from there on matches. |
| StorageErrors.MatchAt | backend/src/data_access/handle_err.py:41 | A match at a position reads `Key (`, the column, `)=(`, the value and `) already exists` there, with no line break in either group. The column group is the shortest of any match there, and for that column the value group is the shortest, as the lazy `.*?` groups choose. There is no match exactly when the pattern matches there with no groups at all. |
| StorageErrors.Group1 | backend/src/data_access/handle_err.py:41 | A column group that is found stays on its line and ends at a `)=(` that a value ending in `) already exists` follows on the same line. |
| StorageErrors.Group2 | backend/src/data_access/handle_err.py:41 | A value group that is found stays on its line and ends where `) already exists` starts. |
| StorageErrors.Group2Least | backend/src/data_access/handle_err.py:41 | The value group ends at the first `) already exists` on the line. When none is found, none follows on that line. |
| StorageErrors.Group1Least | backend/src/data_access/handle_err.py:41 | The column group ends at the first `)=(` after which a value group closes. When none is found, no such `)=(` follows on the line. |
| StorageErrors.Group1Found | backend/src/data_access/handle_err.py:41 | The value group of the match the column group finds is the value group scanned from its `)=(`. |
| StorageErrors.MatchIsBounded | backend/src/data_access/handle_err.py:41 | Against any match at a position, the scan finds a match there, with a column group no longer and, for an equal column, a value group no longer. |
| StorageErrors.Group1Scans | backend/src/data_access/handle_err.py:41 | With no `)` or line break before them, the column group ends at the given `)=(` and `)`. |
| StorageErrors.Group2Scans | backend/src/data_access/handle_err.py:41 | With no `)` or line break before it, the value group ends at the given `)`. |
| StorageErrors.SearchSkips | backend/src/data_access/handle_err.py:41 | A prefix without `Key (` holds no match, so the search lands where the key text starts. |
| StorageErrors.KeyTextAt | backend/src/data_access/handle_err.py:41 | The pieces `Key (`, column, `)=(`, value and `)` in sequence are the key text. |
| StorageErrors.KeyTextPieces | backend/src/data_access/handle_err.py:41 | The key text at a position holds its column and value at their offsets. |
| StorageErrors.MatchAtKey | backend/src/data_access/handle_err.py:41 | At the start of `Key (f)=(v)`, where neither `f` nor `v` holds `)` or a newline, the pattern matches with groups `f` and `v`. |
| StorageErrors.SearchFinds | backend/src/data_access/handle_err.py:41-44 | A message holding such a key, with no earlier `Key (`, yields that field and value. |
| StorageErrors.SearchMisses | backend/src/data_access/handle_err.py:41-44 | Text that does not contain `Key (` has no match. |
| StorageErrors.EntityNameOfRepository | backend/src/data_access/handle_err.py:25 | The entity name is the class name with `Repository` removed. |
| StorageErrors.UserRepositoryEntity | backend/src/data_access/handle_err.py:25 | `UserRepository` names the entity `User`. |
| StorageErrors.DuplicateKey | backend/src/data_access/handle_err.py:36-44 | The duplicate's field and value come from the match, or are `unknown` when there is no match. |
| StorageErrors.Infrastructure | backend/src/data_access/handle_err.py:48-60 | The infrastructure error carries the given message, code and details, with the original error as context. |
| StorageErrors.Classify | backend/src/data_access/handle_err.py:32-89 | A unique violation gives `DUPLICATE_ENTITY`, with `<entity> with unique <field> already exists` and the parsed identifier and value. Another integrity error gives `DATA_INTEGRITY_ERROR`. A timed-out operational error gives `DATABASE_TIMEOUT`. Any other error gives `DATABASE_ERROR`, with its error type. Each carries the entity, the operation and the original error. |
| StorageErrors.HandleDbErrors | backend/src/data_access/handle_err.py:15-91 | The decorator returns a success unchanged, classifies a SQLAlchemy failure and re-raises any other failure unchanged. |
| StorageErrors.NoDoubleWrap | backend/src/data_access/handle_err.py:29-89 | An error the decorator raised is not a SQLAlchemy error, so a second decorator passes it through. |
| StorageErrors.ClassifiedCodes | backend/src/data_access/handle_err.py:48-89 | Every classified error has one of the four storage codes. |
| StorageErrors.DuplicateEmailExample | backend/src/data_access/handle_err.py:41-44 | The PostgreSQL detail `Key (email)=(a@b.com) already exists` gives field `email` and value `a@b.com`. |
| StorageErrors.EmailKeyText | backend/src/data_access/handle_err.py:41-44 | The key text for column `email` and value `a@b.com` is the PostgreSQL detail line. |
| StorageErrors.DuplicateWithoutDetail | backend/src/data_access/handle_err.py:36-47 | A unique violation with no key in its text is classified with field and value `unknown`. |
| UseCaseBoundary.ErrMapper | backend/src/apps/exception_handler.py:19-24 | The remap table knows exactly the four storage codes. A duplicate goes to `for_entity`, a timeout to `DatabaseTimedOutError`, and the other two to `DatabaseError`. |
| UseCaseBoundary.DetailsOrEmpty | backend/src/apps/exception_handler.py:44 | `e.details or {}` gives the details when set. It gives an empty dict when they are `None`, and raises `AttributeError` when the attribute was never set. |
| UseCaseBoundary.Remap | backend/src/apps/exception_handler.py:43-67 | Missing `details` or `code` attributes raise `AttributeError`. An unknown code ends by calling `None`, which raises `TypeError`. A mapped class other than the duplicate has its default message, no code, the entity and operation as details, and the infrastructure error as context. |
| UseCaseBoundary.Translate | backend/src/apps/exception_handler.py:27-85 | The translator returns a success unchanged, passes application and domain errors through, and remaps infrastructure errors. It re-raises `SystemExit` and `KeyboardInterrupt`. Anything else becomes `Use case failed: <class>`, with `USE_CASE_ERROR`, the operation as details and the original as context. |
| UseCaseBoundary.ValueObjectErrorsBecomeUseCaseErrors | backend/src/apps/exception_handler.py:74-83 | A shared-validation error raised in a use case becomes a `UseCaseError` whose context is that error. |
| UseCaseBoundary.DomainErrorsPassThrough | backend/src/apps/exception_handler.py:39-40 | A domain error leaves the use case unchanged. |
| UseCaseBoundary.ClassifiedFailuresAreMapped | backend/src/apps/exception_handler.py:52-67 | Every error the storage decorator classifies is remapped. Duplicate becomes `DuplicateEntityError`, timeout `DatabaseTimedOutError`, and the other two `DatabaseError`, each with the classified error as context. |
| UseCaseBoundary.InfrastructureRemapped | backend/src/apps/exception_handler.py:43-67 | An `InfrastructureException` is handed to the remapping, not passed through or wrapped. |
| UseCaseBoundary.RemapClassified | backend/src/apps/exception_handler.py:43-67 | An error with details and a mapped code is remapped to the code's class, caused by the original. |
| UseCaseBoundary.DuplicateDetails | backend/src/data_access/handle_err.py:46-53 | A classified duplicate's details hold the field and the value. |
| UseCaseBoundary.RemapDuplicate | backend/src/apps/exception_handler.py:54-64 | A duplicate infrastructure error is remapped to `DuplicateEntityError`. Its message is `<Entity> with <field>=<value> already exists`, and it keeps the code, the details and the error as context. |
| UseCaseBoundary.DuplicateDetailsKept | backend/src/apps/exception_handler.py:44-56 | The remapped duplicate's details keep the entity, operation, identifier and stringified value. |
| UseCaseBoundary.DuplicateMessage | backend/src/apps/base_apps_exception.py:41-57 | The duplicate's message is the capitalised entity, " with ", the criteria and " already exists". |
| UseCaseBoundary.DuplicateRemapped | backend/src/apps/exception_handler.py:54-64 | A unique violation classified by the decorator reaches the caller as `<Entity> with <field>=<value> already exists`, with `DUPLICATE_ENTITY` and the parsed details. |
| UseCaseBoundary.UnmappedCodeFails | backend/src/apps/exception_handler.py:52-67 | An infrastructure error whose code is missing from the table ends in the `TypeError` of calling `None`. |
| Responses.Render | backend/src/api/exception_handlers.py:86-117 | The status is the registered one for the error's class, or 500, and the headers likewise. A 500 says only `Internal server error`. Any other status shows the error's code, message and details. The trace id is always present. |
| Responses.ExceptionHandler.constructor | backend/src/api/exception_handlers.py:38-84 | The handler starts with the status table and the headers table. |
| Responses.ExceptionHandler.Handle | backend/src/api/exception_handlers.py:86-117 | Handling returns the rendered response for the registry and the current trace id, and changes nothing. |
| Responses.TraceContext.constructor | backend/src/api/exception_handlers.py:34 | The trace context starts unset. |
| Responses.GlobalExceptionHandler | backend/src/api/exception_handlers.py:124-126 | The global handler stores a fresh trace id in the context and answers with the default handler's rendering for that id. |
| Responses.StatusByKind | backend/src/api/exception_handlers.py:39-76 | Domain validation and password errors, `ApplicationError` and `DomainError` give 400. Not-found gives 404, duplicate 409 and timeout 503. `DatabaseError` and `UseCaseError` give 500. Exactly the base classes, the shared validation classes and the id-hash error are unregistered. |
| Responses.ListedStatuses | backend/src/api/exception_handlers.py:39-76 | The status each registered class of the taxonomy is given. |
| Responses.UnlistedKinds | backend/src/api/exception_handlers.py:39-76 | Exactly the base classes, the shared validation classes and the id-hash error are unregistered. |
| Responses.OnlyTimeoutHasHeaders | backend/src/api/exception_handlers.py:79-91 | Only `DatabaseTimedOutError` responses carry headers, and those are the retry headers. |
| Responses.ShownWithoutHeaders | backend/src/api/exception_handlers.py:86-117 | A registered error other than the timeout whose status is not 500 shows its code, message and details, with no headers. |
| Responses.TimeoutShown | backend/src/api/exception_handlers.py:79-117 | A timeout without a code is a 503 with the retry headers and its class name as code. |
| Responses.ValueObjectErrorsHidden | backend/src/api/exception_handlers.py:17-28 | An error a value object raises is not registered, so it renders as a masked 500. |
| Responses.CorrectedValueObjectErrorsShown | backend/src/api/exception_handlers.py:43-49 | With the shared classes registered, a value-object error renders as 400 and shows its code, message and details. |
| Responses.AddedKeys | backend/src/api/exception_handlers.py:43-49 | The corrected table adds exactly the shared validation classes other than the id-hash error. |
| Responses.CorrectedAgreesElsewhere | backend/src/api/exception_handlers.py:39-76 | The corrected registry renders every other error as the original does. |
| Descriptors.SetCheck | backend/src/shared/decriptor.py:49-57 | A value is refused exactly when it is not acceptable: `None` on a non-nullable field, or the wrong type. |
| Descriptors.SetCheckRefusals | backend/src/shared/decriptor.py:50-57 | `None` gives the `ValueError` and the wrong type gives the `TypeError`, each with the field's message. |
| Descriptors.Load | backend/src/shared/decriptor.py:40-47 | A get fails exactly when the slot is unset on a non-nullable field, with the not-initialised `AttributeError`. |
| Descriptors.StoreThenLoad | backend/src/shared/decriptor.py:47-59 | After a successful set, a get returns the value set. |
| Descriptors.StoreKeepsOthers | backend/src/shared/decriptor.py:38-59 | A set does not change what a field with another name reads. |
| Descriptors.LoadUnset | backend/src/shared/decriptor.py:44-47 | An unset nullable field reads `None`, and an unset non-nullable one raises `AttributeError`. |
| Descriptors.TypeCheckedEvenIfNullable | backend/src/shared/decriptor.py:53-57 | The type check is applied whether or not the field is nullable. |
| Descriptors.ValidatedField.constructor | backend/src/shared/decriptor.py:26-30 | A new descriptor keeps its type and nullability, and has no name yet. |
| Descriptors.Instance.constructor | backend/src/domain/user/entity.py:27-38 | A new instance has an empty attribute dict, so no slot is set. |
| Descriptors.ValidatedField.SetName | backend/src/shared/decriptor.py:32-38 | Naming a descriptor records the field name and its underscore slot. |
| Descriptors.ValidatedField.Get | backend/src/shared/decriptor.py:40-47 | Access through the class gives the descriptor itself. Access through an instance gives what `Load` says. |
| Descriptors.ValidatedField.Set | backend/src/shared/decriptor.py:49-59 | The method raises what `SetCheck` says. Otherwise the instance dict becomes what `Store` says; a refused set leaves it unchanged. |
| UserEntities.SlotNames | backend/src/domain/user/entity.py:18-25 | Each of the eight descriptor fields stores into its name with a leading underscore. |
| UserEntities.CreatedDefault | backend/src/domain/user/entity.py:41 | A falsy `created_at` becomes `UserCreatedAtVo(now)`, and a truthy one is kept. |
| UserEntities.UpdatedDefault | backend/src/domain/user/entity.py:42 | A truthy `updated_at` is kept. A falsy one becomes `UserUpdatedAtVo` of the creation time's value, and fails with that value object's error when the value is not a datetime. |
| UserEntities.IdDefault | backend/src/domain/user/entity.py:47 | A falsy `id` becomes `UserIdVo` of a fresh UUID, and a truthy one is kept. |
| UserEntities.CredentialsStage | backend/src/domain/user/entity.py:39-40 | E-mail, then password, are set through their descriptors. The first refusal stops the stage. |
| UserEntities.CreatedAtStage | backend/src/domain/user/entity.py:41 | The creation time, given or defaulted to now, is set when its descriptor accepts it, and otherwise the descriptor's refusal is raised. |
| UserEntities.UpdatedAtStage | backend/src/domain/user/entity.py:42 | The update time, given or defaulted from the creation time, is set when accepted. Otherwise the descriptor's refusal, or the default's construction error, is raised. |
| UserEntities.TimestampsStage | backend/src/domain/user/entity.py:41-42 | The defaulted creation and update times are set through their descriptors, and each refusal is the first failing check. |
| UserEntities.NamesStage | backend/src/domain/user/entity.py:43-44 | Both names are set when accepted, and the first refusal stops the stage. |
| UserEntities.FlagsStage | backend/src/domain/user/entity.py:45-46 | Both flags are set when accepted, and the first refusal stops the stage. |
| UserEntities.ProfileStage | backend/src/domain/user/entity.py:43-46 | The names and the two flags are set in source order, and the first refusal stops the stage. |
| UserEntities.StoreId | backend/src/domain/user/entity.py:47 | `_id` is written directly, defaulted, with no descriptor check. |
| UserEntities.InitialStateSucceeds | backend/src/domain/user/entity.py:27-47 | Construction succeeds exactly when every descriptor accepts its defaulted argument. |
| UserEntities.InitialStateContents | backend/src/domain/user/entity.py:39-47 | A constructed entity's slots hold exactly the defaulted arguments. |
| UserEntities.EntityDictStamps | backend/src/domain/user/entity.py:41-47 | On a constructed entity's dict, the timestamp fields read their slots and `_id` holds the identifier. |
| UserEntities.StagesCompose | backend/src/domain/user/entity.py:39-47 | When the three stages succeed in turn, the constructor's result is the identifier stage on their output. |
| UserEntities.CredentialsFailurePropagates | backend/src/domain/user/entity.py:39-40 | A refused credential ends the constructor with that refusal. |
| UserEntities.TimestampsFailurePropagates | backend/src/domain/user/entity.py:41-42 | A refused timestamp ends the constructor with that refusal. |
| UserEntities.ProfileFailurePropagates | backend/src/domain/user/entity.py:43-46 | A refused name or flag ends the constructor with that refusal. |
| UserEntities.EmailNoneMessage | backend/src/shared/decriptor.py:51 | The refusal of a `None` email reads "Поле 'email' не может быть None.". |
| UserEntities.DefaultArgumentsAccepted | backend/src/domain/user/entity.py:31-37 | Valid credentials with every other argument left at its default construct an entity. |
| UserEntities.FalsyArgumentsDefaulted | backend/src/domain/user/entity.py:41-47 | Falsy timestamps and id are replaced by the clock and a fresh UUID. |
| UserEntities.MissingEmailFirst | backend/src/domain/user/entity.py:39 | A `None` e-mail is refused first, with the e-mail field's `ValueError`. |
| UserEntities.NonBoolSuperuserRefused | backend/src/domain/user/entity.py:45 | A non-bool `is_superuser` is refused with a `TypeError`. |
| UserEntities.FlagsMustBeBool | backend/src/domain/user/entity.py:24-25 | With the other arguments accepted, a non-bool `is_superuser` makes construction fail with its `TypeError`. |
| UserEntities.IdSetOutcome | backend/src/domain/user/entity.py:53-67 | The `id` setter stores a `UserIdVo` exactly when the slot holds `None`. A set id raises `AttributeError`, a missing slot raises the missing-attribute error, and a wrong type raises `InvalidTypeError`. |
| UserEntities.IdSetOnce | backend/src/domain/user/entity.py:56-57 | After one successful set, every further set is refused. |
| UserEntities.ConstructedIdIsFixed | backend/src/domain/user/entity.py:47-57 | A constructed entity always has an id, so its setter always refuses. |
| UserEntities.UserEntityClass.constructor | backend/src/domain/user/entity.py:17-25 | Creating the class names each descriptor after its field. |
| UserEntities.AssignCredentials | backend/src/domain/user/entity.py:39-40 | The method raises what `StoreCredentials` raises, or adds its slots to the instance dict. |
| UserEntities.AssignField | backend/src/shared/decriptor.py:49-59 | An assignment through a descriptor either writes the private slot as `Store` does, or raises its refusal and leaves the dict unchanged. |
| UserEntities.AssignTimestamps | backend/src/domain/user/entity.py:41-42 | The method raises what `StoreTimestamps` raises, or makes the instance dict its result. |
| UserEntities.AssignCreatedAt | backend/src/domain/user/entity.py:41 | The method raises what `StoreCreatedAt` raises, or makes the instance dict its result. |
| UserEntities.AssignUpdatedAt | backend/src/domain/user/entity.py:42 | The method reads the creation time back through its descriptor, then raises what `StoreUpdatedAt` raises, or makes the instance dict its result. |
| UserEntities.AssignProfile | backend/src/domain/user/entity.py:43-46 | The method raises what `StoreProfile` raises, or makes the instance dict its result. |
| UserEntities.AssignNames | backend/src/domain/user/entity.py:43-44 | The method raises what `StoreNames` raises, or makes the instance dict its result. |
| UserEntities.AssignFlags | backend/src/domain/user/entity.py:45-46 | The method raises what `StoreFlags` raises, or makes the instance dict its result. |
| UserEntities.AssignId | backend/src/domain/user/entity.py:47 | The `_id` slot is set to the identifier or a fresh `UserIdVo`. |
| UserEntities.Init | backend/src/domain/user/entity.py:27-47 | `__init__` raises what `InitialState` raises. Otherwise it returns a fresh instance whose dict is that state. |
| UserEntities.GetId | backend/src/domain/user/entity.py:49-51 | The `id` getter returns the `_id` slot, and raises `AttributeError` when it is unset. |
| UserEntities.SetId | backend/src/domain/user/entity.py:53-67 | The `id` setter does what `IdSetOutcome` says to the instance dict. A refused set leaves the dict unchanged. |
| UserMapper.ValueOf | backend/src/data_access/mappers/user_mapper.py:18-20 | `.value` unwraps a value object, and raises `AttributeError` on anything else. |
| UserMapper.EntityDictNames | backend/src/data_access/mappers/user_mapper.py:21-22 | The first-name and last-name fields read their own slots of the entity. |
| UserMapper.EntityDictLoads | backend/src/data_access/mappers/user_mapper.py:18-24 | The fields the mapper reads return the constructed entity's arguments. |
| UserMapper.EntityToModelColumns | backend/src/data_access/mappers/user_mapper.py:16-25 | The entity maps to a row of the unwrapped values. Absent names become `None`, and the timestamps are left to the database. |
| UserMapper.EntityIdRequired | backend/src/data_access/mappers/user_mapper.py:18 | Mapping an entity without an id, or with an id that is not a value object, raises `AttributeError`. |
| UserMapper.ArgumentsBuilt | backend/src/data_access/mappers/user_mapper.py:30-38 | Rebuilding the arguments succeeds exactly when every column passes its value object. A failure is a shared-validation error. |
| UserMapper.ArgumentsRefused | backend/src/data_access/mappers/user_mapper.py:30-38 | A column that fails its value object raises a shared validation error. |
| UserMapper.ArgumentsNeedCreatedAt | backend/src/data_access/mappers/user_mapper.py:37 | Building the arguments needs a valid creation time in the row. |
| UserMapper.RebuildContents | backend/src/data_access/mappers/user_mapper.py:28-39 | A row whose columns all pass rebuilds to the entity holding those values. |
| UserMapper.RebuildFromArguments | backend/src/data_access/mappers/user_mapper.py:28-39 | Rebuilding a row is constructing the entity from the row's value objects. |
| UserMapper.RebuildRefused | backend/src/data_access/mappers/user_mapper.py:28-39 | A row whose column fails its value object raises that error. |
| UserMapper.InitialStateOfValueObjects | backend/src/domain/user/entity.py:27-47 | Given value objects of the right classes, the entity is built and holds them as given. |
| UserMapper.RoundTrip | backend/src/data_access/mappers/user_mapper.py:16-39 | Corrected mapper: saving an entity and loading its row back gives the same entity, with the database's timestamps. |
| UserMapper.RoundTripAsWritten | backend/src/data_access/mappers/user_mapper.py:34 | As written, the round trip gives the entity with the first name in the last-name slot. |
| UserMapper.LastNameLostAsWritten | backend/src/data_access/mappers/user_mapper.py:34 | As written, an entity whose last name differs from its first name does not survive the round trip. |
| UserMapper.EmptyFirstNameLoadsAsNone | backend/src/data_access/mappers/user_mapper.py:33 | An empty first-name column loads as no first name. |
| UserMapper.UnstampedRowRefused | backend/src/data_access/mappers/user_mapper.py:37 | A row without `created_at` fails to load, with a shared-validation error. |
| BearerAuth.ExtractBearerToken | backend/src/apps/user/services/get_user_service.py:10-30 | The token is found exactly when the header splits into two words and the first reads `bearer` in any case. Each other case gives its own 401. The token is the second word, non-empty and without whitespace. |
| BearerAuth.EmptyTokenNeverRaised | backend/src/apps/user/services/get_user_service.py:27-28 | The `Empty token` refusal can never be raised. |
| BearerAuth.BearerTokenRoundTrip | backend/src/apps/user/services/get_user_service.py:17-30 | `<any-case bearer><whitespace><token>` gives back the token. |
| BearerAuth.PaddingIgnored | backend/src/apps/user/services/get_user_service.py:17 | Leading and trailing whitespace does not change the token. |
| BearerAuth.TokenOfTwoWords | backend/src/apps/user/services/get_user_service.py:17-30 | A header that splits into a `bearer` scheme and a token yields that token. |
| BearerAuth.BareTokenRefused | backend/src/apps/user/services/get_user_service.py:19-20 | A single word is refused for its format. |
| BearerAuth.OtherSchemeRefused | backend/src/apps/user/services/get_user_service.py:24-25 | Two words with another scheme are refused for the scheme. |
| BearerAuth.Subject | backend/src/apps/user/services/get_user_service.py:37-41 | The user id is the payload's `sub` exactly when it is present and truthy. Otherwise the result is the invalid-payload 401. |
| BearerAuth.CurrentUserIdSteps | backend/src/apps/user/services/get_user_service.py:32-41 | The first failing step's error is the result. A success is the truthy `sub` of the verified payload. |
| BearerAuth.MissingHeaderRefusedFirst | backend/src/apps/user/services/get_user_service.py:34-35 | With no header, the result is the missing-header 401 whatever the JWT service would say. |
| PyText.Strip | backend/src/shared/value_objects.py:238 | `strip()` is no longer than its input and neither starts nor ends with whitespace. |
| PyText.StripPadded | backend/src/shared/value_objects.py:238 | `strip()` removes exactly the whitespace around the text. |
| PyText.Lower | backend/src/apps/user/services/get_user_service.py:24 | `lower()` leaves no ASCII upper-case letter, and keeps a text that has none and neither U+0130 nor U+212A. |
| PyText.Capitalize | backend/src/apps/base_apps_exception.py:29 | `capitalize()` leaves no ASCII lower-case first letter, keeps any other first character, and lower-cases the rest as `Lower` does. It is empty only for empty text. |
| PyText.Split | backend/src/domain/user/value_objects.py:163 | `split('@')` gives one more part than there are `@`, none holding `@`, and joining them back gives the text. |
| PyText.SplitAround | backend/src/domain/user/value_objects.py:163 | Two texts without `@` around one `@` split into those two texts. |
| PyText.SplitWs | backend/src/apps/user/services/get_user_service.py:17 | `split()` yields only non-empty words without whitespace. |
| PyText.SplitWsTwoWords | backend/src/apps/user/services/get_user_service.py:17 | Two words with whitespace between them split into those two words. |
| PyText.ReplaceAbsent | backend/src/data_access/handle_err.py:25 | `replace` of a pattern the text does not hold gives back the text. |
| GetUserById.NotFound | backend/src/apps/user/use_cases/get_by_id_use_case.py:18-24 | The not-found error reads `User with id=<id> not found`, with the `USER_NOT_FOUND` code. |
| GetUserById.NotFoundMade | backend/src/apps/user/use_cases/get_by_id_use_case.py:19-23 | `for_entity` on `user`, `id` and the id succeeds with that message. |
| GetUserById.ExecuteOutcomes | backend/src/apps/user/use_cases/get_by_id_use_case.py:15-26 | A found user is mapped to the output, and that is the result when the mapping succeeds. When the mapping raises a foreign error that is not `SystemExit` or `KeyboardInterrupt`, the result is a `UseCaseError` caused by it. A missing user is reported as not found. A repository error goes through the translator. |
| GetUserById.FoundUserHiddenAsWritten | backend/src/apps/user/use_cases/get_by_id_use_case.py:26 | With the mapper as written, any found user gives a `UseCaseError` caused by the mapper's error, shown as the masked 500. Once the mapper's arguments are read, that error is the `TypeError` of the missing `password`. |
| GetUserById.StoredUserHiddenAsWritten | backend/src/data_access/repositories/user_repo.py:21-25 | With the mapper as written, every stored user the repository loads gives a 500. |
| GetUserById.FoundUserReturned | backend/src/apps/user/use_cases/get_by_id_use_case.py:26 | With the corrected mapper, a found user whose fields hold value objects is returned as the output of their payloads. |
| UserDomainMapper.OutputAsWrittenFails | backend/src/domain/user/mappers.py:25-35 | The mapper as written never returns. It raises the `AttributeError` of an attribute it cannot read, or else the `TypeError` of calling `UserOutputDto` without `password`, a field with no default (backend/src/domain/user/dtos.py:18-21). |
| UserDomainMapper.OutputArgumentsFail | backend/src/domain/user/mappers.py:26-35 | Reading the mapper's arguments fails only with an `AttributeError`. |
| UserDomainMapper.OutputOfEntity | backend/src/domain/user/mappers.py:25-35 | With the password passed, an entity of value objects maps to their payloads. An absent name maps to `None`, and the flags map as stored. |
| UserDomainMapper.OutputAgreesWithRow | backend/src/domain/user/mappers.py:25-35 | When both the corrected output mapping and `entity_to_model` succeed on an entity, they agree on its id, email, password, names and flags. |
| GetUserById.NotFoundResponse | backend/src/apps/user/use_cases/get_by_id_use_case.py:18-24 | The not-found error answers 404 with its code, message and trace id, no details and no headers. |
| GetUserById.NotFoundCodeShown | backend/src/api/exception_handlers.py:98-100 | The not-found error shows the code `USER_NOT_FOUND` and no details. |
| GetUserById.RawDatabaseFailureHidden | backend/src/data_access/repositories/user_repo.py:21-25 | The undecorated repository's database failures, a timeout included, reach the client as a masked 500. |
| GetUserById.LoadValidationFailureHidden | backend/src/apps/user/use_cases/get_by_id_use_case.py:15-17 | A value-object error raised while loading becomes a `UseCaseError`, a 500. |
| GetUserById.DecoratedTimeoutRetries | backend/src/data_access/handle_err.py:62-76 | Behind a decorated repository, a timed-out query answers 503 with the retry headers and the class name as code. |
| GetUserById.DecoratedTimeoutRemapped | backend/src/apps/exception_handler.py:52-67 | Behind a decorated repository, a timed-out query reaches the caller as a `DatabaseTimedOutError` with no code and its default message. |
| GetUserById.MissingRowNotFound | backend/src/data_access/repositories/user_repo.py:21-25 | No row for the id gives the not-found error. |
| GetUserById.InvalidRowHidden | backend/src/data_access/repositories/user_repo.py:25 | A stored row that fails its checks on load ends as a `UseCaseError`, a 500. |

## Left out

- I/O and `async`: the database session, the request object and the response object are modelled as values, and coroutines as plain calls.
- JWT verification is a parameter `verify` of `BearerAuth.CurrentUserId`. Its own signature and expiry checks are not part of this model.
- The clock, `uuid4` and the trace-id `ContextVar` are parameters, as `now`, `freshUuid` and `traceId`.
- `HTTPException`: FastAPI routes it before the handler. Only its status and detail are modelled, as a foreign exception.
- `ErrorCode`: error_codes.py is not part of this model. A code is rendered by its member name.
- `code` and `details`: the base_exceptions.py shown defines neither the `code`/`details` keywords nor `ErrorDetails`, though every caller passes them. They are modelled as attributes the caller sets, unset by default.
- `str.format`: only plain `{name}` placeholders are modelled. Format specifications, attribute access, indexing and `{{` escapes are not.
- `re.search` is modelled only for the one fixed pattern the storage decorator uses. It is not a general regular-expression engine.
- `__repr__` and logging are not modelled. They do not change any outcome.
- The output mapping of the use case is a parameter `toOutput` that may fail. `UserDomainMapper` gives `entity_to_output_dto` as written and as corrected. The lemmas are stated for each.
- A partly built entity is not modelled: on a refused argument, only the exception is kept, not the half-set instance.
- Entities are attribute dicts (`map<string, PyValue>`), so attribute lookup order beyond the instance dict is not modelled.
- The size-bound attribute names are a parameter (`SizeNames`). `AsWritten` is the source's lookup and `Intended` the corrected one. The mapper and repository are proved for any choice.
- With `Intended` bounds, a stored password hash longer than 15 characters would fail `UserPasswordVo` on reload. The round-trip lemmas require every column to pass its value object, so they do not cover such rows.
- The user repository's `get_by_id` is not wrapped by the storage decorator, so a timeout there is a 500, not a 503. That is modelled as written.
- `UserRepository.save` is modelled only as far as `EntityToModel` maps the entity to a row. Session flushes are I/O.
- `UserMapper.RepositoryGetById` has no contract of its own. Its outcomes are stated by `GetUserById.MissingRowNotFound` and `GetUserById.InvalidRowHidden`.
- `BearerAuth.CurrentUserId` has no contract of its own. `BearerAuth.CurrentUserIdSteps` states its outcomes.
- `UserEntities.Payload`: reading `.value` of a non-value-object returns `None` instead of raising `AttributeError`. This is weaker than the source, but only value objects and `None` reach it.
- Template fallback: where the template cannot be filled, the code raises `KeyError` rather than falling back to the raw template. The model follows the code.
- PyText.Lower: only ASCII upper-case letters are lowered, plus U+0130 and U+212A. Python lowers every cased letter (`É` becomes `é`). The core applies `lower()` to ASCII role names and messages, but a non-ASCII text would differ.
- PyText.Capitalize: only an ASCII first letter is upper-cased, and the rest is lowered as `Lower` does. Python title-cases any first letter (`é` becomes `É`, `ß` becomes `Ss`). `for_entity` would differ for a non-ASCII entity name.
- Descriptors.ValidatedField: shared/decriptor.py:3-6 declares `class ValidatedField(T)` with `T = TypeVar("T")`. That subclasses a `TypeVar` instance, not `Generic[T]`. On the Python 3.11 or later that entity.py needs (`from datetime import UTC`), this class statement raises `TypeError`, so neither module imports. The model describes the descriptor the class body defines, as if declared over `Generic[T]`.

## Findings

| source | as written | input that shows it | evidently intended | confidence | as-written member | corrected member |
|---|---|---|---|---|---|---|
| backend/src/shared/value_objects.py:204-218 | The size check looks up `MIN_SIZE`/`MAX_SIZE`, but the user value objects declare `_MIN_SIZE`/`_MAX_SIZE` (backend/src/domain/user/value_objects.py:38-39, 127-128), so no bound is ever found. | password `""` is accepted | passwords of stripped length 5 to 15, names up to 30 | not executed | ValueObjects.EmptyPasswordAsWritten | ValueObjects.IntendedBounds |
| backend/src/api/exception_handlers.py:17-28 | The handler registers the `shared.domain.exceptions` classes, but the value objects raise the identically named `shared.exceptions` classes, which it does not know. | `InvalidTypeError` raised by `UserEmailVo(42)` | 400 showing the message | not executed | Responses.ValueObjectErrorsHidden | Responses.CorrectedValueObjectErrorsShown |
| backend/src/domain/user/mappers.py:25-35 | `entity_to_output_dto` builds `UserOutputDto` without `password`, a field with no default (backend/src/domain/user/dtos.py:18-21), so every call raises `TypeError`. | any user that `UserGetByIdUseCase.execute` finds ends as a masked 500 | the output built with every field, `password` included | not executed | GetUserById.FoundUserHiddenAsWritten | GetUserById.FoundUserReturned |
| backend/src/data_access/mappers/user_mapper.py:34 | `last_name` is rebuilt from the `first_name` column. | first name `Ann`, last name `Lee` loads last name `Ann` | `last_name` rebuilt from the `last_name` column | not executed | UserMapper.LastNameLostAsWritten | UserMapper.RoundTrip |
