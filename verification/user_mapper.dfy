/**
 * `UserModelMapper`: a user entity to its `users` row and a row back to an
 * entity, and the repository lookup that uses the second.
 *
 * An entity is its attribute dict. A row is the nine columns of
 * `UserModel`; `entity_to_model` leaves the two timestamp columns unset
 * (`None`) for the database to fill. `model_to_entity` as written builds
 * the last name from the `first_name` column; `ModelToEntity` is the
 * mapping with the `last_name` column, and only it gives a round trip.
 */
module UserMapper {
  import opened Wrappers
  import opened PyValues
  import opened Errors
  import opened ValueObjects
  import opened Descriptors
  import opened UserEntities

  /** A `UserModel` instance: its columns, in the order of the mapper's keywords. */
  datatype UserRow = UserRow(id: PyValue, email: PyValue, password: PyValue, firstName: PyValue, lastName: PyValue,
                             isSuperuser: PyValue, isActive: PyValue, createdAt: PyValue, updatedAt: PyValue)

  /** `v.value`: a value object's payload, or the `AttributeError` of anything else. */
  function ValueOf(v: PyValue): (r: Result<PyValue, Exc>)
    ensures r.Success? <==> v.PyVo?
    ensures r.Success? ==> r.value == v.value
    ensures r.Failure? ==> r.error.ForeignExc? && r.error.cls == AttributeError
  {
    if v.PyVo? then Success(v.value)
    else Failure(ForeignExc(AttributeError, "'" + TypeName(v) + "' object has no attribute 'value'"))
  }

  /** `v.value if v else None`. */
  function OptionalValueOf(v: PyValue): Result<PyValue, Exc> {
    if Truthy(v) then ValueOf(v) else Success(PyNone)
  }

  /** `entity.id`, the property reading `self._id`. */
  function EntityId(d: map<string, PyValue>): Result<PyValue, Exc> {
    if IdSlot in d then Success(d[IdSlot]) else Failure(NoIdAttribute)
  }

  /** `entity_to_model`: each attribute is read in keyword order, and the first error raised ends it. */
  function EntityToModel(d: map<string, PyValue>): Result<UserRow, Exc> {
    var id :- EntityId(d);
    var idValue :- ValueOf(id);
    var email :- Load(EmailField, d);
    var emailValue :- ValueOf(email);
    var password :- Load(PasswordField, d);
    var passwordValue :- ValueOf(password);
    // the remaining fields are nullable, so reading them never fails
    var firstName := Load(FirstNameField, d).value;
    var firstNameValue :- OptionalValueOf(firstName);
    var lastName := Load(LastNameField, d).value;
    var lastNameValue :- OptionalValueOf(lastName);
    var isSuperuser := Load(IsSuperuserField, d).value;
    var isActive := Load(IsActiveField, d).value;
    Success(UserRow(idValue, emailValue, passwordValue, firstNameValue, lastNameValue, isSuperuser, isActive, PyNone, PyNone))
  }

  /** The names an entity's `first_name` and `last_name` fields read. */
  lemma {:induction false} EntityDictNames(id: PyValue, email: PyValue, password: PyValue, createdAt: PyValue, updatedAt: PyValue,
                                           firstName: PyValue, lastName: PyValue, isSuperuser: PyValue, isActive: PyValue)
    ensures Load(FirstNameField, EntityDict(id, email, password, createdAt, updatedAt, firstName, lastName, isSuperuser, isActive))
      == Success(firstName)
    ensures Load(LastNameField, EntityDict(id, email, password, createdAt, updatedAt, firstName, lastName, isSuperuser, isActive))
      == Success(lastName)
  {
    SlotNames();
  }

  /** What each field of an entity reads, and its id. */
  lemma {:induction false} EntityDictLoads(id: PyValue, email: PyValue, password: PyValue, createdAt: PyValue, updatedAt: PyValue,
                                           firstName: PyValue, lastName: PyValue, isSuperuser: PyValue, isActive: PyValue)
    ensures var d := EntityDict(id, email, password, createdAt, updatedAt, firstName, lastName, isSuperuser, isActive);
      && EntityId(d) == Success(id)
      && Load(EmailField, d) == Success(email) && Load(PasswordField, d) == Success(password)
      && Load(FirstNameField, d) == Success(firstName) && Load(LastNameField, d) == Success(lastName)
      && Load(IsSuperuserField, d) == Success(isSuperuser) && Load(IsActiveField, d) == Success(isActive)
  {
    SlotNames();
  }

  /** An optional name as an entity holds it: `None`, or a value object of the class. */
  predicate OptionalVo(v: PyValue, c: VoClass) {
    v == PyNone || (v.PyVo? && v.cls == c)
  }

  /**
   * An entity whose id, email and password are value objects gives the row
   * of their payloads, the names' payloads or `None`, the flags as they
   * are, and no timestamps.
   */
  lemma {:induction false} EntityToModelColumns(id: PyValue, email: PyValue, password: PyValue, createdAt: PyValue,
                                                updatedAt: PyValue, firstName: PyValue, lastName: PyValue,
                                                isSuperuser: PyValue, isActive: PyValue)
    requires id.PyVo? && email.PyVo? && password.PyVo?
    requires OptionalVo(firstName, UserFirstNameVo) && OptionalVo(lastName, UserLastNameVo)
    ensures EntityToModel(EntityDict(id, email, password, createdAt, updatedAt, firstName, lastName, isSuperuser, isActive))
      == Success(UserRow(id.value, email.value, password.value, Payload(firstName), Payload(lastName),
                         isSuperuser, isActive, PyNone, PyNone))
  {
    EntityDictLoads(id, email, password, createdAt, updatedAt, firstName, lastName, isSuperuser, isActive);
  }

  /** An entity without an id, or with an id that is not a value object, has no row. */
  lemma {:induction false} EntityIdRequired(d: map<string, PyValue>)
    ensures IdSlot !in d ==> EntityToModel(d) == Failure(NoIdAttribute)
    ensures IdSlot in d && !d[IdSlot].PyVo? ==>
      EntityToModel(d).Failure? && EntityToModel(d).error.ForeignExc? && EntityToModel(d).error.cls == AttributeError
  {
  }

  /** The keyword arguments `model_to_entity` passes to `UserEntity`. */
  datatype EntityArgs = EntityArgs(id: PyValue, email: PyValue, password: PyValue, firstName: PyValue, lastName: PyValue,
                                   isSuperuser: PyValue, isActive: PyValue, createdAt: PyValue, updatedAt: PyValue)

  /**
   * The arguments of `model_to_entity`, with the last name taken from
   * `lastNameColumn`: the value objects are built in keyword order, and the
   * first error raised ends it.
   */
  function Arguments(row: UserRow, lastNameColumn: PyValue, names: SizeNames): Result<EntityArgs, Exc> {
    var id :- Instantiate(UserIdVo, row.id, names);
    var email :- Instantiate(UserEmailVo, row.email, names);
    var password :- Instantiate(UserPasswordVo, row.password, names);
    var firstName :- if Truthy(row.firstName) then Instantiate(UserFirstNameVo, row.firstName, names) else Success(PyNone);
    var lastName :- if Truthy(lastNameColumn) then Instantiate(UserLastNameVo, lastNameColumn, names) else Success(PyNone);
    var createdAt :- Instantiate(UserCreatedAtVo, row.createdAt, names);
    var updatedAt :- Instantiate(UserUpdatedAtVo, row.updatedAt, names);
    Success(EntityArgs(id, email, password, firstName, lastName, row.isSuperuser, row.isActive, createdAt, updatedAt))
  }

  /** `model_to_entity` with the last name taken from `lastNameColumn`: the arguments, then the entity. */
  function Rebuild(row: UserRow, lastNameColumn: PyValue, names: SizeNames, now: PyValue, freshUuid: PyValue)
    : Result<map<string, PyValue>, Exc>
    requires now.PyDatetime? && freshUuid.PyUuid?
  {
    var a :- Arguments(row, lastNameColumn, names);
    InitialState(a.email, a.password, a.createdAt, a.updatedAt, a.firstName, a.lastName, a.isSuperuser, a.isActive,
                 a.id, now, freshUuid)
  }

  /** Every argument is its column's value object, and a failed one raises a value-object error. */
  lemma {:induction false} ArgumentsBuilt(row: UserRow, lastNameColumn: PyValue, names: SizeNames)
    ensures Arguments(row, lastNameColumn, names).Success? <==>
      && Construct(UserIdVo, row.id, names).Success? && Construct(UserEmailVo, row.email, names).Success?
      && Construct(UserPasswordVo, row.password, names).Success?
      && (Truthy(row.firstName) ==> Construct(UserFirstNameVo, row.firstName, names).Success?)
      && (Truthy(lastNameColumn) ==> Construct(UserLastNameVo, lastNameColumn, names).Success?)
      && Construct(UserCreatedAtVo, row.createdAt, names).Success? && Construct(UserUpdatedAtVo, row.updatedAt, names).Success?
    ensures Arguments(row, lastNameColumn, names).Success? ==>
      Arguments(row, lastNameColumn, names).value
      == EntityArgs(PyVo(UserIdVo, row.id), PyVo(UserEmailVo, row.email), PyVo(UserPasswordVo, row.password),
                    NameVo(row.firstName, UserFirstNameVo), NameVo(lastNameColumn, UserLastNameVo),
                    row.isSuperuser, row.isActive, PyVo(UserCreatedAtVo, row.createdAt), PyVo(UserUpdatedAtVo, row.updatedAt))
    ensures Arguments(row, lastNameColumn, names).Failure? ==>
      Arguments(row, lastNameColumn, names).error.AppExc? && IsSharedValidation(Arguments(row, lastNameColumn, names).error.kind)
  {
  }

  /** A failed argument raises a value-object error. */
  lemma {:induction false} ArgumentsRefused(row: UserRow, lastNameColumn: PyValue, names: SizeNames)
    ensures Arguments(row, lastNameColumn, names).Failure? ==>
      Arguments(row, lastNameColumn, names).error.AppExc? && IsSharedValidation(Arguments(row, lastNameColumn, names).error.kind)
  {
    ArgumentsBuilt(row, lastNameColumn, names);
  }

  /** The arguments are built only if the created-at column builds its value object. */
  lemma {:induction false} ArgumentsNeedCreatedAt(row: UserRow, lastNameColumn: PyValue, names: SizeNames)
    ensures Arguments(row, lastNameColumn, names).Success? ==> Construct(UserCreatedAtVo, row.createdAt, names).Success?
  {
    ArgumentsBuilt(row, lastNameColumn, names);
  }

  /** `model_to_entity` as written: the last name is built from the `first_name` column. */
  function ModelToEntityAsWritten(row: UserRow, names: SizeNames, now: PyValue, freshUuid: PyValue)
    : Result<map<string, PyValue>, Exc>
    requires now.PyDatetime? && freshUuid.PyUuid?
  {
    Rebuild(row, row.firstName, names, now, freshUuid)
  }

  /** `model_to_entity` reading the `last_name` column for the last name. */
  function ModelToEntity(row: UserRow, names: SizeNames, now: PyValue, freshUuid: PyValue)
    : Result<map<string, PyValue>, Exc>
    requires now.PyDatetime? && freshUuid.PyUuid?
  {
    Rebuild(row, row.lastName, names, now, freshUuid)
  }

  /** A value object that its own class would build again from its payload. */
  predicate Rebuilds(v: PyValue, c: VoClass, names: SizeNames) {
    v.PyVo? && v.cls == c && Construct(c, v.value, names).Success?
  }

  /** An optional name that comes back from its column: `None`, or a rebuildable value object with a non-empty payload. */
  predicate NameRebuilds(v: PyValue, c: VoClass, names: SizeNames) {
    v == PyNone || (Rebuilds(v, c, names) && Truthy(v.value))
  }

  /** A flag as the entity stores it. */
  predicate IsFlag(v: PyValue) {
    v == PyNone || v.PyBool?
  }

  /** The value object of an optional name column, or `None` for an empty one. */
  function NameVo(column: PyValue, c: VoClass): PyValue {
    if Truthy(column) then PyVo(c, column) else PyNone
  }

  /**
   * A row whose columns all pass their value objects' checks gives the
   * entity holding those value objects; an empty name column gives `None`.
   */
  lemma {:induction false} RebuildContents(row: UserRow, lastNameColumn: PyValue, names: SizeNames, now: PyValue, freshUuid: PyValue)
    requires now.PyDatetime? && freshUuid.PyUuid?
    requires Construct(UserIdVo, row.id, names).Success? && Construct(UserEmailVo, row.email, names).Success?
    requires Construct(UserPasswordVo, row.password, names).Success?
    requires Truthy(row.firstName) ==> Construct(UserFirstNameVo, row.firstName, names).Success?
    requires Truthy(lastNameColumn) ==> Construct(UserLastNameVo, lastNameColumn, names).Success?
    requires Construct(UserCreatedAtVo, row.createdAt, names).Success? && Construct(UserUpdatedAtVo, row.updatedAt, names).Success?
    requires IsFlag(row.isSuperuser) && IsFlag(row.isActive)
    ensures Rebuild(row, lastNameColumn, names, now, freshUuid)
      == Success(EntityDict(PyVo(UserIdVo, row.id), PyVo(UserEmailVo, row.email), PyVo(UserPasswordVo, row.password),
                            PyVo(UserCreatedAtVo, row.createdAt), PyVo(UserUpdatedAtVo, row.updatedAt),
                            NameVo(row.firstName, UserFirstNameVo), NameVo(lastNameColumn, UserLastNameVo),
                            row.isSuperuser, row.isActive))
  {
    ArgumentsBuilt(row, lastNameColumn, names);
    RebuildFromArguments(row, lastNameColumn, names, now, freshUuid);
    InitialStateOfValueObjects(PyVo(UserIdVo, row.id), PyVo(UserEmailVo, row.email), PyVo(UserPasswordVo, row.password),
                               PyVo(UserCreatedAtVo, row.createdAt), PyVo(UserUpdatedAtVo, row.updatedAt),
                               NameVo(row.firstName, UserFirstNameVo), NameVo(lastNameColumn, UserLastNameVo),
                               row.isSuperuser, row.isActive, now, freshUuid);
  }

  /** Once the arguments are built, `model_to_entity` is the constructor on them. */
  lemma {:induction false} RebuildFromArguments(row: UserRow, lastNameColumn: PyValue, names: SizeNames, now: PyValue, freshUuid: PyValue)
    requires now.PyDatetime? && freshUuid.PyUuid?
    requires Arguments(row, lastNameColumn, names).Success?
    ensures var a := Arguments(row, lastNameColumn, names).value;
      Rebuild(row, lastNameColumn, names, now, freshUuid)
      == InitialState(a.email, a.password, a.createdAt, a.updatedAt, a.firstName, a.lastName, a.isSuperuser, a.isActive,
                      a.id, now, freshUuid)
  {
  }

  /** Value objects of the declared classes are stored as they are, none replaced by a default. */
  lemma {:induction false} InitialStateOfValueObjects(id: PyValue, email: PyValue, password: PyValue, createdAt: PyValue,
                                                      updatedAt: PyValue, firstName: PyValue, lastName: PyValue,
                                                      isSuperuser: PyValue, isActive: PyValue, now: PyValue, freshUuid: PyValue)
    requires now.PyDatetime? && freshUuid.PyUuid?
    requires id.PyVo? && id.cls == UserIdVo && email.PyVo? && email.cls == UserEmailVo
    requires password.PyVo? && password.cls == UserPasswordVo
    requires createdAt.PyVo? && createdAt.cls == UserCreatedAtVo && updatedAt.PyVo? && updatedAt.cls == UserUpdatedAtVo
    requires OptionalVo(firstName, UserFirstNameVo) && OptionalVo(lastName, UserLastNameVo)
    requires IsFlag(isSuperuser) && IsFlag(isActive)
    ensures InitialState(email, password, createdAt, updatedAt, firstName, lastName, isSuperuser, isActive, id, now, freshUuid)
      == Success(EntityDict(id, email, password, createdAt, updatedAt, firstName, lastName, isSuperuser, isActive))
  {
    assert CredentialsAccepted(email, password);
    assert TimestampsAccepted(createdAt, updatedAt, now);
    assert ProfileAccepted(firstName, lastName, isSuperuser, isActive);
    InitialStateSucceeds(email, password, createdAt, updatedAt, firstName, lastName, isSuperuser, isActive, id, now, freshUuid);
    InitialStateContents(email, password, createdAt, updatedAt, firstName, lastName, isSuperuser, isActive, id, now, freshUuid);
    assert CreatedValue(createdAt, now) == createdAt;
    assert UpdatedValue(updatedAt, createdAt) == updatedAt;
  }

  /**
   * The round trip: an entity mapped to its row, the database filling the
   * two timestamps with `createdAt` and `updatedAt`, and the row mapped
   * back gives the same entity, with the database's timestamps.
   */
  lemma {:induction false} RoundTrip(id: PyValue, email: PyValue, password: PyValue, oldCreatedAt: PyValue, oldUpdatedAt: PyValue,
                                     firstName: PyValue, lastName: PyValue, isSuperuser: PyValue, isActive: PyValue,
                                     createdAt: PyValue, updatedAt: PyValue, names: SizeNames, now: PyValue, freshUuid: PyValue)
    requires now.PyDatetime? && freshUuid.PyUuid?
    requires Rebuilds(id, UserIdVo, names) && Rebuilds(email, UserEmailVo, names) && Rebuilds(password, UserPasswordVo, names)
    requires NameRebuilds(firstName, UserFirstNameVo, names) && NameRebuilds(lastName, UserLastNameVo, names)
    requires IsFlag(isSuperuser) && IsFlag(isActive)
    requires Construct(UserCreatedAtVo, createdAt, names).Success? && Construct(UserUpdatedAtVo, updatedAt, names).Success?
    ensures var entity := EntityDict(id, email, password, oldCreatedAt, oldUpdatedAt, firstName, lastName, isSuperuser, isActive);
      && EntityToModel(entity).Success?
      && ModelToEntity(EntityToModel(entity).value.(createdAt := createdAt, updatedAt := updatedAt), names, now, freshUuid)
         == Success(EntityDict(id, email, password, PyVo(UserCreatedAtVo, createdAt), PyVo(UserUpdatedAtVo, updatedAt),
                               firstName, lastName, isSuperuser, isActive))
  {
    EntityToModelColumns(id, email, password, oldCreatedAt, oldUpdatedAt, firstName, lastName, isSuperuser, isActive);
    var row := UserRow(id.value, email.value, password.value, Payload(firstName), Payload(lastName),
                       isSuperuser, isActive, createdAt, updatedAt);
    RebuildContents(row, row.lastName, names, now, freshUuid);
    assert NameVo(row.firstName, UserFirstNameVo) == firstName;
    assert NameVo(row.lastName, UserLastNameVo) == lastName;
  }

  /**
   * As written, the same round trip replaces the last name by a last-name
   * value object of the first name, or by `None` when there is no first
   * name.
   */
  lemma {:induction false} RoundTripAsWritten(id: PyValue, email: PyValue, password: PyValue, oldCreatedAt: PyValue,
                                              oldUpdatedAt: PyValue, firstName: PyValue, lastName: PyValue,
                                              isSuperuser: PyValue, isActive: PyValue, createdAt: PyValue, updatedAt: PyValue,
                                              names: SizeNames, now: PyValue, freshUuid: PyValue)
    requires now.PyDatetime? && freshUuid.PyUuid?
    requires Rebuilds(id, UserIdVo, names) && Rebuilds(email, UserEmailVo, names) && Rebuilds(password, UserPasswordVo, names)
    requires NameRebuilds(firstName, UserFirstNameVo, names) && OptionalVo(lastName, UserLastNameVo)
    requires firstName != PyNone ==> Construct(UserLastNameVo, firstName.value, names).Success?
    requires IsFlag(isSuperuser) && IsFlag(isActive)
    requires Construct(UserCreatedAtVo, createdAt, names).Success? && Construct(UserUpdatedAtVo, updatedAt, names).Success?
    ensures var entity := EntityDict(id, email, password, oldCreatedAt, oldUpdatedAt, firstName, lastName, isSuperuser, isActive);
      && EntityToModel(entity).Success?
      && ModelToEntityAsWritten(EntityToModel(entity).value.(createdAt := createdAt, updatedAt := updatedAt), names, now, freshUuid)
         == Success(EntityDict(id, email, password, PyVo(UserCreatedAtVo, createdAt), PyVo(UserUpdatedAtVo, updatedAt),
                               firstName, NameVo(Payload(firstName), UserLastNameVo), isSuperuser, isActive))
  {
    EntityToModelColumns(id, email, password, oldCreatedAt, oldUpdatedAt, firstName, lastName, isSuperuser, isActive);
    var row := UserRow(id.value, email.value, password.value, Payload(firstName), Payload(lastName),
                       isSuperuser, isActive, createdAt, updatedAt);
    RebuildContents(row, row.firstName, names, now, freshUuid);
    assert NameVo(row.firstName, UserFirstNameVo) == firstName;
  }

  /**
   * So as written a stored last name is lost whenever it differs from the
   * first name's payload: the loaded entity's last name is not the saved one.
   */
  lemma {:induction false} LastNameLostAsWritten(id: PyValue, email: PyValue, password: PyValue, oldCreatedAt: PyValue,
                                                 oldUpdatedAt: PyValue, firstName: PyValue, lastName: PyValue,
                                                 isSuperuser: PyValue, isActive: PyValue, createdAt: PyValue, updatedAt: PyValue,
                                                 names: SizeNames, now: PyValue, freshUuid: PyValue)
    requires now.PyDatetime? && freshUuid.PyUuid?
    requires Rebuilds(id, UserIdVo, names) && Rebuilds(email, UserEmailVo, names) && Rebuilds(password, UserPasswordVo, names)
    requires NameRebuilds(firstName, UserFirstNameVo, names) && OptionalVo(lastName, UserLastNameVo)
    requires firstName != PyNone ==> Construct(UserLastNameVo, firstName.value, names).Success?
    requires IsFlag(isSuperuser) && IsFlag(isActive)
    requires Construct(UserCreatedAtVo, createdAt, names).Success? && Construct(UserUpdatedAtVo, updatedAt, names).Success?
    requires Payload(lastName) != Payload(firstName)
    ensures var entity := EntityDict(id, email, password, oldCreatedAt, oldUpdatedAt, firstName, lastName, isSuperuser, isActive);
      && EntityToModel(entity).Success?
      && ModelToEntityAsWritten(EntityToModel(entity).value.(createdAt := createdAt, updatedAt := updatedAt), names, now, freshUuid).Success?
      && Load(LastNameField, ModelToEntityAsWritten(EntityToModel(entity).value.(createdAt := createdAt, updatedAt := updatedAt),
                                                    names, now, freshUuid).value)
         != Success(lastName)
  {
    RoundTripAsWritten(id, email, password, oldCreatedAt, oldUpdatedAt, firstName, lastName, isSuperuser, isActive,
                       createdAt, updatedAt, names, now, freshUuid);
    EntityDictNames(id, email, password, PyVo(UserCreatedAtVo, createdAt), PyVo(UserUpdatedAtVo, updatedAt),
                    firstName, NameVo(Payload(firstName), UserLastNameVo), isSuperuser, isActive);
    assert NameVo(Payload(firstName), UserLastNameVo) != lastName;
  }

  /** An empty first-name column loads as no first name at all. */
  lemma {:induction false} EmptyFirstNameLoadsAsNone(row: UserRow, names: SizeNames, now: PyValue, freshUuid: PyValue)
    requires now.PyDatetime? && freshUuid.PyUuid?
    requires row.firstName == PyStr("")
    requires ModelToEntity(row, names, now, freshUuid).Success?
    ensures Load(FirstNameField, ModelToEntity(row, names, now, freshUuid).value) == Success(PyNone)
  {
    ArgumentsBuilt(row, row.lastName, names);
    var a := Arguments(row, row.lastName, names).value;
    InitialStateSucceeds(a.email, a.password, a.createdAt, a.updatedAt, a.firstName, a.lastName, a.isSuperuser, a.isActive,
                         a.id, now, freshUuid);
    assert IsFlag(row.isSuperuser) && IsFlag(row.isActive);
    RebuildContents(row, row.lastName, names, now, freshUuid);
    EntityDictNames(PyVo(UserIdVo, row.id), PyVo(UserEmailVo, row.email), PyVo(UserPasswordVo, row.password),
                    PyVo(UserCreatedAtVo, row.createdAt), PyVo(UserUpdatedAtVo, row.updatedAt),
                    NameVo(row.firstName, UserFirstNameVo), NameVo(row.lastName, UserLastNameVo),
                    row.isSuperuser, row.isActive);
  }

  /**
   * A row whose timestamps the database has not filled cannot be loaded:
   * `UserCreatedAtVo(None)` raises the type error of a datetime.
   */
  lemma {:induction false} UnstampedRowRefused(row: UserRow, names: SizeNames, now: PyValue, freshUuid: PyValue)
    requires now.PyDatetime? && freshUuid.PyUuid?
    requires row.createdAt == PyNone
    ensures ModelToEntity(row, names, now, freshUuid).Failure?
    ensures ModelToEntity(row, names, now, freshUuid).error.AppExc?
    ensures IsSharedValidation(ModelToEntity(row, names, now, freshUuid).error.kind)
  {
    assert TypeCheck(UserCreatedAtVo, row.createdAt).Some?;
    ArgumentsNeedCreatedAt(row, row.lastName, names);
    ArgumentsRefused(row, row.lastName, names);
    RebuildRefused(row, row.lastName, names, now, freshUuid);
  }

  /** An argument that fails its value object's checks ends `model_to_entity` with that error. */
  lemma {:induction false} RebuildRefused(row: UserRow, lastNameColumn: PyValue, names: SizeNames, now: PyValue, freshUuid: PyValue)
    requires now.PyDatetime? && freshUuid.PyUuid?
    requires Arguments(row, lastNameColumn, names).Failure?
    ensures Rebuild(row, lastNameColumn, names, now, freshUuid) == Failure(Arguments(row, lastNameColumn, names).error)
  {
  }

  /** `UserRepository.get_by_id` once the query has returned `found`: the row mapped to an entity, or `None`. */
  function RepositoryGetById(found: Option<UserRow>, names: SizeNames, now: PyValue, freshUuid: PyValue)
    : Result<Option<map<string, PyValue>>, Exc>
    requires now.PyDatetime? && freshUuid.PyUuid?
  {
    match found
    case None => Success(None)
    case Some(row) =>
      var entity :- ModelToEntityAsWritten(row, names, now, freshUuid);
      Success(Some(entity))
  }
}
