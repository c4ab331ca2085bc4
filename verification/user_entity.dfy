/**
 * `UserEntity`: a class with eight `ValidatedField` descriptors and a
 * write-once identifier kept in the plain attribute `_id`.
 *
 * `InitialState` is the attribute dict `__init__` leaves behind (or the
 * exception it raises); `Init` is the constructor itself, over a fresh
 * `Instance`, proved to produce exactly that dict.  The clock reading and
 * the fresh UUID are parameters.
 */
module UserEntities {
  import opened Wrappers
  import opened PyValues
  import opened Errors
  import opened ValueObjects
  import opened Descriptors

  const EmailField := FieldSpec("email", VoType(UserEmailVo), false)
  const PasswordField := FieldSpec("password", VoType(UserPasswordVo), false)
  const CreatedAtField := FieldSpec("created_at", VoType(UserCreatedAtVo), true)
  const UpdatedAtField := FieldSpec("updated_at", VoType(UserUpdatedAtVo), true)
  const FirstNameField := FieldSpec("first_name", VoType(UserFirstNameVo), true)
  const LastNameField := FieldSpec("last_name", VoType(UserLastNameVo), true)
  const IsSuperuserField := FieldSpec("is_superuser", BoolType, true)
  const IsActiveField := FieldSpec("is_active", BoolType, true)

  /** The plain attribute holding the identifier. */
  const IdSlot := "_id"

  /** The slot of each field. */
  lemma SlotNames()
    ensures PrivateName(EmailField.name) == "_email" && PrivateName(PasswordField.name) == "_password"
    ensures PrivateName(CreatedAtField.name) == "_created_at" && PrivateName(UpdatedAtField.name) == "_updated_at"
    ensures PrivateName(FirstNameField.name) == "_first_name" && PrivateName(LastNameField.name) == "_last_name"
    ensures PrivateName(IsSuperuserField.name) == "_is_superuser" && PrivateName(IsActiveField.name) == "_is_active"
  {
    assert EmailField.name == "email" && PasswordField.name == "password";
    assert CreatedAtField.name == "created_at" && UpdatedAtField.name == "updated_at";
    assert FirstNameField.name == "first_name" && LastNameField.name == "last_name";
    assert IsSuperuserField.name == "is_superuser" && IsActiveField.name == "is_active";
  }

  /** `created_at or UserCreatedAtVo(now)`. */
  function CreatedDefault(createdAt: PyValue, now: PyValue): (r: Result<PyValue, Exc>)
    requires now.PyDatetime?
    ensures r == Success(if Truthy(createdAt) then createdAt else PyVo(UserCreatedAtVo, now))
  {
    if Truthy(createdAt) then Success(createdAt)
    else
      ConstructTypeOnly(UserCreatedAtVo, now)
  }

  /** `updated_at or UserUpdatedAtVo(created.value)`. */
  function UpdatedDefault(updatedAt: PyValue, created: PyValue): (r: Result<PyValue, Exc>)
    ensures Truthy(updatedAt) ==> r == Success(updatedAt)
    ensures !Truthy(updatedAt) ==> (r.Success? <==> Payload(created).PyDatetime?)
    ensures !Truthy(updatedAt) && r.Success? ==> r.value == PyVo(UserUpdatedAtVo, Payload(created))
  {
    if Truthy(updatedAt) then Success(updatedAt) else ConstructTypeOnly(UserUpdatedAtVo, Payload(created))
  }

  /** `id_ or UserIdVo(uuid4())`. */
  function IdDefault(id: PyValue, freshUuid: PyValue): (r: Result<PyValue, Exc>)
    requires freshUuid.PyUuid?
    ensures r == Success(if Truthy(id) then id else PyVo(UserIdVo, freshUuid))
  {
    if Truthy(id) then Success(id) else ConstructTypeOnly(UserIdVo, freshUuid)
  }

  /** The created-at value `__init__` stores. */
  function CreatedValue(createdAt: PyValue, now: PyValue): PyValue {
    if Truthy(createdAt) then createdAt else PyVo(UserCreatedAtVo, now)
  }

  /** `v.value` of a value object (`None` stands in for the attribute error of anything else). */
  function Payload(v: PyValue): PyValue {
    if v.PyVo? then v.value else PyNone
  }

  /** The updated-at value `__init__` stores once created-at is `created`. */
  function UpdatedValue(updatedAt: PyValue, created: PyValue): PyValue {
    if Truthy(updatedAt) then updatedAt else PyVo(UserUpdatedAtVo, Payload(created))
  }

  /** What the credential assignments demand. */
  predicate CredentialsAccepted(email: PyValue, password: PyValue) {
    Accepts(EmailField, email) && Accepts(PasswordField, password)
  }

  /** What the timestamp assignments demand, the default created-at included. */
  predicate TimestampsAccepted(createdAt: PyValue, updatedAt: PyValue, now: PyValue) {
    var created := CreatedValue(createdAt, now);
    && Accepts(CreatedAtField, created)
    && (Truthy(updatedAt) ==> Accepts(UpdatedAtField, updatedAt))
    && (!Truthy(updatedAt) ==> Payload(created).PyDatetime?)
  }

  /** What the name and flag assignments demand. */
  predicate ProfileAccepted(firstName: PyValue, lastName: PyValue, isSuperuser: PyValue, isActive: PyValue) {
    && Accepts(FirstNameField, firstName) && Accepts(LastNameField, lastName)
    && Accepts(IsSuperuserField, isSuperuser) && Accepts(IsActiveField, isActive)
  }

  /** `self.email = email; self.password = password`. */
  function StoreCredentials(email: PyValue, password: PyValue): Result<map<string, PyValue>, Exc> {
    var d1 :- Store(EmailField, map[], email);
    Store(PasswordField, d1, password)
  }

  /** The credential assignments succeed when both are accepted, and otherwise raise the first refusal. */
  lemma {:induction false} CredentialsStage(email: PyValue, password: PyValue)
    ensures var r := StoreCredentials(email, password);
      && (r.Success? <==> CredentialsAccepted(email, password))
      && (r.Success? ==> r.value == map["_email" := email, "_password" := password])
      && (!Accepts(EmailField, email) ==> r == Failure(SetCheck(EmailField, email).value))
      && (Accepts(EmailField, email) && !Accepts(PasswordField, password) ==>
            r == Failure(SetCheck(PasswordField, password).value))
  {
    SlotNames();
  }

  /** The two timestamp assignments, the second reading the first back through its descriptor. */
  function StoreTimestamps(d: map<string, PyValue>, createdAt: PyValue, updatedAt: PyValue, now: PyValue)
    : Result<map<string, PyValue>, Exc>
    requires now.PyDatetime?
  {
    var d3 :- StoreCreatedAt(d, createdAt, now);
    StoreUpdatedAt(d3, updatedAt)
  }

  /** `self.created_at = created_at or UserCreatedAtVo(now)`. */
  function StoreCreatedAt(d: map<string, PyValue>, createdAt: PyValue, now: PyValue): Result<map<string, PyValue>, Exc>
    requires now.PyDatetime?
  {
    Store(CreatedAtField, d, CreatedDefault(createdAt, now).value)
  }

  /** `self.updated_at = updated_at or UserUpdatedAtVo(self.created_at.value)`. */
  function StoreUpdatedAt(d: map<string, PyValue>, updatedAt: PyValue): Result<map<string, PyValue>, Exc> {
    var updated :- UpdatedDefault(updatedAt, Load(CreatedAtField, d).value);
    Store(UpdatedAtField, d, updated)
  }

  /**
   * The timestamp assignments succeed when the created-at (given or
   * default) and the updated-at are accepted, and otherwise raise the first
   * refusal or the error of building the default updated-at.
   */
  lemma {:induction false} TimestampsStage(d: map<string, PyValue>, createdAt: PyValue, updatedAt: PyValue, now: PyValue)
    requires now.PyDatetime?
    ensures var r := StoreTimestamps(d, createdAt, updatedAt, now);
      var created := CreatedValue(createdAt, now);
      && (r.Success? <==> TimestampsAccepted(createdAt, updatedAt, now))
      && (r.Success? ==> r.value == d["_created_at" := created]["_updated_at" := UpdatedValue(updatedAt, created)])
      && (!Accepts(CreatedAtField, created) ==> r == Failure(SetCheck(CreatedAtField, created).value))
      && (Accepts(CreatedAtField, created) && !Truthy(updatedAt) && !Payload(created).PyDatetime? ==>
            r == Failure(ConstructTypeOnly(UserUpdatedAtVo, Payload(created)).error))
      && (Accepts(CreatedAtField, created) && Truthy(updatedAt) && !Accepts(UpdatedAtField, updatedAt) ==>
            r == Failure(SetCheck(UpdatedAtField, updatedAt).value))
  {
    CreatedAtStage(d, createdAt, now);
    var created := CreatedValue(createdAt, now);
    if Accepts(CreatedAtField, created) {
      var d3 := StoreCreatedAt(d, createdAt, now).value;
      UpdatedAtStage(d3, created, updatedAt);
      assert StoreTimestamps(d, createdAt, updatedAt, now) == StoreUpdatedAt(d3, updatedAt);
    } else {
      assert StoreTimestamps(d, createdAt, updatedAt, now) == Failure(StoreCreatedAt(d, createdAt, now).error);
    }
  }

  /** The created-at assignment stores the given or default value, which then reads back, or raises its refusal. */
  lemma {:induction false} CreatedAtStage(d: map<string, PyValue>, createdAt: PyValue, now: PyValue)
    requires now.PyDatetime?
    ensures var r := StoreCreatedAt(d, createdAt, now);
      var created := CreatedValue(createdAt, now);
      && (r.Success? <==> Accepts(CreatedAtField, created))
      && (r.Success? ==> r.value == d["_created_at" := created] && Load(CreatedAtField, r.value) == Success(created))
      && (r.Failure? ==> r.error == SetCheck(CreatedAtField, created).value)
  {
    SlotNames();
    var created := CreatedValue(createdAt, now);
    if Accepts(CreatedAtField, created) {
      StoreThenLoad(CreatedAtField, d, created);
    }
  }

  /**
   * The updated-at assignment, once created-at reads back as `created`:
   * it stores the given or default value, or raises the refusal or the
   * error of building the default.
   */
  lemma {:induction false} UpdatedAtStage(d: map<string, PyValue>, created: PyValue, updatedAt: PyValue)
    requires Load(CreatedAtField, d) == Success(created)
    ensures var r := StoreUpdatedAt(d, updatedAt);
      && (r.Success? <==> (if Truthy(updatedAt) then Accepts(UpdatedAtField, updatedAt) else Payload(created).PyDatetime?))
      && (r.Success? ==> r.value == d["_updated_at" := UpdatedValue(updatedAt, created)])
      && (!Truthy(updatedAt) && !Payload(created).PyDatetime? ==>
            r == Failure(ConstructTypeOnly(UserUpdatedAtVo, Payload(created)).error))
      && (Truthy(updatedAt) && !Accepts(UpdatedAtField, updatedAt) ==>
            r == Failure(SetCheck(UpdatedAtField, updatedAt).value))
  {
    SlotNames();
    assert IsInstance(PyVo(UserUpdatedAtVo, Payload(created)), UpdatedAtField.expectedType);
  }

  /** The names and the two flags, assigned in that order. */
  function StoreProfile(d: map<string, PyValue>, firstName: PyValue, lastName: PyValue, isSuperuser: PyValue,
                        isActive: PyValue): Result<map<string, PyValue>, Exc>
  {
    var d6 :- StoreNames(d, firstName, lastName);
    StoreFlags(d6, isSuperuser, isActive)
  }

  /** `self.first_name = first_name; self.last_name = last_name`. */
  function StoreNames(d: map<string, PyValue>, firstName: PyValue, lastName: PyValue): Result<map<string, PyValue>, Exc> {
    var d5 :- Store(FirstNameField, d, firstName);
    Store(LastNameField, d5, lastName)
  }

  /** `self.is_superuser = is_superuser; self.is_active = is_active`. */
  function StoreFlags(d: map<string, PyValue>, isSuperuser: PyValue, isActive: PyValue): Result<map<string, PyValue>, Exc> {
    var d7 :- Store(IsSuperuserField, d, isSuperuser);
    Store(IsActiveField, d7, isActive)
  }

  /** The name and flag assignments succeed when all four are accepted, and otherwise raise the first refusal. */
  lemma {:induction false} ProfileStage(d: map<string, PyValue>, firstName: PyValue, lastName: PyValue,
                                        isSuperuser: PyValue, isActive: PyValue)
    ensures var r := StoreProfile(d, firstName, lastName, isSuperuser, isActive);
      && (r.Success? <==> ProfileAccepted(firstName, lastName, isSuperuser, isActive))
      && (r.Success? ==>
            r.value == d["_first_name" := firstName]["_last_name" := lastName]["_is_superuser" := isSuperuser]
                        ["_is_active" := isActive])
      && (!Accepts(FirstNameField, firstName) ==> r == Failure(SetCheck(FirstNameField, firstName).value))
      && (Accepts(FirstNameField, firstName) && !Accepts(LastNameField, lastName) ==>
            r == Failure(SetCheck(LastNameField, lastName).value))
      && (Accepts(FirstNameField, firstName) && Accepts(LastNameField, lastName) && !Accepts(IsSuperuserField, isSuperuser) ==>
            r == Failure(SetCheck(IsSuperuserField, isSuperuser).value))
      && (Accepts(FirstNameField, firstName) && Accepts(LastNameField, lastName) && Accepts(IsSuperuserField, isSuperuser)
          && !Accepts(IsActiveField, isActive) ==>
            r == Failure(SetCheck(IsActiveField, isActive).value))
  {
    NamesStage(d, firstName, lastName);
    if Accepts(FirstNameField, firstName) && Accepts(LastNameField, lastName) {
      var d6 := StoreNames(d, firstName, lastName).value;
      FlagsStage(d6, isSuperuser, isActive);
      assert StoreProfile(d, firstName, lastName, isSuperuser, isActive) == StoreFlags(d6, isSuperuser, isActive);
    } else {
      assert StoreProfile(d, firstName, lastName, isSuperuser, isActive) == Failure(StoreNames(d, firstName, lastName).error);
    }
  }

  /** The two name assignments succeed when both are accepted, and otherwise raise the first refusal. */
  lemma {:induction false} NamesStage(d: map<string, PyValue>, firstName: PyValue, lastName: PyValue)
    ensures var r := StoreNames(d, firstName, lastName);
      && (r.Success? <==> Accepts(FirstNameField, firstName) && Accepts(LastNameField, lastName))
      && (r.Success? ==> r.value == d["_first_name" := firstName]["_last_name" := lastName])
      && (!Accepts(FirstNameField, firstName) ==> r == Failure(SetCheck(FirstNameField, firstName).value))
      && (Accepts(FirstNameField, firstName) && !Accepts(LastNameField, lastName) ==>
            r == Failure(SetCheck(LastNameField, lastName).value))
  {
    SlotNames();
  }

  /** The two flag assignments succeed when both are accepted, and otherwise raise the first refusal. */
  lemma {:induction false} FlagsStage(d: map<string, PyValue>, isSuperuser: PyValue, isActive: PyValue)
    ensures var r := StoreFlags(d, isSuperuser, isActive);
      && (r.Success? <==> Accepts(IsSuperuserField, isSuperuser) && Accepts(IsActiveField, isActive))
      && (r.Success? ==> r.value == d["_is_superuser" := isSuperuser]["_is_active" := isActive])
      && (!Accepts(IsSuperuserField, isSuperuser) ==> r == Failure(SetCheck(IsSuperuserField, isSuperuser).value))
      && (Accepts(IsSuperuserField, isSuperuser) && !Accepts(IsActiveField, isActive) ==>
            r == Failure(SetCheck(IsActiveField, isActive).value))
  {
    SlotNames();
  }

  /** `self._id = id_ or UserIdVo(uuid4())`, a plain attribute that no descriptor checks. */
  function StoreId(d: map<string, PyValue>, id: PyValue, freshUuid: PyValue): (r: Result<map<string, PyValue>, Exc>)
    requires freshUuid.PyUuid?
    ensures r == Success(d[IdSlot := if Truthy(id) then id else PyVo(UserIdVo, freshUuid)])
  {
    Success(d[IdSlot := IdDefault(id, freshUuid).value])
  }

  /**
   * The attribute dict `UserEntity.__init__` leaves, assignment by
   * assignment, or the first exception raised.
   */
  function InitialState(email: PyValue, password: PyValue, createdAt: PyValue, updatedAt: PyValue,
                        firstName: PyValue, lastName: PyValue, isSuperuser: PyValue, isActive: PyValue,
                        id: PyValue, now: PyValue, freshUuid: PyValue): Result<map<string, PyValue>, Exc>
    requires now.PyDatetime? && freshUuid.PyUuid?
  {
    var d2 :- StoreCredentials(email, password);
    var d4 :- StoreTimestamps(d2, createdAt, updatedAt, now);
    var d8 :- StoreProfile(d4, firstName, lastName, isSuperuser, isActive);
    StoreId(d8, id, freshUuid)
  }

  /** The constructor fails exactly as the credential assignments do. */
  lemma CredentialsFailurePropagates(email: PyValue, password: PyValue, createdAt: PyValue, updatedAt: PyValue,
                                     firstName: PyValue, lastName: PyValue, isSuperuser: PyValue, isActive: PyValue,
                                     id: PyValue, now: PyValue, freshUuid: PyValue)
    requires now.PyDatetime? && freshUuid.PyUuid?
    requires StoreCredentials(email, password).Failure?
    ensures InitialState(email, password, createdAt, updatedAt, firstName, lastName, isSuperuser, isActive, id, now, freshUuid) == Failure(StoreCredentials(email, password).error)
  {
  }

  /** Past the credentials (`c`), the constructor fails exactly as the timestamp assignments do. */
  lemma TimestampsFailurePropagates(email: PyValue, password: PyValue, createdAt: PyValue, updatedAt: PyValue,
                                    firstName: PyValue, lastName: PyValue, isSuperuser: PyValue, isActive: PyValue,
                                    id: PyValue, now: PyValue, freshUuid: PyValue,
                                    c: map<string, PyValue>)
    requires now.PyDatetime? && freshUuid.PyUuid?
    requires StoreCredentials(email, password) == Success(c)
    requires StoreTimestamps(c, createdAt, updatedAt, now).Failure?
    ensures InitialState(email, password, createdAt, updatedAt, firstName, lastName, isSuperuser, isActive, id, now, freshUuid) == Failure(StoreTimestamps(c, createdAt, updatedAt, now).error)
  {
  }

  /** Past the timestamps (`t`), the constructor fails exactly as the name and flag assignments do. */
  lemma ProfileFailurePropagates(email: PyValue, password: PyValue, createdAt: PyValue, updatedAt: PyValue,
                                 firstName: PyValue, lastName: PyValue, isSuperuser: PyValue, isActive: PyValue,
                                 id: PyValue, now: PyValue, freshUuid: PyValue,
                                 c: map<string, PyValue>, t: map<string, PyValue>)
    requires now.PyDatetime? && freshUuid.PyUuid?
    requires StoreCredentials(email, password) == Success(c) && StoreTimestamps(c, createdAt, updatedAt, now) == Success(t)
    requires StoreProfile(t, firstName, lastName, isSuperuser, isActive).Failure?
    ensures InitialState(email, password, createdAt, updatedAt, firstName, lastName, isSuperuser, isActive, id, now, freshUuid) == Failure(StoreProfile(t, firstName, lastName, isSuperuser, isActive).error)
  {
  }

  /** When every stage succeeds (`c`, `t`, `p`), the identifier is stored last. */
  lemma StagesCompose(email: PyValue, password: PyValue, createdAt: PyValue, updatedAt: PyValue,
                      firstName: PyValue, lastName: PyValue, isSuperuser: PyValue, isActive: PyValue,
                      id: PyValue, now: PyValue, freshUuid: PyValue,
                      c: map<string, PyValue>, t: map<string, PyValue>, p: map<string, PyValue>)
    requires now.PyDatetime? && freshUuid.PyUuid?
    requires StoreCredentials(email, password) == Success(c) && StoreTimestamps(c, createdAt, updatedAt, now) == Success(t)
    requires StoreProfile(t, firstName, lastName, isSuperuser, isActive) == Success(p)
    ensures InitialState(email, password, createdAt, updatedAt, firstName, lastName, isSuperuser, isActive, id, now, freshUuid) == StoreId(p, id, freshUuid)
  {
  }

  /** The attribute dict of a constructed entity, slot by slot. */
  function EntityDict(id: PyValue, email: PyValue, password: PyValue, createdAt: PyValue, updatedAt: PyValue,
                      firstName: PyValue, lastName: PyValue, isSuperuser: PyValue, isActive: PyValue): map<string, PyValue> {
    map["_email" := email, "_password" := password, "_created_at" := createdAt,
        "_updated_at" := updatedAt,
        "_first_name" := firstName, "_last_name" := lastName,
        "_is_superuser" := isSuperuser, "_is_active" := isActive,
        IdSlot := id]
  }

  /** What the timestamp fields and the identifier read on an entity whose dict is `EntityDict(...)`. */
  lemma {:induction false} EntityDictStamps(id: PyValue, email: PyValue, password: PyValue, createdAt: PyValue, updatedAt: PyValue,
                                            firstName: PyValue, lastName: PyValue, isSuperuser: PyValue, isActive: PyValue)
    ensures var d := EntityDict(id, email, password, createdAt, updatedAt, firstName, lastName, isSuperuser, isActive);
      && Load(CreatedAtField, d) == Success(createdAt) && Load(UpdatedAtField, d) == Success(updatedAt)
      && IdSlot in d && d[IdSlot] == id
  {
    SlotNames();
  }

  /** The constructor succeeds exactly when every field accepts its value; the defaults always do. */
  lemma {:induction false} InitialStateSucceeds(email: PyValue, password: PyValue, createdAt: PyValue, updatedAt: PyValue,
                                  firstName: PyValue, lastName: PyValue, isSuperuser: PyValue, isActive: PyValue,
                                  id: PyValue, now: PyValue, freshUuid: PyValue)
    requires now.PyDatetime? && freshUuid.PyUuid?
    ensures InitialState(email, password, createdAt, updatedAt, firstName, lastName, isSuperuser, isActive, id, now, freshUuid).Success?
      <==> (&& CredentialsAccepted(email, password)
            && TimestampsAccepted(createdAt, updatedAt, now)
            && ProfileAccepted(firstName, lastName, isSuperuser, isActive))
  {
    CredentialsStage(email, password);
    if !CredentialsAccepted(email, password) {
      CredentialsFailurePropagates(email, password, createdAt, updatedAt, firstName, lastName, isSuperuser, isActive, id, now, freshUuid);
      return;
    }
    var c := StoreCredentials(email, password).value;
    TimestampsStage(c, createdAt, updatedAt, now);
    if !TimestampsAccepted(createdAt, updatedAt, now) {
      TimestampsFailurePropagates(email, password, createdAt, updatedAt, firstName, lastName, isSuperuser, isActive, id, now, freshUuid, c);
      return;
    }
    var t := StoreTimestamps(c, createdAt, updatedAt, now).value;
    ProfileStage(t, firstName, lastName, isSuperuser, isActive);
    if !ProfileAccepted(firstName, lastName, isSuperuser, isActive) {
      ProfileFailurePropagates(email, password, createdAt, updatedAt, firstName, lastName, isSuperuser, isActive, id, now, freshUuid, c, t);
      return;
    }
    StagesCompose(email, password, createdAt, updatedAt, firstName, lastName, isSuperuser, isActive, id, now, freshUuid, c, t, StoreProfile(t, firstName, lastName, isSuperuser, isActive).value);
  }

  /**
   * A constructed entity's nine slots hold the arguments, with a falsy
   * created-at, updated-at or id replaced by its default.
   */
  lemma {:induction false} InitialStateContents(email: PyValue, password: PyValue, createdAt: PyValue, updatedAt: PyValue,
                                  firstName: PyValue, lastName: PyValue, isSuperuser: PyValue, isActive: PyValue,
                                  id: PyValue, now: PyValue, freshUuid: PyValue)
    requires now.PyDatetime? && freshUuid.PyUuid?
    requires InitialState(email, password, createdAt, updatedAt, firstName, lastName, isSuperuser, isActive, id, now, freshUuid).Success?
    ensures var created := CreatedValue(createdAt, now);
      InitialState(email, password, createdAt, updatedAt, firstName, lastName, isSuperuser, isActive, id, now, freshUuid).value
      == EntityDict(if Truthy(id) then id else PyVo(UserIdVo, freshUuid), email, password, created,
                    UpdatedValue(updatedAt, created), firstName, lastName, isSuperuser, isActive)
  {
    InitialStateSucceeds(email, password, createdAt, updatedAt, firstName, lastName, isSuperuser, isActive, id, now, freshUuid);
    CredentialsStage(email, password);
    var c := StoreCredentials(email, password).value;
    TimestampsStage(c, createdAt, updatedAt, now);
    var t := StoreTimestamps(c, createdAt, updatedAt, now).value;
    ProfileStage(t, firstName, lastName, isSuperuser, isActive);
    StagesCompose(email, password, createdAt, updatedAt, firstName, lastName, isSuperuser, isActive, id, now, freshUuid, c, t, StoreProfile(t, firstName, lastName, isSuperuser, isActive).value);
  }

  /** The keyword defaults (`None` timestamps, id and names, `False`, `True`) are accepted whenever the credentials are. */
  lemma {:induction false} DefaultArgumentsAccepted(email: PyValue, password: PyValue, now: PyValue, freshUuid: PyValue)
    requires now.PyDatetime? && freshUuid.PyUuid?
    requires CredentialsAccepted(email, password)
    ensures InitialState(email, password, PyNone, PyNone, PyNone, PyNone, PyBool(false), PyBool(true), PyNone, now, freshUuid).Success?
  {
    assert TimestampsAccepted(PyNone, PyNone, now);
    assert ProfileAccepted(PyNone, PyNone, PyBool(false), PyBool(true));
    InitialStateSucceeds(email, password, PyNone, PyNone, PyNone, PyNone, PyBool(false), PyBool(true), PyNone, now, freshUuid);
  }

  /**
   * With a falsy created-at and updated-at both timestamps are the clock
   * reading, and with a falsy id the identifier is the fresh UUID.
   */
  lemma {:induction false} FalsyArgumentsDefaulted(email: PyValue, password: PyValue, createdAt: PyValue, updatedAt: PyValue,
                                  firstName: PyValue, lastName: PyValue, isSuperuser: PyValue, isActive: PyValue,
                                  id: PyValue, now: PyValue, freshUuid: PyValue)
    requires now.PyDatetime? && freshUuid.PyUuid?
    requires InitialState(email, password, createdAt, updatedAt, firstName, lastName, isSuperuser, isActive, id, now, freshUuid).Success?
    ensures !Truthy(createdAt) && !Truthy(updatedAt) ==>
      && Load(CreatedAtField, InitialState(email, password, createdAt, updatedAt, firstName, lastName, isSuperuser, isActive, id, now, freshUuid).value) == Success(PyVo(UserCreatedAtVo, now))
      && Load(UpdatedAtField, InitialState(email, password, createdAt, updatedAt, firstName, lastName, isSuperuser, isActive, id, now, freshUuid).value) == Success(PyVo(UserUpdatedAtVo, now))
    ensures !Truthy(id) ==> IdSlot in InitialState(email, password, createdAt, updatedAt, firstName, lastName, isSuperuser, isActive, id, now, freshUuid).value && InitialState(email, password, createdAt, updatedAt, firstName, lastName, isSuperuser, isActive, id, now, freshUuid).value[IdSlot] == PyVo(UserIdVo, freshUuid)
  {
    InitialStateContents(email, password, createdAt, updatedAt, firstName, lastName, isSuperuser, isActive, id, now, freshUuid);
    var created := CreatedValue(createdAt, now);
    EntityDictStamps(if Truthy(id) then id else PyVo(UserIdVo, freshUuid), email, password, created,
                     UpdatedValue(updatedAt, created), firstName, lastName, isSuperuser, isActive);
  }

  /** A missing email is refused before anything else is looked at. */
  lemma {:induction false} MissingEmailFirst(email: PyValue, password: PyValue, createdAt: PyValue, updatedAt: PyValue,
                                  firstName: PyValue, lastName: PyValue, isSuperuser: PyValue, isActive: PyValue,
                                  id: PyValue, now: PyValue, freshUuid: PyValue)
    requires now.PyDatetime? && freshUuid.PyUuid?
    requires email == PyNone
    ensures InitialState(email, password, createdAt, updatedAt, firstName, lastName, isSuperuser, isActive, id, now, freshUuid) == Failure(ForeignExc(ValueError, "Поле 'email' не может быть None."))
  {
    CredentialsStage(email, password);
    EmailNoneMessage();
    CredentialsFailurePropagates(email, password, createdAt, updatedAt, firstName, lastName, isSuperuser, isActive, id, now, freshUuid);
  }

  /** The message of a missing email. */
  lemma EmailNoneMessage()
    ensures "Поле '" + EmailField.name + "' не может быть None." == "Поле 'email' не может быть None."
  {
    assert EmailField.name == "email";
  }

  /** The superuser flag's type error, as the profile assignments raise it. */
  lemma NonBoolSuperuserRefused(d: map<string, PyValue>, firstName: PyValue, lastName: PyValue, isSuperuser: PyValue,
                                isActive: PyValue)
    requires Accepts(FirstNameField, firstName) && Accepts(LastNameField, lastName)
    requires isSuperuser != PyNone && !isSuperuser.PyBool?
    ensures StoreProfile(d, firstName, lastName, isSuperuser, isActive)
      == Failure(ForeignExc(TypeError, "Поле '" + "is_superuser" + "' должно быть типа " + "bool" + ", получено: "
                                       + TypeName(isSuperuser)))
  {
    ProfileStage(d, firstName, lastName, isSuperuser, isActive);
    assert IsSuperuserField.name == "is_superuser";
    assert FieldTypeName(IsSuperuserField.expectedType) == "bool";
  }

  /**
   * A flag that is neither `None` nor a bool is refused even when it is
   * falsy (`0`, `""`): the error names the field and the offending type.
   */
  lemma {:induction false} FlagsMustBeBool(email: PyValue, password: PyValue, createdAt: PyValue, updatedAt: PyValue,
                                  firstName: PyValue, lastName: PyValue, isSuperuser: PyValue, isActive: PyValue,
                                  id: PyValue, now: PyValue, freshUuid: PyValue)
    requires now.PyDatetime? && freshUuid.PyUuid?
    requires CredentialsAccepted(email, password) && TimestampsAccepted(createdAt, updatedAt, now)
    requires Accepts(FirstNameField, firstName) && Accepts(LastNameField, lastName)
    requires isSuperuser != PyNone && !isSuperuser.PyBool?
    ensures InitialState(email, password, createdAt, updatedAt, firstName, lastName, isSuperuser, isActive, id, now, freshUuid)
      == Failure(ForeignExc(TypeError, "Поле '" + "is_superuser" + "' должно быть типа " + "bool" + ", получено: "
                                       + TypeName(isSuperuser)))
  {
    CredentialsStage(email, password);
    var c := StoreCredentials(email, password).value;
    TimestampsStage(c, createdAt, updatedAt, now);
    var t := StoreTimestamps(c, createdAt, updatedAt, now).value;
    NonBoolSuperuserRefused(t, firstName, lastName, isSuperuser, isActive);
    ProfileFailurePropagates(email, password, createdAt, updatedAt, firstName, lastName, isSuperuser, isActive, id, now, freshUuid, c, t);
  }

  /** `UserIdVo`, the class object, as the `expected_type` entry of the setter's error. */
  const UserIdVoClass := PyObject("type", "<class 'src.domain.user.value_objects.UserIdVo'>",
                                  "<class 'src.domain.user.value_objects.UserIdVo'>", true)

  /** The `message_to_extend` of the setter's `InvalidTypeError`. */
  function IdTypeArgs(value: PyValue): map<string, PyValue> {
    map["expected_type" := UserIdVoClass, "attr_name" := PyStr("value of UserIdVo"),
        "actual_type" := PyStr(TypeName(value)), "value" := value]
  }

  /** Reading `self._id` on an instance that has none. */
  const NoIdAttribute := ForeignExc(AttributeError, "'UserEntity' object has no attribute '_id'")

  /** The `id` property's setter: the new attribute dict, or the exception it raises. */
  function IdSetOutcome(d: map<string, PyValue>, value: PyValue): (r: Result<map<string, PyValue>, Exc>)
    ensures r.Success? <==> IdSlot in d && d[IdSlot] == PyNone && IsInstance(value, VoType(UserIdVo))
    ensures r.Success? ==> r.value == d[IdSlot := value]
    ensures IdSlot !in d ==> r == Failure(NoIdAttribute)
    ensures IdSlot in d && d[IdSlot] != PyNone ==> r == Failure(ForeignExc(AttributeError, "Item ID уже установлен."))
    ensures IdSlot in d && d[IdSlot] == PyNone && !IsInstance(value, VoType(UserIdVo)) ==>
      r == Failure(Raise(Violation(InvalidTypeError, IdTypeArgs(value))))
  {
    if IdSlot !in d then Failure(NoIdAttribute)
    else if d[IdSlot] != PyNone then Failure(ForeignExc(AttributeError, "Item ID уже установлен."))
    else if !IsInstance(value, VoType(UserIdVo)) then Failure(Raise(Violation(InvalidTypeError, IdTypeArgs(value))))
    else Success(d[IdSlot := value])
  }

  /** The setter succeeds at most once: after it has stored an id, setting again is refused. */
  lemma {:induction false} IdSetOnce(d: map<string, PyValue>, first: PyValue, second: PyValue)
    requires IdSetOutcome(d, first).Success?
    ensures IdSetOutcome(IdSetOutcome(d, first).value, second) == Failure(ForeignExc(AttributeError, "Item ID уже установлен."))
  {
  }

  /**
   * `__init__` never leaves `_id` as `None` (a falsy `id_` is replaced by a
   * fresh one), so on a constructed entity the setter always refuses.
   */
  lemma {:induction false} ConstructedIdIsFixed(email: PyValue, password: PyValue, createdAt: PyValue, updatedAt: PyValue,
                                                firstName: PyValue, lastName: PyValue, isSuperuser: PyValue,
                                                isActive: PyValue, id: PyValue, now: PyValue, freshUuid: PyValue,
                                                value: PyValue)
    requires now.PyDatetime? && freshUuid.PyUuid?
    requires InitialState(email, password, createdAt, updatedAt, firstName, lastName, isSuperuser, isActive, id, now, freshUuid).Success?
    ensures IdSetOutcome(InitialState(email, password, createdAt, updatedAt, firstName, lastName, isSuperuser, isActive,
                                      id, now, freshUuid).value, value)
      == Failure(ForeignExc(AttributeError, "Item ID уже установлен."))
  {
    InitialStateContents(email, password, createdAt, updatedAt, firstName, lastName, isSuperuser, isActive, id, now, freshUuid);
  }

  /** The `UserEntity` class object: its eight descriptors. */
  class UserEntityClass {
    const email: ValidatedField
    const password: ValidatedField
    const createdAt: ValidatedField
    const updatedAt: ValidatedField
    const firstName: ValidatedField
    const lastName: ValidatedField
    const isSuperuser: ValidatedField
    const isActive: ValidatedField

    /** Every descriptor has been named by `__set_name__` after its attribute and has the declared type. */
    predicate Valid()
      reads email, password, createdAt, updatedAt, firstName, lastName, isSuperuser, isActive
    {
      && email.Named() && email.Spec() == EmailField
      && password.Named() && password.Spec() == PasswordField
      && createdAt.Named() && createdAt.Spec() == CreatedAtField
      && updatedAt.Named() && updatedAt.Spec() == UpdatedAtField
      && firstName.Named() && firstName.Spec() == FirstNameField
      && lastName.Named() && lastName.Spec() == LastNameField
      && isSuperuser.Named() && isSuperuser.Spec() == IsSuperuserField
      && isActive.Named() && isActive.Spec() == IsActiveField
    }

    /** Class creation: each descriptor is built, then named after the attribute it is bound to. */
    constructor()
      ensures Valid()
    {
      var e := new ValidatedField(VoType(UserEmailVo), false);
      e.SetName("email");
      var p := new ValidatedField(VoType(UserPasswordVo), false);
      p.SetName("password");
      var c := new ValidatedField(VoType(UserCreatedAtVo), true);
      c.SetName("created_at");
      var u := new ValidatedField(VoType(UserUpdatedAtVo), true);
      u.SetName("updated_at");
      var f := new ValidatedField(VoType(UserFirstNameVo), true);
      f.SetName("first_name");
      var l := new ValidatedField(VoType(UserLastNameVo), true);
      l.SetName("last_name");
      var s := new ValidatedField(BoolType, true);
      s.SetName("is_superuser");
      var a := new ValidatedField(BoolType, true);
      a.SetName("is_active");
      email, password, createdAt, updatedAt := e, p, c, u;
      firstName, lastName, isSuperuser, isActive := f, l, s, a;
    }
  }

  /** One assignment `self.<field> = value`, which Python hands to the field's descriptor. */
  method AssignField(field: ValidatedField, spec: FieldSpec, self: Instance, value: PyValue) returns (err: Option<Exc>)
    requires field.Named() && field.Spec() == spec
    modifies self
    ensures Store(spec, old(self.dict), value).Success? ==> err.None? && self.dict == Store(spec, old(self.dict), value).value
    ensures Store(spec, old(self.dict), value).Failure? ==>
      err == Some(Store(spec, old(self.dict), value).error) && self.dict == old(self.dict)
  {
    err := field.Set(self, value);
  }

  /** `self.email = email; self.password = password`, through the descriptors. */
  method AssignCredentials(cls: UserEntityClass, self: Instance, email: PyValue, password: PyValue)
    returns (err: Option<Exc>)
    requires cls.Valid()
    modifies self
    ensures err.None? <==> StoreCredentials(email, password).Success?
    ensures err.None? ==> self.dict == old(self.dict) + StoreCredentials(email, password).value
    ensures err.Some? ==> err.value == StoreCredentials(email, password).error
  {
    SlotNames();
    err := AssignField(cls.email, EmailField, self, email);
    if err.Some? {
      return;
    }
    err := AssignField(cls.password, PasswordField, self, password);
  }

  /** The two timestamp assignments, the second reading the first back through its descriptor. */
  method AssignTimestamps(cls: UserEntityClass, self: Instance, createdAt: PyValue, updatedAt: PyValue, now: PyValue)
    returns (err: Option<Exc>)
    requires cls.Valid() && now.PyDatetime?
    modifies self
    ensures err.None? <==> StoreTimestamps(old(self.dict), createdAt, updatedAt, now).Success?
    ensures err.None? ==> self.dict == StoreTimestamps(old(self.dict), createdAt, updatedAt, now).value
    ensures err.Some? ==> err.value == StoreTimestamps(old(self.dict), createdAt, updatedAt, now).error
  {
    err := AssignCreatedAt(cls, self, createdAt, now);
    if err.Some? {
      return;
    }
    err := AssignUpdatedAt(cls, self, updatedAt);
  }

  /** `self.created_at = created_at or UserCreatedAtVo(now)`, through the descriptor. */
  method AssignCreatedAt(cls: UserEntityClass, self: Instance, createdAt: PyValue, now: PyValue)
    returns (err: Option<Exc>)
    requires cls.Valid() && now.PyDatetime?
    modifies self
    ensures err.None? <==> StoreCreatedAt(old(self.dict), createdAt, now).Success?
    ensures err.None? ==> self.dict == StoreCreatedAt(old(self.dict), createdAt, now).value
    ensures err.Some? ==> err.value == StoreCreatedAt(old(self.dict), createdAt, now).error
  {
    var created := createdAt;
    if !Truthy(created) {
      var made := ConstructTypeOnly(UserCreatedAtVo, now);
      created := made.value;
    }
    err := AssignField(cls.createdAt, CreatedAtField, self, created);
  }

  /** `self.updated_at = updated_at or UserUpdatedAtVo(self.created_at.value)`, reading created-at through its descriptor. */
  method AssignUpdatedAt(cls: UserEntityClass, self: Instance, updatedAt: PyValue) returns (err: Option<Exc>)
    requires cls.Valid()
    modifies self
    ensures err.None? <==> StoreUpdatedAt(old(self.dict), updatedAt).Success?
    ensures err.None? ==> self.dict == StoreUpdatedAt(old(self.dict), updatedAt).value
    ensures err.Some? ==> err.value == StoreUpdatedAt(old(self.dict), updatedAt).error
  {
    var got := cls.createdAt.Get(self);
    var updated := updatedAt;
    if !Truthy(updated) {
      var made := ConstructTypeOnly(UserUpdatedAtVo, Payload(got.value.v));
      if made.Failure? {
        return Some(made.error);
      }
      updated := made.value;
    }
    err := AssignField(cls.updatedAt, UpdatedAtField, self, updated);
  }

  /** The name and flag assignments, through the descriptors. */
  method AssignProfile(cls: UserEntityClass, self: Instance, firstName: PyValue, lastName: PyValue,
                       isSuperuser: PyValue, isActive: PyValue) returns (err: Option<Exc>)
    requires cls.Valid()
    modifies self
    ensures err.None? <==> StoreProfile(old(self.dict), firstName, lastName, isSuperuser, isActive).Success?
    ensures err.None? ==> self.dict == StoreProfile(old(self.dict), firstName, lastName, isSuperuser, isActive).value
    ensures err.Some? ==> err.value == StoreProfile(old(self.dict), firstName, lastName, isSuperuser, isActive).error
  {
    err := AssignNames(cls, self, firstName, lastName);
    if err.Some? {
      return;
    }
    err := AssignFlags(cls, self, isSuperuser, isActive);
  }

  /** The two name assignments. */
  method AssignNames(cls: UserEntityClass, self: Instance, firstName: PyValue, lastName: PyValue) returns (err: Option<Exc>)
    requires cls.Valid()
    modifies self
    ensures err.None? <==> StoreNames(old(self.dict), firstName, lastName).Success?
    ensures err.None? ==> self.dict == StoreNames(old(self.dict), firstName, lastName).value
    ensures err.Some? ==> err.value == StoreNames(old(self.dict), firstName, lastName).error
  {
    err := AssignField(cls.firstName, FirstNameField, self, firstName);
    if err.Some? {
      return;
    }
    err := AssignField(cls.lastName, LastNameField, self, lastName);
  }

  /** The two flag assignments. */
  method AssignFlags(cls: UserEntityClass, self: Instance, isSuperuser: PyValue, isActive: PyValue) returns (err: Option<Exc>)
    requires cls.Valid()
    modifies self
    ensures err.None? <==> StoreFlags(old(self.dict), isSuperuser, isActive).Success?
    ensures err.None? ==> self.dict == StoreFlags(old(self.dict), isSuperuser, isActive).value
    ensures err.Some? ==> err.value == StoreFlags(old(self.dict), isSuperuser, isActive).error
  {
    err := AssignField(cls.isSuperuser, IsSuperuserField, self, isSuperuser);
    if err.Some? {
      return;
    }
    err := AssignField(cls.isActive, IsActiveField, self, isActive);
  }

  /** `UserEntity(...)`: a fresh instance filled assignment by assignment through the descriptors. */
  method Init(cls: UserEntityClass, email: PyValue, password: PyValue, createdAt: PyValue, updatedAt: PyValue,
              firstName: PyValue, lastName: PyValue, isSuperuser: PyValue, isActive: PyValue, id: PyValue,
              now: PyValue, freshUuid: PyValue) returns (r: Result<Instance, Exc>)
    requires cls.Valid()
    requires now.PyDatetime? && freshUuid.PyUuid?
    ensures var s := InitialState(email, password, createdAt, updatedAt, firstName, lastName, isSuperuser, isActive,
                                  id, now, freshUuid);
      && (r.Success? <==> s.Success?)
      && (r.Success? ==> fresh(r.value) && r.value.dict == s.value)
      && (r.Failure? ==> r.error == s.error)
  {
    var self := new Instance();
    var err := AssignCredentials(cls, self, email, password);
    if err.Some? {
      CredentialsFailurePropagates(email, password, createdAt, updatedAt, firstName, lastName, isSuperuser, isActive, id, now, freshUuid);
      return Failure(err.value);
    }
    ghost var c := self.dict;
    assert c == StoreCredentials(email, password).value;
    err := AssignTimestamps(cls, self, createdAt, updatedAt, now);
    if err.Some? {
      TimestampsFailurePropagates(email, password, createdAt, updatedAt, firstName, lastName, isSuperuser, isActive, id, now, freshUuid, c);
      return Failure(err.value);
    }
    ghost var t := self.dict;
    err := AssignProfile(cls, self, firstName, lastName, isSuperuser, isActive);
    if err.Some? {
      ProfileFailurePropagates(email, password, createdAt, updatedAt, firstName, lastName, isSuperuser, isActive, id, now, freshUuid, c, t);
      return Failure(err.value);
    }
    ghost var p := self.dict;
    StagesCompose(email, password, createdAt, updatedAt, firstName, lastName, isSuperuser, isActive, id, now, freshUuid, c, t, p);
    AssignId(self, id, freshUuid);
    r := Success(self);
  }

  /** `self._id = id_ or UserIdVo(uuid4())`, on the instance. */
  method AssignId(self: Instance, id: PyValue, freshUuid: PyValue)
    requires freshUuid.PyUuid?
    modifies self
    ensures self.dict == StoreId(old(self.dict), id, freshUuid).value
  {
    var identifier := id;
    if !Truthy(identifier) {
      var made := ConstructTypeOnly(UserIdVo, freshUuid);
      identifier := made.value;
    }
    self.dict := self.dict[IdSlot := identifier];
  }

  /** The `id` property's getter: `self._id`. */
  method GetId(self: Instance) returns (r: Result<PyValue, Exc>)
    ensures IdSlot in self.dict ==> r == Success(self.dict[IdSlot])
    ensures IdSlot !in self.dict ==> r == Failure(NoIdAttribute)
  {
    if IdSlot in self.dict {
      r := Success(self.dict[IdSlot]);
    } else {
      r := Failure(NoIdAttribute);
    }
  }

  /** The `id` property's setter; a refused value leaves the entity as it was. */
  method SetId(self: Instance, value: PyValue) returns (err: Option<Exc>)
    modifies self
    ensures IdSetOutcome(old(self.dict), value).Success? ==> err.None? && self.dict == IdSetOutcome(old(self.dict), value).value
    ensures IdSetOutcome(old(self.dict), value).Failure? ==>
      err == Some(IdSetOutcome(old(self.dict), value).error) && self.dict == old(self.dict)
  {
    var current := GetId(self);
    if current.Failure? {
      return Some(current.error);
    }
    if current.value != PyNone {
      return Some(ForeignExc(AttributeError, "Item ID уже установлен."));
    }
    if !IsInstance(value, VoType(UserIdVo)) {
      return Some(Raise(Violation(InvalidTypeError, IdTypeArgs(value))));
    }
    self.dict := self.dict[IdSlot := value];
    err := None;
  }
}
