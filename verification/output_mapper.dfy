/**
 * `UserDomainMapper.entity_to_output_dto`: a user entity to the
 * `UserOutputDto` the use cases return.
 *
 * As written the mapper passes every field of `UserOutputDto` but
 * `password`, which the dataclass requires and does not default, so the
 * call raises `TypeError` once its arguments have been read.
 * `EntityToOutputDto` is the mapping that passes the password too.
 */
module UserDomainMapper {
  import opened Wrappers
  import opened PyValues
  import opened Errors
  import opened ValueObjects
  import opened Descriptors
  import opened UserEntities
  import opened UserMapper

  /** A `UserOutputDto`, its fields in declaration order. */
  datatype OutputDto = OutputDto(id: PyValue, email: PyValue, password: PyValue, createdAt: PyValue, updatedAt: PyValue,
                                 firstName: PyValue, lastName: PyValue, isSuperuser: PyValue, isActive: PyValue)

  /** The keyword arguments the mapper reads off the entity, `password` not among them. */
  datatype OutputArgs = OutputArgs(id: PyValue, email: PyValue, createdAt: PyValue, updatedAt: PyValue,
                                   firstName: PyValue, lastName: PyValue, isSuperuser: PyValue, isActive: PyValue)

  /** The `TypeError` of a dataclass constructor called without its `password` field. */
  const MissingPassword := "UserOutputDto.__init__() missing 1 required positional argument: 'password'"

  /** The mapper's keyword arguments, read in order; the first error raised ends it. */
  function OutputArguments(d: map<string, PyValue>): Result<OutputArgs, Exc> {
    var id :- EntityId(d);
    var idValue :- ValueOf(id);
    var email :- Load(EmailField, d);
    var emailValue :- ValueOf(email);
    // the remaining fields are nullable, so reading them never fails
    var createdAtValue :- ValueOf(Load(CreatedAtField, d).value);
    var updatedAtValue :- ValueOf(Load(UpdatedAtField, d).value);
    var firstNameValue :- OptionalValueOf(Load(FirstNameField, d).value);
    var lastNameValue :- OptionalValueOf(Load(LastNameField, d).value);
    Success(OutputArgs(idValue, emailValue, createdAtValue, updatedAtValue, firstNameValue, lastNameValue,
                       Load(IsSuperuserField, d).value, Load(IsActiveField, d).value))
  }

  /** `entity_to_output_dto` as written: the arguments are read, then the constructor refuses the call. */
  function EntityToOutputDtoAsWritten(d: map<string, PyValue>): Result<OutputDto, Exc> {
    var args :- OutputArguments(d);
    Failure(ForeignExc(TypeError, MissingPassword))
  }

  /** `entity_to_output_dto` with `password=entity.password.value` among its arguments. */
  function EntityToOutputDto(d: map<string, PyValue>): Result<OutputDto, Exc> {
    var args :- OutputArguments(d);
    var password :- Load(PasswordField, d);
    var passwordValue :- ValueOf(password);
    Success(OutputDto(args.id, args.email, passwordValue, args.createdAt, args.updatedAt,
                      args.firstName, args.lastName, args.isSuperuser, args.isActive))
  }

  /**
   * As written the mapper never returns: it fails with the error of the
   * first attribute it cannot read, an `AttributeError`, or else with the
   * constructor's `TypeError`.
   */
  lemma {:induction false} OutputAsWrittenFails(d: map<string, PyValue>)
    ensures EntityToOutputDtoAsWritten(d).Failure?
    ensures var e := EntityToOutputDtoAsWritten(d).error;
      e.ForeignExc? && (e.cls == AttributeError || e == ForeignExc(TypeError, MissingPassword))
    ensures OutputArguments(d).Success? ==> EntityToOutputDtoAsWritten(d) == Failure(ForeignExc(TypeError, MissingPassword))
  {
    if OutputArguments(d).Failure? {
      OutputArgumentsFail(d);
    }
  }

  /** Reading the mapper's arguments fails only with an `AttributeError`. */
  lemma {:induction false} OutputArgumentsFail(d: map<string, PyValue>)
    requires OutputArguments(d).Failure?
    ensures OutputArguments(d).error.ForeignExc? && OutputArguments(d).error.cls == AttributeError
  {
    var id := EntityId(d);
    if id.Success? && ValueOf(id.value).Success? {
      var email := Load(EmailField, d);
      if email.Success? {
        assert ValueOf(email.value).Failure? || OutputArguments(d).error.cls == AttributeError;
      }
    }
  }

  /**
   * An entity whose id, email, password and timestamps are value objects,
   * and whose names are value objects or `None`, maps to the payloads of
   * its value objects, `None` for an absent name, and its flags as stored.
   */
  lemma {:induction false} OutputOfEntity(id: PyValue, email: PyValue, password: PyValue, createdAt: PyValue,
                                          updatedAt: PyValue, firstName: PyValue, lastName: PyValue,
                                          isSuperuser: PyValue, isActive: PyValue)
    requires id.PyVo? && email.PyVo? && password.PyVo? && createdAt.PyVo? && updatedAt.PyVo?
    requires OptionalVo(firstName, UserFirstNameVo) && OptionalVo(lastName, UserLastNameVo)
    ensures EntityToOutputDto(EntityDict(id, email, password, createdAt, updatedAt, firstName, lastName, isSuperuser, isActive))
      == Success(OutputDto(id.value, email.value, password.value, createdAt.value, updatedAt.value,
                           Payload(firstName), Payload(lastName), isSuperuser, isActive))
  {
    EntityDictLoads(id, email, password, createdAt, updatedAt, firstName, lastName, isSuperuser, isActive);
    EntityDictStamps(id, email, password, createdAt, updatedAt, firstName, lastName, isSuperuser, isActive);
  }

  /**
   * The output and the `users` row of one entity agree: whenever both
   * mappings succeed they carry the same id, email, password, names and
   * flags.
   */
  lemma {:induction false} OutputAgreesWithRow(d: map<string, PyValue>)
    requires EntityToOutputDto(d).Success? && EntityToModel(d).Success?
    ensures var o := EntityToOutputDto(d).value;
      var row := EntityToModel(d).value;
      && o.id == row.id && o.email == row.email && o.password == row.password
      && o.firstName == row.firstName && o.lastName == row.lastName
      && o.isSuperuser == row.isSuperuser && o.isActive == row.isActive
  {
  }
}
