/**
 * The `ValidatedField` descriptor: a class-level object that guards one
 * per-instance slot, named `_<field>`, with a `None` check and a type check.
 *
 * `FieldSpec`, `Store` and `Load` state what `__set__` and `__get__` do to
 * and with an instance's attribute dict; the `ValidatedField` class is the
 * descriptor object itself, whose methods are proved to act on an `Instance`
 * as those functions say.
 */
module Descriptors {
  import opened Wrappers
  import opened PyValues
  import opened Errors

  /** The `expected_type` of a field: a value-object class, or `bool`. */
  datatype FieldType = VoType(cls: VoClass) | BoolType

  /** `expected_type.__name__`. */
  function FieldTypeName(t: FieldType): string {
    match t
    case VoType(c) => VoClassName(c)
    case BoolType => "bool"
  }

  /** `isinstance(value, expected_type)`. */
  predicate IsInstance(v: PyValue, t: FieldType) {
    match t
    case VoType(c) => v.PyVo? && IsSubVo(v.cls, c)
    case BoolType => v.PyBool?
  }

  /** A named descriptor: the field name `__set_name__` gave it, its type and whether it takes `None`. */
  datatype FieldSpec = FieldSpec(name: string, expectedType: FieldType, nullable: bool)

  /** The slot a field stores its value in. */
  function PrivateName(name: string): string {
    "_" + name
  }

  /** A value the field takes: `None` only where it is nullable, otherwise an instance of its type. */
  predicate Accepts(f: FieldSpec, v: PyValue) {
    if v == PyNone then f.nullable else IsInstance(v, f.expectedType)
  }

  /** The exception `__set__` raises for `value`, if any. */
  function SetCheck(f: FieldSpec, value: PyValue): (r: Option<Exc>)
    ensures r.None? <==> Accepts(f, value)
  {
    if value == PyNone && !f.nullable then
      Some(ForeignExc(ValueError, "Поле '" + f.name + "' не может быть None."))
    else if value != PyNone && !IsInstance(value, f.expectedType) then
      Some(ForeignExc(TypeError, "Поле '" + f.name + "' должно быть типа " + FieldTypeName(f.expectedType)
                                 + ", получено: " + TypeName(value)))
    else None
  }

  /** `None` on a non-nullable field is a `ValueError`; a value of the wrong type is a `TypeError` naming both types. */
  lemma {:induction false} SetCheckRefusals(f: FieldSpec, value: PyValue)
    ensures value == PyNone && !f.nullable ==>
      SetCheck(f, value) == Some(ForeignExc(ValueError, "Поле '" + f.name + "' не может быть None."))
    ensures value != PyNone && !IsInstance(value, f.expectedType) ==>
      SetCheck(f, value) == Some(ForeignExc(TypeError, "Поле '" + f.name + "' должно быть типа "
                                                       + FieldTypeName(f.expectedType) + ", получено: " + TypeName(value)))
  {
  }

  /** The attribute dict after `__set__` stores `value`, or the exception it raises instead. */
  function Store(f: FieldSpec, d: map<string, PyValue>, value: PyValue): Result<map<string, PyValue>, Exc> {
    if SetCheck(f, value).Some? then Failure(SetCheck(f, value).value) else Success(d[PrivateName(f.name) := value])
  }

  /** What `__get__` returns for an instance whose attribute dict is `d`, or the exception it raises. */
  function Load(f: FieldSpec, d: map<string, PyValue>): (r: Result<PyValue, Exc>)
    ensures r.Failure? <==> PrivateName(f.name) !in d && !f.nullable
    ensures r.Failure? ==> r.error == ForeignExc(AttributeError, "Поле '" + f.name + "' еще не инициализировано.")
  {
    var slot := PrivateName(f.name);
    if slot !in d && !f.nullable then
      Failure(ForeignExc(AttributeError, "Поле '" + f.name + "' еще не инициализировано."))
    else if slot in d then Success(d[slot])
    else Success(PyNone)
  }

  /** After a successful set, a get returns exactly the value set. */
  lemma {:induction false} StoreThenLoad(f: FieldSpec, d: map<string, PyValue>, value: PyValue)
    requires Store(f, d, value).Success?
    ensures Load(f, Store(f, d, value).value) == Success(value)
  {
  }

  /** A set touches its own slot only: a field with another name reads what it read before. */
  lemma {:induction false} StoreKeepsOthers(f: FieldSpec, g: FieldSpec, d: map<string, PyValue>, value: PyValue)
    requires Store(f, d, value).Success? && f.name != g.name
    ensures Load(g, Store(f, d, value).value) == Load(g, d)
  {
    assert PrivateName(f.name) != PrivateName(g.name) by {
      assert PrivateName(f.name)[1..] == f.name && PrivateName(g.name)[1..] == g.name;
    }
  }

  /** A get before any set fails on a non-nullable field and yields `None` on a nullable one. */
  lemma {:induction false} LoadUnset(f: FieldSpec, d: map<string, PyValue>)
    requires PrivateName(f.name) !in d
    ensures f.nullable ==> Load(f, d) == Success(PyNone)
    ensures !f.nullable ==> Load(f, d).Failure? && Load(f, d).error.cls == AttributeError
  {
  }

  /** The wrong type is refused whatever the nullable flag says. */
  lemma {:induction false} TypeCheckedEvenIfNullable(f: FieldSpec, d: map<string, PyValue>, value: PyValue)
    requires value != PyNone && !IsInstance(value, f.expectedType)
    ensures Store(f, d, value).Failure? && Store(f, d, value).error.cls == TypeError
    ensures Store(f.(nullable := true), d, value).Failure? && Store(f.(nullable := true), d, value).error.cls == TypeError
  {
  }

  /** An object's attribute dict. */
  class Instance {
    var dict: map<string, PyValue>

    constructor()
      ensures dict == map[]
    {
      dict := map[];
    }
  }

  /** What `__get__` returns: the descriptor itself on class-level access, otherwise the slot's value. */
  datatype Access = Itself | Value(v: PyValue)

  /** A `ValidatedField(expected_type, nullable)` object. */
  class ValidatedField {
    const expectedType: FieldType
    const nullable: bool
    var fieldName: Option<string>
    var privateName: Option<string>

    constructor(expectedType: FieldType, nullable: bool)
      ensures this.expectedType == expectedType && this.nullable == nullable
      ensures fieldName.None? && privateName.None?
    {
      this.expectedType := expectedType;
      this.nullable := nullable;
      fieldName := None;
      privateName := None;
    }

    /** `__set_name__`, which Python calls when the owning class is created. */
    method SetName(name: string)
      modifies this
      ensures fieldName == Some(name) && privateName == Some(PrivateName(name))
    {
      fieldName := Some(name);
      privateName := Some("_" + name);
    }

    /** The descriptor has been given its name. */
    predicate Named()
      reads this
    {
      fieldName.Some? && privateName == Some(PrivateName(fieldName.value))
    }

    /** The descriptor as a value. */
    function Spec(): FieldSpec
      reads this
      requires Named()
    {
      FieldSpec(fieldName.value, expectedType, nullable)
    }

    /** `__get__(instance, owner)`; `instance == null` is access through the class. */
    method Get(instance: Instance?) returns (r: Result<Access, Exc>)
      requires Named()
      ensures instance == null ==> r == Success(Itself)
      ensures instance != null && Load(Spec(), instance.dict).Success? ==> r == Success(Value(Load(Spec(), instance.dict).value))
      ensures instance != null && Load(Spec(), instance.dict).Failure? ==> r == Failure(Load(Spec(), instance.dict).error)
    {
      if instance == null {
        return Success(Itself);
      }
      var slot := privateName.value;
      if slot !in instance.dict && !nullable {
        return Failure(ForeignExc(AttributeError, "Поле '" + fieldName.value + "' еще не инициализировано."));
      }
      if slot in instance.dict {
        r := Success(Value(instance.dict[slot]));
      } else {
        r := Success(Value(PyNone));
      }
    }

    /** `__set__(instance, value)`: the exception raised, if any; a failed set leaves the instance as it was. */
    method Set(instance: Instance, value: PyValue) returns (err: Option<Exc>)
      requires Named()
      modifies instance
      ensures err == SetCheck(Spec(), value)
      ensures err.None? ==> instance.dict == Store(Spec(), old(instance.dict), value).value
      ensures err.Some? ==> instance.dict == old(instance.dict)
    {
      if value == PyNone && !nullable {
        return Some(ForeignExc(ValueError, "Поле '" + fieldName.value + "' не может быть None."));
      }
      if value != PyNone && !IsInstance(value, expectedType) {
        return Some(ForeignExc(TypeError, "Поле '" + fieldName.value + "' должно быть типа "
                                          + FieldTypeName(expectedType) + ", получено: " + TypeName(value)));
      }
      instance.dict := instance.dict[privateName.value := value];
      err := None;
    }
  }
}
