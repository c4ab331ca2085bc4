/**
 * The frozen value objects of the shared and the user value-object modules:
 * type checks, the sign checks of `PositiveIntVo`, the stripped-length
 * bounds of `StrWithSizeVo` and the address checks of `UserEmailVo`.
 *
 * `StrWithSizeVo` reads its bounds with `getattr(self, "MIN_SIZE", None)`
 * and `getattr(self, "MAX_SIZE", None)`, while the user classes declare
 * `_MIN_SIZE` and `_MAX_SIZE`. `Construct` takes the pair of attribute names
 * as a parameter: `AsWritten` is what the code reads, `Intended` is what the
 * subclasses declare.
 */
module ValueObjects {
  import opened Wrappers
  import opened PyText
  import opened PyValues
  import opened Templates
  import opened Errors

  const MIN_PASSWORD_LENGTH := 5
  const MAX_PASSWORD_LENGTH := 15
  const MIN_EMAIL_LENGTH := 5
  const MAX_EMAIL_LENGTH := 254
  const MAX_NAME_LENGTH := 30

  /** Which class attributes hold the size bounds. */
  datatype SizeNames = SizeNames(min: string, max: string)

  const AsWritten := SizeNames("MIN_SIZE", "MAX_SIZE")
  const Intended := SizeNames("_MIN_SIZE", "_MAX_SIZE")

  /** The integer class variables each value-object class declares in its own body. */
  function DeclaredClassVar(c: VoClass, name: string): Option<int> {
    match c
    case UserPasswordVo =>
      if name == "_MIN_SIZE" then Some(MIN_PASSWORD_LENGTH)
      else if name == "_MAX_SIZE" then Some(MAX_PASSWORD_LENGTH) else None
    case UserFirstNameVo | UserLastNameVo =>
      if name == "_MAX_SIZE" then Some(MAX_NAME_LENGTH) else None
    case UserEmailVo =>
      if name == "_MIN_SIZE" then Some(MIN_EMAIL_LENGTH)
      else if name == "_MAX_SIZE" then Some(MAX_EMAIL_LENGTH) else None
    case _ => None
  }

  /** `getattr(self, name, None)` on an instance of `c`: the nearest declaration along the bases. */
  function ClassVar(c: VoClass, name: string): Option<int>
    decreases VoDepth(c)
  {
    if DeclaredClassVar(c, name).Some? then DeclaredClassVar(c, name)
    else if VoBase(c).Some? && VoDepth(VoBase(c).value) < VoDepth(c) then ClassVar(VoBase(c).value, name)
    else None
  }

  /** No class declares an attribute whose name does not start with an underscore. */
  lemma {:induction false} NoPlainClassVars(c: VoClass, name: string)
    requires name == [] || name[0] != '_'
    ensures ClassVar(c, name).None?
    decreases VoDepth(c)
  {
    if VoBase(c).Some? && VoDepth(VoBase(c).value) < VoDepth(c) {
      NoPlainClassVars(VoBase(c).value, name);
    }
  }

  /** A failed check: the error class and the `message_to_extend` it is raised with. */
  datatype Violation = Violation(kind: Kind, args: map<string, PyValue>)

  /** The exception `kind(message_to_extend=args)` raises: the error itself, or the `KeyError` of filling it. */
  function Raise(v: Violation): Exc {
    var r := NewError(v.kind, None, None, Some(v.args), None, NotPassed);
    if r.Success? then r.value else r.error
  }

  /** The keyword map of an `InvalidTypeError` raised by a type check. */
  function TypeArgs(expected: string, attr: string, v: PyValue): map<string, PyValue> {
    map["expected_type" := PyStr(expected), "attr_name" := PyStr(attr),
        "actual_type" := PyStr(TypeName(v)), "value" := v]
  }

  /** The root of a value-object class: the base whose `__post_init__` type check it inherits. */
  function Root(c: VoClass): VoClass {
    match c
    case UuidVo | UserIdVo => UuidVo
    case IntVo | PositiveIntVo => IntVo
    case DatetimeVo | UserCreatedAtVo | UserUpdatedAtVo => DatetimeVo
    case _ => StrVo
  }

  /** The classes that derive from `StrWithSizeVo`, and it itself. */
  predicate IsSized(c: VoClass) {
    match c
    case StrWithSizeVo | UserPasswordVo | UserFirstNameVo | UserLastNameVo | UserEmailVo => true
    case _ => false
  }

  /** `Root` and `IsSized` agree with the class hierarchy. */
  lemma {:induction false} RootsAgree(c: VoClass)
    ensures IsSubVo(c, Root(c)) && VoBase(Root(c)).None?
    ensures IsSized(c) <==> IsSubVo(c, StrWithSizeVo)
  {
  }

  /** The `isinstance` test of a root class. */
  predicate HasRootType(root: VoClass, v: PyValue) {
    match root
    case UuidVo => v.PyUuid?
    case IntVo => IsInt(v)
    case DatetimeVo => v.PyDatetime?
    case _ => v.PyStr?
  }

  /** The `expected_type` a root class reports. */
  function ExpectedType(root: VoClass): string {
    match root
    case UuidVo => "UUID"
    case IntVo => "int"
    case DatetimeVo => "datetime"
    case _ => "str"
  }

  /** The `attr_name` a root class reports: "value of" and the root's own name, whatever the subclass. */
  function RootAttrName(root: VoClass): string {
    match root
    case UuidVo => "value of UuidVo"
    case IntVo => "value of IntVo"
    case DatetimeVo => "value of DatetimeVo"
    case _ => "value of StrVo"
  }

  /** The type check of the class's root, which names the root class in its `attr_name`. */
  function TypeCheck(c: VoClass, v: PyValue): (r: Option<Violation>)
    ensures r.None? <==> HasRootType(Root(c), v)
    ensures r.Some? ==> r.value == Violation(InvalidTypeError, TypeArgs(ExpectedType(Root(c)), RootAttrName(Root(c)), v))
  {
    match c
    case UuidVo | UserIdVo =>
      if v.PyUuid? then None else Some(Violation(InvalidTypeError, TypeArgs("UUID", "value of UuidVo", v)))
    case IntVo | PositiveIntVo =>
      if IsInt(v) then None else Some(Violation(InvalidTypeError, TypeArgs("int", "value of IntVo", v)))
    case DatetimeVo | UserCreatedAtVo | UserUpdatedAtVo =>
      if v.PyDatetime? then None else Some(Violation(InvalidTypeError, TypeArgs("datetime", "value of DatetimeVo", v)))
    case _ =>
      if v.PyStr? then None else Some(Violation(InvalidTypeError, TypeArgs("str", "value of StrVo", v)))
  }

  /** `PositiveIntVo`'s sign checks on an integer. */
  function SignCheck(v: PyValue): (r: Option<Violation>)
    requires IsInt(v)
    ensures r.None? <==> IntOf(v) > 0
    ensures IntOf(v) < 0 ==> r == Some(Violation(FieldNegativeError, map["attr_name" := PyStr("value of PositiveIntVo"), "value" := v]))
    ensures IntOf(v) == 0 ==> r == Some(Violation(FieldZeroError, map["attr_name" := PyStr("value of PositiveIntVo")]))
  {
    if IntOf(v) < 0 then Some(Violation(FieldNegativeError, map["attr_name" := PyStr("value of PositiveIntVo"), "value" := v]))
    else if IntOf(v) == 0 then Some(Violation(FieldZeroError, map["attr_name" := PyStr("value of PositiveIntVo")]))
    else None
  }

  /** The keyword map of a `FieldTooShortError`. */
  function TooShortArgs(c: VoClass, min: int, length: nat, s: string): map<string, PyValue> {
    map["attr_name" := PyStr(VoClassName(c)), "min_length" := PyInt(min),
        "current_length" := PyInt(length), "value" := PyStr(s)]
  }

  /** The keyword map of a `FieldTooLongError`. */
  function TooLongArgs(c: VoClass, max: int, length: nat, s: string): map<string, PyValue> {
    map["attr_name" := PyStr(VoClassName(c)), "max_length" := PyInt(max),
        "current_length" := PyInt(length), "value" := PyStr(s)]
  }

  /**
   * `StrWithSizeVo`'s bound checks on the length of `s.strip()`, given the
   * bounds `getattr` finds: too short is tested first, and too long only
   * when it is not too short.
   */
  function SizeCheck(c: VoClass, s: string, min: Option<int>, max: Option<int>): (r: Option<Violation>)
    ensures r.None? <==> (min.None? || |Strip(s)| >= min.value) && (max.None? || |Strip(s)| <= max.value)
    ensures min.Some? && |Strip(s)| < min.value ==>
      r == Some(Violation(FieldTooShortError, TooShortArgs(c, min.value, |Strip(s)|, s)))
    ensures (min.None? || |Strip(s)| >= min.value) && max.Some? && |Strip(s)| > max.value ==>
      r == Some(Violation(FieldTooLongError, TooLongArgs(c, max.value, |Strip(s)|, s)))
  {
    var length := |Strip(s)|;
    if min.Some? && length < min.value then Some(Violation(FieldTooShortError, TooShortArgs(c, min.value, length, s)))
    else if max.Some? && length > max.value then Some(Violation(FieldTooLongError, TooLongArgs(c, max.value, length, s)))
    else None
  }

  /** The size check of class `c`, with the bounds read under `names`. */
  function SizeCheckOf(c: VoClass, s: string, names: SizeNames): Option<Violation> {
    SizeCheck(c, s, ClassVar(c, names.min), ClassVar(c, names.max))
  }

  /** `UserEmailVo._validate_email_format`: the expected format of the first check that fails. */
  function EmailFormat(s: string): (r: Option<string>)
    ensures r.None? <==>
      && '@' in s && |Split(s, '@')| == 2
      && Split(s, '@')[0] != "" && Split(s, '@')[1] != "" && '.' in Split(s, '@')[1]
    ensures '@' !in s ==> r == Some("email must contain @ symbol")
  {
    if '@' !in s then Some("email must contain @ symbol")
    else
      var parts := Split(s, '@');
      if |parts| != 2 then Some("email must have exactly one @ symbol")
      else if parts[0] == "" || parts[1] == "" then Some("email must have both local part and domain")
      else if '.' !in parts[1] then Some("domain must contain a dot")
      else None
  }

  /** The local part of a local-part rule violation, or `None`. */
  function LocalRules(local: string): (r: Option<string>)
    ensures r.None? <==> !StartsWith(local, ".") && !EndsWith(local, ".") && !Contains(local, "..")
  {
    if StartsWith(local, ".") || EndsWith(local, ".") then Some("local part cannot start or end with dot")
    else if Contains(local, "..") then Some("local part cannot contain consecutive dots")
    else None
  }

  /** `UserEmailVo._validate_specific_rules`, on `self.local_part`. */
  function EmailRules(s: string): Option<string> {
    LocalRules(Split(s, '@')[0])
  }

  /** The `InvalidFormatError` an email check raises. */
  function FormatError(s: string, expected: string): Violation {
    Violation(InvalidFormatError, map["attr_name" := PyStr("UserEmailVo"), "expected_format" := PyStr(expected),
                                   "value" := PyStr(s)])
  }

  /**
   * Constructing a value object of class `c` around `v`: the base class's
   * type check, then the class's own checks, the first failure winning.
   * Success yields the frozen instance.
   */
  function Construct(c: VoClass, v: PyValue, names: SizeNames): (r: Result<PyValue, Violation>)
    ensures r.Success? ==> r.value == PyVo(c, v)
    ensures TypeCheck(c, v).Some? ==> r == Failure(TypeCheck(c, v).value)
    ensures c == PositiveIntVo && IsInt(v) && SignCheck(v).Some? ==> r == Failure(SignCheck(v).value)
    ensures IsSized(c) && v.PyStr? && SizeCheckOf(c, v.s, names).Some? ==>
      r == Failure(SizeCheckOf(c, v.s, names).value)
    ensures c == UserEmailVo && v.PyStr? && SizeCheckOf(c, v.s, names).None? && EmailFormat(v.s).Some? ==>
      r == Failure(FormatError(v.s, EmailFormat(v.s).value))
    ensures c == UserEmailVo && v.PyStr? && SizeCheckOf(c, v.s, names).None? && EmailFormat(v.s).None? && EmailRules(v.s).Some?
      ==> r == Failure(FormatError(v.s, EmailRules(v.s).value))
    ensures r.Success? <==>
      && TypeCheck(c, v).None?
      && (c == PositiveIntVo && IsInt(v) ==> SignCheck(v).None?)
      && (IsSized(c) && v.PyStr? ==> SizeCheckOf(c, v.s, names).None?)
      && (c == UserEmailVo && v.PyStr? ==> EmailFormat(v.s).None? && EmailRules(v.s).None?)
  {
    if TypeCheck(c, v).Some? then Failure(TypeCheck(c, v).value)
    else if c == PositiveIntVo then
      if SignCheck(v).Some? then Failure(SignCheck(v).value) else Success(PyVo(c, v))
    else if IsSized(c) && v.PyStr? then
      var s := v.s;
      if SizeCheckOf(c, s, names).Some? then Failure(SizeCheckOf(c, s, names).value)
      else if c == UserEmailVo && EmailFormat(s).Some? then Failure(FormatError(s, EmailFormat(s).value))
      else if c == UserEmailVo && EmailRules(s).Some? then Failure(FormatError(s, EmailRules(s).value))
      else Success(PyVo(c, v))
    else Success(PyVo(c, v))
  }

  /** A violation whose arguments supply every placeholder of its class's template. */
  predicate WellFormed(vio: Violation) {
    MessageTemplate(vio.kind).Some? && Placeholders(MessageTemplate(vio.kind).value) <= vio.args.Keys
  }

  /** A well-formed violation raises its own error class, with the filled template as message. */
  lemma RaiseWellFormed(vio: Violation)
    requires WellFormed(vio)
    ensures Raise(vio).AppExc? && Raise(vio).kind == vio.kind
    ensures Success(Raise(vio).message) == Fill(MessageTemplate(vio.kind).value, vio.args)
    ensures Raise(vio).code.None? && Raise(vio).details == NotPassed && Raise(vio).context.None?
  {
    FilledMessage(vio.kind, None, vio.args, None, NotPassed);
  }

  /** The type check's violation is well formed. */
  lemma TypeCheckWellFormed(c: VoClass, v: PyValue)
    requires TypeCheck(c, v).Some?
    ensures WellFormed(TypeCheck(c, v).value)
  {
    var vio := TypeCheck(c, v).value;
    assert vio.kind == InvalidTypeError;
    assert vio.args.Keys == {"expected_type", "attr_name", "actual_type", "value"};
    assert MessageTemplate(InvalidTypeError) == Some(InvalidTypeTemplate);
    InvalidTypeHoles();
  }

  /** The sign checks' violations are well formed. */
  lemma SignCheckWellFormed(v: PyValue)
    requires IsInt(v) && SignCheck(v).Some?
    ensures WellFormed(SignCheck(v).value)
  {
    if IntOf(v) < 0 {
      FieldNegativeHoles();
    } else {
      FieldZeroHoles();
    }
  }

  /** A too-short violation is well formed. */
  lemma TooShortWellFormed(c: VoClass, min: int, n: nat, s: string)
    ensures WellFormed(Violation(FieldTooShortError, TooShortArgs(c, min, n, s)))
  {
    assert TooShortArgs(c, min, n, s).Keys == {"attr_name", "min_length", "current_length", "value"};
    assert MessageTemplate(FieldTooShortError) == Some(FieldTooShortTemplate);
    FieldTooShortHoles();
  }

  /** A too-long violation is well formed. */
  lemma TooLongWellFormed(c: VoClass, max: int, n: nat, s: string)
    ensures WellFormed(Violation(FieldTooLongError, TooLongArgs(c, max, n, s)))
  {
    assert TooLongArgs(c, max, n, s).Keys == {"attr_name", "max_length", "current_length", "value"};
    assert MessageTemplate(FieldTooLongError) == Some(FieldTooLongTemplate);
    FieldTooLongHoles();
  }

  /** The size checks' violations are well formed. */
  lemma SizeCheckWellFormed(c: VoClass, s: string, min: Option<int>, max: Option<int>)
    requires SizeCheck(c, s, min, max).Some?
    ensures WellFormed(SizeCheck(c, s, min, max).value)
  {
    if min.Some? && |Strip(s)| < min.value {
      TooShortWellFormed(c, min.value, |Strip(s)|, s);
    } else {
      TooLongWellFormed(c, max.value, |Strip(s)|, s);
    }
  }

  /** An email check's violation is well formed. */
  lemma FormatErrorWellFormed(s: string, expected: string)
    ensures WellFormed(FormatError(s, expected))
  {
    InvalidFormatHoles();
  }

  /** Every check supplies all the placeholders of the error it raises, so none of them raises a `KeyError` instead. */
  lemma {:induction false} ConstructViolationsWellFormed(c: VoClass, v: PyValue, names: SizeNames)
    ensures Construct(c, v, names).Failure? ==> WellFormed(Construct(c, v, names).error)
  {
    if TypeCheck(c, v).Some? {
      TypeCheckWellFormed(c, v);
    } else if c == PositiveIntVo {
      if SignCheck(v).Some? {
        SignCheckWellFormed(v);
      }
    } else if IsSized(c) && v.PyStr? {
      var s := v.s;
      if SizeCheckOf(c, s, names).Some? {
        SizeCheckWellFormed(c, s, ClassVar(c, names.min), ClassVar(c, names.max));
      } else if c == UserEmailVo && EmailFormat(s).Some? {
        FormatErrorWellFormed(s, EmailFormat(s).value);
      } else if c == UserEmailVo && EmailRules(s).Some? {
        FormatErrorWellFormed(s, EmailRules(s).value);
      }
    }
  }

  /** Every check raises one of the shared module's validation classes. */
  lemma {:induction false} ConstructErrorKinds(c: VoClass, v: PyValue, names: SizeNames)
    ensures Construct(c, v, names).Failure? ==> IsSharedValidation(Construct(c, v, names).error.kind)
  {
    if TypeCheck(c, v).None? && c != PositiveIntVo && IsSized(c) && v.PyStr? && SizeCheckOf(c, v.s, names).Some? {
      var s := v.s;
      var min, max := ClassVar(c, names.min), ClassVar(c, names.max);
      assert SizeCheck(c, s, min, max).value.kind == FieldTooShortError || SizeCheck(c, s, min, max).value.kind == FieldTooLongError;
    }
  }

  /**
   * Constructing the value object as Python does: the frozen instance, or
   * the shared-module exception its first failing check raises.
   */
  function Instantiate(c: VoClass, v: PyValue, names: SizeNames): (r: Result<PyValue, Exc>)
    ensures r.Success? <==> Construct(c, v, names).Success?
    ensures r.Success? ==> r.value == PyVo(c, v)
    ensures r.Failure? ==>
      && r.error.AppExc? && IsSharedValidation(r.error.kind)
      && r.error.kind == Construct(c, v, names).error.kind
      && r.error.code.None? && r.error.context.None?
  {
    match Construct(c, v, names)
    case Success(x) => Success(x)
    case Failure(vio) =>
      ConstructViolationsWellFormed(c, v, names);
      ConstructErrorKinds(c, v, names);
      RaiseWellFormed(vio);
      Failure(Raise(vio))
  }

  /** The identifier and timestamp classes, whose `__post_init__` checks the root type and nothing else. */
  predicate IsTypeOnly(c: VoClass) {
    c == UserIdVo || c == UserCreatedAtVo || c == UserUpdatedAtVo
  }

  /** Constructing an identifier or a timestamp: the instance, or the `InvalidTypeError` of the root type check. */
  function ConstructTypeOnly(c: VoClass, v: PyValue): Result<PyValue, Exc>
    requires IsTypeOnly(c)
  {
    if HasRootType(Root(c), v) then Success(PyVo(c, v))
    else Failure(Raise(Violation(InvalidTypeError, TypeArgs(ExpectedType(Root(c)), RootAttrName(Root(c)), v))))
  }

  /** For an identifier or timestamp class, instantiating is the type check alone, whatever the size attributes. */
  lemma {:induction false} UnsizedInstantiate(c: VoClass, v: PyValue, names: SizeNames)
    requires IsTypeOnly(c)
    ensures Instantiate(c, v, names) == ConstructTypeOnly(c, v)
  {
    assert c != PositiveIntVo && !IsSized(c);
  }

  /** `UserEmailVo.local_part`: what precedes the `@` of a constructed email. */
  function LocalPart(s: string): string
    requires EmailFormat(s).None?
  {
    Split(s, '@')[0]
  }

  /** `UserEmailVo.domain`: what follows the `@` of a constructed email. */
  function Domain(s: string): string
    requires EmailFormat(s).None?
  {
    Split(s, '@')[1]
  }

  /** A well-formed local part: non-empty, no `@`, no leading, trailing or doubled dot. */
  predicate GoodLocal(local: string) {
    local != "" && '@' !in local && local[0] != '.' && local[|local| - 1] != '.' && !Contains(local, "..")
  }

  /** A well-formed domain: non-empty, no `@`, at least one dot. */
  predicate GoodDomain(domain: string) {
    domain != "" && '@' !in domain && '.' in domain
  }

  /** An accepted address is its local part, an `@`, and its domain, each well formed. */
  lemma {:induction false} EmailAcceptedShape(s: string)
    requires EmailFormat(s).None? && EmailRules(s).None?
    ensures s == LocalPart(s) + "@" + Domain(s)
    ensures GoodLocal(LocalPart(s)) && GoodDomain(Domain(s))
  {
    var parts := Split(s, '@');
    assert Join(parts, '@') == s;
    assert parts[1..] == [parts[1]];
    assert '@' !in parts[0] && '@' !in parts[1];
    var local := parts[0];
    assert !StartsWith(local, ".") && !EndsWith(local, ".");
    assert local[..1] == [local[0]];
    assert local[|local| - 1..] == [local[|local| - 1]];
  }

  /** Conversely, a well-formed local part and domain joined by `@` pass every check, and split back. */
  lemma {:induction false} EmailAcceptsWellFormed(local: string, domain: string)
    requires GoodLocal(local) && GoodDomain(domain)
    ensures EmailFormat(local + "@" + domain).None? && EmailRules(local + "@" + domain).None?
    ensures LocalPart(local + "@" + domain) == local && Domain(local + "@" + domain) == domain
  {
    SplitAround(local, domain, '@');
    var s := local + "@" + domain;
    assert s == local + ['@'] + domain;
    assert '@' in s by {
      assert s[|local|] == '@';
    }
    assert !StartsWith(local, ".") by {
      assert local[..1] == [local[0]];
    }
    assert !EndsWith(local, ".") by {
      assert local[|local| - 1..] == [local[|local| - 1]];
    }
  }

  /** "user@example.com" is accepted, with local part "user" and domain "example.com". */
  lemma EmailExample()
    ensures EmailFormat("user@example.com").None? && EmailRules("user@example.com").None?
    ensures LocalPart("user@example.com") == "user" && Domain("user@example.com") == "example.com"
  {
    assert !Contains("user", "..") by {
      if Contains("user", "..") {
        ContainsFirst("user", "..");
      }
    }
    assert '.' in "example.com" by {
      assert "example.com"[7] == '.';
    }
    assert "user" + "@" + "example.com" == "user@example.com";
    EmailAcceptsWellFormed("user", "example.com");
  }

  /** Under the attribute names the code reads, no class has a bound. */
  lemma {:induction false} BoundsAsWritten(c: VoClass)
    ensures ClassVar(c, AsWritten.min).None? && ClassVar(c, AsWritten.max).None?
  {
    NoPlainClassVars(c, AsWritten.min);
    NoPlainClassVars(c, AsWritten.max);
  }

  /** As written, any string is a valid password, first name or last name, however short or long. */
  lemma {:induction false} BoundsIgnoredAsWritten(c: VoClass, s: string)
    requires c == UserPasswordVo || c == UserFirstNameVo || c == UserLastNameVo
    ensures Construct(c, PyStr(s), AsWritten) == Success(PyVo(c, PyStr(s)))
  {
    BoundsAsWritten(c);
  }

  /** As written, the empty string is a valid password. */
  lemma EmptyPasswordAsWritten()
    ensures Construct(UserPasswordVo, PyStr(""), AsWritten).Success?
  {
    BoundsIgnoredAsWritten(UserPasswordVo, "");
  }

  /** The bounds `getattr` finds under the declared attribute names. */
  lemma {:induction false} IntendedClassVars(c: VoClass)
    ensures c == UserPasswordVo ==>
      ClassVar(c, Intended.min) == Some(MIN_PASSWORD_LENGTH) && ClassVar(c, Intended.max) == Some(MAX_PASSWORD_LENGTH)
    ensures c == UserFirstNameVo || c == UserLastNameVo ==>
      ClassVar(c, Intended.min).None? && ClassVar(c, Intended.max) == Some(MAX_NAME_LENGTH)
    ensures c == UserEmailVo ==>
      ClassVar(c, Intended.min) == Some(MIN_EMAIL_LENGTH) && ClassVar(c, Intended.max) == Some(MAX_EMAIL_LENGTH)
    ensures c == StrWithSizeVo ==> ClassVar(c, Intended.min).None? && ClassVar(c, Intended.max).None?
  {
    assert ClassVar(StrVo, Intended.min).None?;
    assert ClassVar(StrWithSizeVo, Intended.min).None?;
    assert ClassVar(StrWithSizeVo, Intended.max).None?;
  }

  /** With the declared attribute names, each user class enforces its bounds on the stripped length. */
  lemma {:induction false} IntendedBounds(c: VoClass, s: string)
    requires c == UserPasswordVo || c == UserFirstNameVo || c == UserLastNameVo
    ensures c == UserPasswordVo ==>
      (Construct(c, PyStr(s), Intended).Success? <==> MIN_PASSWORD_LENGTH <= |Strip(s)| <= MAX_PASSWORD_LENGTH)
    ensures c != UserPasswordVo ==>
      (Construct(c, PyStr(s), Intended).Success? <==> |Strip(s)| <= MAX_NAME_LENGTH)
  {
    IntendedClassVars(c);
    SizeOnlyChecks(c, s, Intended);
  }

  /** A password or name string passes exactly when its size check does. */
  lemma {:induction false} SizeOnlyChecks(c: VoClass, s: string, names: SizeNames)
    requires c == UserPasswordVo || c == UserFirstNameVo || c == UserLastNameVo
    ensures Construct(c, PyStr(s), names).Success? <==> SizeCheckOf(c, s, names).None?
  {
    assert TypeCheck(c, PyStr(s)).None? && IsSized(c) && c != PositiveIntVo && c != UserEmailVo;
  }

  /** A string too short for the minimum raises `FieldTooShortError` even when it also breaks the maximum. */
  lemma {:induction false} TooShortTakesPrecedence(c: VoClass, s: string, names: SizeNames)
    requires IsSized(c)
    requires ClassVar(c, names.min).Some? && |Strip(s)| < ClassVar(c, names.min).value
    ensures Construct(c, PyStr(s), names).Failure?
    ensures Construct(c, PyStr(s), names).error
      == Violation(FieldTooShortError, TooShortArgs(c, ClassVar(c, names.min).value, |Strip(s)|, s))
  {
    assert TypeCheck(c, PyStr(s)).None?;
  }

  /** For an email the checks run in order: a non-string fails the type check before anything else. */
  lemma {:induction false} EmailTypeFirst(v: PyValue, names: SizeNames)
    requires !v.PyStr?
    ensures Construct(UserEmailVo, v, names) == Failure(Violation(InvalidTypeError, TypeArgs("str", "value of StrVo", v)))
  {
  }

  /** With the declared bounds, a too-short address fails on its length, not on its format. */
  lemma EmailSizeBeforeFormat()
    ensures Construct(UserEmailVo, PyStr("a"), Intended)
      == Failure(Violation(FieldTooShortError, TooShortArgs(UserEmailVo, MIN_EMAIL_LENGTH, 1, "a")))
  {
    StripPadded([], "a", []);
    assert [] + "a" + [] == "a";
    IntendedClassVars(UserEmailVo);
    TooShortTakesPrecedence(UserEmailVo, "a", Intended);
  }

  /** As written no bound is found, so a one-character address reaches the format check and fails there, for want of `@`. */
  lemma EmailFormatAsWritten()
    ensures Construct(UserEmailVo, PyStr("a"), AsWritten) == Failure(FormatError("a", "email must contain @ symbol"))
  {
    BoundsAsWritten(UserEmailVo);
    assert "a"[0] != '@';
  }

  /** `PositiveIntVo` accepts exactly the positive integers, `True` among them. */
  lemma {:induction false} PositiveInts(v: PyValue, names: SizeNames)
    ensures Construct(PositiveIntVo, v, names).Success? <==> IsInt(v) && IntOf(v) > 0
    ensures Construct(PositiveIntVo, PyBool(true), names).Success?
    ensures Construct(PositiveIntVo, PyInt(0), names) == Failure(Violation(FieldZeroError, map["attr_name" := PyStr("value of PositiveIntVo")]))
  {
  }
}
