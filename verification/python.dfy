/** Option and Result, the failure-compatible wrappers used by every module. */
module Wrappers {
  datatype Option<+T> = None | Some(value: T)

  datatype Result<+T, +E> = Success(value: T) | Failure(error: E) {
    predicate IsFailure() { Failure? }

    function PropagateFailure<U>(): Result<U, E>
      requires Failure?
    {
      Failure(error)
    }

    function Extract(): T
      requires Success?
    {
      value
    }
  }
}

/**
 * The handful of Python `str` operations the core relies on, over Unicode
 * scalar values: `strip()`, `split()`, `split(c)`, `lower()`,
 * `capitalize()`, `replace(old, "")`, `in`, `startswith`/`endswith`, and
 * `str(int)`. Whitespace is Python's full set; case mapping covers the
 * ASCII letters and the two non-ASCII characters that lower-case to ASCII
 * text (U+0130 and U+212A), and leaves every other character as it is.
 */
module PyText {

  /** `str.isspace` for one character: the whitespace set `strip()` and `split()` use. */
  predicate IsSpace(c: char) {
    ('\t' <= c <= '\r') || ('\U{1C}' <= c <= ' ') || c == '\U{85}' || c == '\U{A0}'
    || c == '\U{1680}' || ('\U{2000}' <= c <= '\U{200A}') || c == '\U{2028}' || c == '\U{2029}'
    || c == '\U{202F}' || c == '\U{205F}' || c == '\U{3000}'
  }

  predicate NoSpace(s: string) {
    forall i | 0 <= i < |s| :: !IsSpace(s[i])
  }

  predicate AllSpace(s: string) {
    forall i | 0 <= i < |s| :: IsSpace(s[i])
  }

  predicate StartsWith(s: string, prefix: string) {
    |prefix| <= |s| && s[..|prefix|] == prefix
  }

  predicate EndsWith(s: string, suffix: string) {
    |suffix| <= |s| && s[|s| - |suffix|..] == suffix
  }

  /** Python's `sub in s` for strings: `sub` occurs somewhere in `s`. */
  predicate Contains(s: string, sub: string)
    decreases |s|
  {
    StartsWith(s, sub) || (|s| > 0 && Contains(s[1..], sub))
  }

  /** A string that contains `sub` contains its first character. */
  lemma {:induction false} ContainsFirst(s: string, sub: string)
    requires |sub| > 0 && Contains(s, sub)
    ensures sub[0] in s
    decreases |s|
  {
    if StartsWith(s, sub) {
      assert s[0] == s[..|sub|][0];
    } else {
      ContainsFirst(s[1..], sub);
      assert sub[0] in s[1..];
      var i :| 0 <= i < |s[1..]| && s[1..][i] == sub[0];
      assert s[i + 1] == sub[0];
    }
  }

  /** An occurrence at position `i` is an occurrence. */
  lemma {:induction false} ContainsAt(s: string, sub: string, i: nat)
    requires i <= |s| && StartsWith(s[i..], sub)
    ensures Contains(s, sub)
    decreases i
  {
    if i > 0 {
      assert s[1..][i - 1..] == s[i..];
      ContainsAt(s[1..], sub, i - 1);
    } else {
      assert s[0..] == s;
    }
  }

  /**
   * A pattern whose first character does not recur in it cannot start
   * inside a prefix that does not contain it, when the pattern itself comes
   * right after that prefix.
   */
  lemma {:induction false} NotStartingBefore(a: string, rest: string, p: string, i: nat)
    requires |p| > 0 && p[0] !in p[1..] && !Contains(a, p) && StartsWith(rest, p) && i < |a|
    ensures !StartsWith((a + rest)[i..], p)
  {
    var s := a + rest;
    if i + |p| <= |a| {
      assert s[i..][..|p|] == a[i..][..|p|];
      if StartsWith(a[i..], p) {
        ContainsAt(a, p, i);
      }
    } else {
      var d := |a| - i;
      assert s[i..][d] == rest[0] == p[0];
      assert p[1..][d - 1] == p[d];
    }
  }

  /** Leading whitespace removed, as `s.lstrip()`. */
  function StripLeft(s: string): (r: string)
    ensures |r| <= |s| && r == s[|s| - |r|..]
    ensures r == [] || !IsSpace(r[0])
    ensures AllSpace(s[..|s| - |r|])
  {
    if |s| > 0 && IsSpace(s[0]) then
      var r := StripLeft(s[1..]);
      assert s[..|s| - |r|] == [s[0]] + s[1..][..|s| - 1 - |r|];
      r
    else s
  }

  /** Trailing whitespace removed, as `s.rstrip()`. */
  function StripRight(s: string): (r: string)
    ensures |r| <= |s| && r == s[..|r|]
    ensures r == [] || !IsSpace(r[|r| - 1])
    ensures AllSpace(s[|r|..])
  {
    if |s| > 0 && IsSpace(s[|s| - 1]) then
      var r := StripRight(s[..|s| - 1]);
      assert s[|r|..] == s[..|s| - 1][|r|..] + [s[|s| - 1]];
      r
    else s
  }

  /** `s.strip()`: whitespace removed at both ends. */
  function Strip(s: string): (r: string)
    ensures |r| <= |s|
    ensures r == [] || (!IsSpace(r[0]) && !IsSpace(r[|r| - 1]))
  {
    StripRight(StripLeft(s))
  }

  /** Stripping removes exactly the whitespace padding around a core that starts and ends with non-space. */
  lemma {:induction false} StripPadded(lead: string, core: string, trail: string)
    requires AllSpace(lead) && AllSpace(trail)
    requires core == [] ==> trail == []
    requires core != [] ==> !IsSpace(core[0]) && !IsSpace(core[|core| - 1])
    ensures Strip(lead + core + trail) == core
  {
    var rest := core + trail;
    assert lead + core + trail == lead + rest;
    assert rest == [] || rest[0] == core[0];
    StripLeftPadded(lead, rest);
    assert StripLeft(lead + core + trail) == rest;
    StripRightPadded(core, trail);
  }

  lemma {:induction false} StripLeftPadded(lead: string, rest: string)
    requires AllSpace(lead)
    requires rest == [] || !IsSpace(rest[0])
    ensures StripLeft(lead + rest) == rest
    decreases |lead|
  {
    if lead != [] {
      assert (lead + rest)[1..] == lead[1..] + rest;
      StripLeftPadded(lead[1..], rest);
    }
  }

  lemma {:induction false} StripRightPadded(rest: string, trail: string)
    requires AllSpace(trail)
    requires rest == [] ==> trail == []
    requires rest == [] || !IsSpace(rest[|rest| - 1])
    ensures StripRight(rest + trail) == rest
    decreases |trail|
  {
    if trail != [] {
      var s := rest + trail;
      assert s[..|s| - 1] == rest + trail[..|trail| - 1];
      StripRightPadded(rest, trail[..|trail| - 1]);
    } else {
      assert rest + trail == rest;
    }
  }

  /** The longest prefix of `s` without whitespace. */
  function Word(s: string): (w: string)
    ensures |w| <= |s| && w == s[..|w|] && NoSpace(w)
    ensures |w| < |s| ==> IsSpace(s[|w|])
    ensures s != [] && !IsSpace(s[0]) ==> w != []
  {
    if |s| == 0 || IsSpace(s[0]) then [] else [s[0]] + Word(s[1..])
  }

  /** `s.split()`: the maximal runs of non-whitespace, in order. */
  function SplitWs(s: string): (parts: seq<string>)
    ensures forall i | 0 <= i < |parts| :: parts[i] != [] && NoSpace(parts[i])
    decreases |s|
  {
    var t := StripLeft(s);
    if t == [] then []
    else
      var w := Word(t);
      var rest := SplitWs(t[|w|..]);
      WordsCons(w, rest);
      [w] + rest
  }

  /** A whitespace-free word in front of such words. */
  lemma WordsCons(w: string, rest: seq<string>)
    requires w != [] && NoSpace(w)
    requires forall i | 0 <= i < |rest| :: rest[i] != [] && NoSpace(rest[i])
    ensures forall i | 0 <= i < |[w] + rest| :: ([w] + rest)[i] != [] && NoSpace(([w] + rest)[i])
  {
  }

  /** Two whitespace-free words separated by whitespace split into exactly those two words. */
  lemma {:induction false} SplitWsTwoWords(a: string, gap: string, b: string)
    requires a != [] && NoSpace(a) && b != [] && NoSpace(b)
    requires gap != [] && AllSpace(gap)
    ensures SplitWs(a + gap + b) == [a, b]
  {
    var tail := gap + b;
    assert a + gap + b == a + tail;
    assert IsSpace(tail[0]);
    SplitWsCons(a, tail);
    SplitWsSkip(gap, b);
    SplitWsWord(b);
    PairOfWords(a, b);
  }

  lemma PairOfWords(a: string, b: string)
    ensures [a] + [b] == [a, b]
  {
  }

  /** A single whitespace-free word splits into itself. */
  lemma {:induction false} SplitWsWord(b: string)
    requires b != [] && NoSpace(b)
    ensures SplitWs(b) == [b]
  {
    WordAll(b);
    assert b[|b|..] == [];
  }

  /** Leading whitespace does not change a split. */
  lemma {:induction false} SplitWsSkip(lead: string, t: string)
    requires AllSpace(lead)
    requires t == [] || !IsSpace(t[0])
    ensures SplitWs(lead + t) == SplitWs(t)
  {
    StripLeftPadded(lead, t);
    StripLeftPadded([], t);
    assert [] + t == t;
  }

  /** A word followed by nothing or by whitespace: the word, then the split of the rest. */
  lemma {:induction false} SplitWsCons(a: string, rest: string)
    requires a != [] && NoSpace(a)
    requires rest == [] || IsSpace(rest[0])
    ensures SplitWs(a + rest) == [a] + SplitWs(rest)
  {
    var t := a + rest;
    assert t[0] == a[0];
    if rest == [] {
      assert t == a;
      WordAll(a);
    } else {
      WordOf(a, rest);
    }
    assert t[|a|..] == rest;
  }

  lemma {:induction false} WordOf(w: string, rest: string)
    requires NoSpace(w) && rest != [] && IsSpace(rest[0])
    ensures Word(w + rest) == w
    decreases |w|
  {
    if w != [] {
      assert (w + rest)[1..] == w[1..] + rest;
      WordOf(w[1..], rest);
    }
  }

  lemma {:induction false} WordAll(w: string)
    requires NoSpace(w)
    ensures Word(w) == w
    decreases |w|
  {
    if w != [] {
      WordAll(w[1..]);
    }
  }

  /** The pieces of a split joined back with the separator, as `sep.join(parts)`. */
  function Join(parts: seq<string>, sep: char): string
    requires |parts| >= 1
  {
    if |parts| == 1 then parts[0] else parts[0] + [sep] + Join(parts[1..], sep)
  }

  /** Number of occurrences of `c` in `s`. */
  function Count(s: string, c: char): nat {
    if |s| == 0 then 0 else (if s[0] == c then 1 else 0) + Count(s[1..], c)
  }

  /** `s.split(sep)` for a one-character separator. */
  function Split(s: string, sep: char): (parts: seq<string>)
    ensures |parts| == Count(s, sep) + 1
    ensures forall i | 0 <= i < |parts| :: sep !in parts[i]
    ensures Join(parts, sep) == s
  {
    if |s| == 0 then [""]
    else
      var rest := Split(s[1..], sep);
      if s[0] == sep then
        assert Join([""] + rest, sep) == [sep] + Join(rest, sep);
        [""] + rest
      else
        var parts := [[s[0]] + rest[0]] + rest[1..];
        assert Join(parts, sep) == s by {
          if |rest| > 1 {
            assert parts[1..] == rest[1..];
          }
        }
        parts
  }

  lemma {:induction false} CountZero(s: string, c: char)
    ensures Count(s, c) == 0 <==> c !in s
  {
    if |s| > 0 {
      CountZero(s[1..], c);
      assert s == [s[0]] + s[1..];
    }
  }

  lemma {:induction false} CountAppend(a: string, b: string, c: char)
    ensures Count(a + b, c) == Count(a, c) + Count(b, c)
  {
    if |a| > 0 {
      assert (a + b)[1..] == a[1..] + b;
      CountAppend(a[1..], b, c);
    } else {
      assert a + b == b;
    }
  }

  /** Splitting `left + [sep] + right` where neither side holds `sep` gives back the two sides. */
  lemma {:induction false} SplitAround(left: string, right: string, sep: char)
    requires sep !in left && sep !in right
    ensures Split(left + [sep] + right, sep) == [left, right]
    decreases |left|
  {
    var s := left + [sep] + right;
    if left == [] {
      assert s == [sep] + right;
      assert s[1..] == right;
      CountZero(right, sep);
      var r := Split(right, sep);
      assert |r| == 1;
      assert Join(r, sep) == r[0];
    } else {
      assert s[1..] == left[1..] + [sep] + right;
      SplitAround(left[1..], right, sep);
      assert left == [left[0]] + left[1..];
    }
  }

  /** `c.lower()` for one character; a string because U+0130 lower-cases to two characters. */
  function LowerChar(c: char): string {
    if 'A' <= c <= 'Z' then [(c as int + 32) as char]
    else if c == '\U{130}' then "i\U{307}"
    else if c == '\U{212A}' then "k"
    else [c]
  }

  function UpperChar(c: char): char {
    if 'a' <= c <= 'z' then (c as int - 32) as char else c
  }

  predicate IsAsciiUpper(c: char) {
    'A' <= c <= 'Z'
  }

  predicate IsAsciiLower(c: char) {
    'a' <= c <= 'z'
  }

  /** `s.lower()` on ASCII case: no ASCII upper-case letter is left, and a string without one is unchanged. */
  function Lower(s: string): (r: string)
    ensures forall i | 0 <= i < |r| :: !IsAsciiUpper(r[i])
    ensures (forall i | 0 <= i < |s| :: !IsAsciiUpper(s[i]) && s[i] != '\U{130}' && s[i] != '\U{212A}') ==> r == s
  {
    if |s| == 0 then []
    else
      var rest := Lower(s[1..]);
      assert forall i | 0 <= i < |LowerChar(s[0])| :: !IsAsciiUpper(LowerChar(s[0])[i]);
      LowerChar(s[0]) + rest
  }

  /** `s.capitalize()` on ASCII case: the first character upper case, the rest lower case. */
  function Capitalize(s: string): (r: string)
    ensures r == [] <==> s == []
    ensures r != [] ==> !IsAsciiLower(r[0]) && r[1..] == Lower(s[1..])
    ensures r != [] && !IsAsciiLower(s[0]) ==> r[0] == s[0]
  {
    if |s| == 0 then [] else [UpperChar(s[0])] + Lower(s[1..])
  }

  /** `s.replace(pattern, replacement)`: non-overlapping occurrences, left to right. */
  function Replace(s: string, pattern: string, replacement: string): string
    requires |pattern| > 0
    decreases |s|
  {
    if |s| < |pattern| then s
    else if StartsWith(s, pattern) then replacement + Replace(s[|pattern|..], pattern, replacement)
    else [s[0]] + Replace(s[1..], pattern, replacement)
  }

  /** A string without the pattern is left as it is. */
  lemma {:induction false} ReplaceAbsent(s: string, pattern: string, replacement: string)
    requires |pattern| > 0 && !Contains(s, pattern)
    ensures Replace(s, pattern, replacement) == s
    decreases |s|
  {
    if |s| >= |pattern| {
      assert !StartsWith(s, pattern);
      ReplaceAbsent(s[1..], pattern, replacement);
      assert s == [s[0]] + s[1..];
    }
  }

  function DigitChar(d: nat): char
    requires d < 10
  {
    ('0' as int + d) as char
  }

  function NatToString(n: nat): string
    decreases n
  {
    if n < 10 then [DigitChar(n)] else NatToString(n / 10) + [DigitChar(n % 10)]
  }

  /** `str(i)` for an integer. */
  function IntToString(i: int): string {
    if i < 0 then "-" + NatToString(-i) else NatToString(i)
  }
}

/**
 * The Python objects that flow through the core: primitive values, UUIDs,
 * datetimes, value-object instances, and any other object, described by what
 * the core asks of it (its type name, `str`, `repr` and truthiness).
 */
module PyValues {
  import opened Wrappers
  import opened PyText

  /** The value-object classes of the shared and the user value-object modules. */
  datatype VoClass =
    | UuidVo | IntVo | PositiveIntVo | DatetimeVo | StrVo | StrWithSizeVo
    | UserIdVo | UserPasswordVo | UserCreatedAtVo | UserUpdatedAtVo
    | UserFirstNameVo | UserLastNameVo | UserEmailVo

  datatype PyValue =
    | PyNone
    | PyBool(b: bool)
    | PyInt(i: int)
    | PyStr(s: string)
    | PyUuid(hex: string)
    | PyDatetime(text: string, reprText: string)
    | PyVo(cls: VoClass, value: PyValue)
    | PyObject(typeName: string, text: string, reprText: string, truthy: bool)

  /** The class a value-object class derives from. */
  function VoBase(c: VoClass): Option<VoClass> {
    match c
    case UuidVo | IntVo | DatetimeVo | StrVo => None
    case PositiveIntVo => Some(IntVo)
    case StrWithSizeVo => Some(StrVo)
    case UserIdVo => Some(UuidVo)
    case UserCreatedAtVo | UserUpdatedAtVo => Some(DatetimeVo)
    case UserPasswordVo | UserFirstNameVo | UserLastNameVo | UserEmailVo => Some(StrWithSizeVo)
  }

  function VoDepth(c: VoClass): nat {
    match c
    case UuidVo | IntVo | DatetimeVo | StrVo => 0
    case PositiveIntVo | StrWithSizeVo | UserIdVo | UserCreatedAtVo | UserUpdatedAtVo => 1
    case UserPasswordVo | UserFirstNameVo | UserLastNameVo | UserEmailVo => 2
  }

  /** `issubclass(c, d)` among value-object classes. */
  predicate IsSubVo(c: VoClass, d: VoClass)
    decreases VoDepth(c)
  {
    c == d || (VoBase(c).Some? && VoDepth(VoBase(c).value) < VoDepth(c) && IsSubVo(VoBase(c).value, d))
  }

  function VoClassName(c: VoClass): string {
    match c
    case UuidVo => "UuidVo"
    case IntVo => "IntVo"
    case PositiveIntVo => "PositiveIntVo"
    case DatetimeVo => "DatetimeVo"
    case StrVo => "StrVo"
    case StrWithSizeVo => "StrWithSizeVo"
    case UserIdVo => "UserIdVo"
    case UserPasswordVo => "UserPasswordVo"
    case UserCreatedAtVo => "UserCreatedAtVo"
    case UserUpdatedAtVo => "UserUpdatedAtVo"
    case UserFirstNameVo => "UserFirstNameVo"
    case UserLastNameVo => "UserLastNameVo"
    case UserEmailVo => "UserEmailVo"
  }

  /** `type(v).__name__`. */
  function TypeName(v: PyValue): string {
    match v
    case PyNone => "NoneType"
    case PyBool(_) => "bool"
    case PyInt(_) => "int"
    case PyStr(_) => "str"
    case PyUuid(_) => "UUID"
    case PyDatetime(_, _) => "datetime"
    case PyVo(c, _) => VoClassName(c)
    case PyObject(t, _, _, _) => t
  }

  /** `bool(v)`: None, False, 0 and "" are false; UUIDs, datetimes and dataclass instances are true. */
  predicate Truthy(v: PyValue) {
    match v
    case PyNone => false
    case PyBool(b) => b
    case PyInt(i) => i != 0
    case PyStr(s) => s != ""
    case PyUuid(_) => true
    case PyDatetime(_, _) => true
    case PyVo(_, _) => true
    case PyObject(_, _, _, t) => t
  }

  /** `isinstance(v, int)`: `bool` is a subclass of `int` in Python. */
  predicate IsInt(v: PyValue) {
    v.PyInt? || v.PyBool?
  }

  /** The integer an `int` (or `bool`) stands for. */
  function IntOf(v: PyValue): int
    requires IsInt(v)
  {
    if v.PyInt? then v.i else if v.b then 1 else 0
  }

  /** `repr(v)`; a string is shown between single quotes (escaping is not modelled). */
  function Repr(v: PyValue): string {
    match v
    case PyNone => "None"
    case PyBool(b) => if b then "True" else "False"
    case PyInt(i) => IntToString(i)
    case PyStr(s) => "'" + s + "'"
    case PyUuid(h) => "UUID('" + h + "')"
    case PyDatetime(_, r) => r
    case PyVo(c, inner) => VoClassName(c) + "(value=" + Repr(inner) + ")"
    case PyObject(_, _, r, _) => r
  }

  /** `str(v)`, which is also what `str.format` inserts for a placeholder. */
  function Str(v: PyValue): string {
    match v
    case PyNone => "None"
    case PyBool(b) => if b then "True" else "False"
    case PyInt(i) => IntToString(i)
    case PyStr(s) => s
    case PyUuid(h) => h
    case PyDatetime(t, _) => t
    case PyVo(_, _) => Repr(v)
    case PyObject(_, t, _, _) => t
  }
}
