/**
 * The repositories' `handle_db_errors` decorator: a call that raises a
 * SQLAlchemy error is turned into an `InfrastructureException` carrying a
 * code and a details dict; anything else passes through.
 *
 * The decorator's one regular expression, `Key \((.*?)\)=\((.*?)\) already
 * exists` searched with `re.search`, is modelled by a scanner for that
 * pattern alone: the leftmost start, then the shortest first group for which
 * the rest matches, then the shortest second group; `.` matches any
 * character but a newline.
 */
module StorageErrors {
  import opened Wrappers
  import opened PyText
  import opened PyValues
  import opened Errors

  const KeyOpen := "Key ("
  const KeySep := ")=("
  const KeyClose := ") already exists"

  /** `p` occurs in `s` at position `i`. */
  predicate At(s: string, i: nat, p: string) {
    i <= |s| && StartsWith(s[i..], p)
  }

  /** The groups of a match. */
  datatype KeyMatch = KeyMatch(field: string, value: string)

  /** The text the pattern matches for the groups `f` and `v`. */
  function KeyText(f: string, v: string): string {
    KeyOpen + f + KeySep + v + KeyClose
  }

  /** The pattern matches at `i` with groups `f` and `v`. */
  predicate MatchesAt(s: string, i: nat, f: string, v: string) {
    At(s, i, KeyText(f, v)) && '\n' !in f && '\n' !in v
  }

  /** Whether the pieces around a group line up into a whole match. */
  lemma KeyTextAt(s: string, i: nat, f: string, v: string)
    requires At(s, i, KeyOpen) && At(s, i + 5, f) && At(s, i + 5 + |f|, KeySep)
    requires At(s, i + 8 + |f|, v) && At(s, i + 8 + |f| + |v|, KeyClose)
    ensures At(s, i, KeyText(f, v))
  {
    var t := KeyText(f, v);
    assert |t| == 5 + |f| + 3 + |v| + 16;
    forall x | 0 <= x < |t| ensures s[i..][x] == t[x] {
      if x < 5 {
        assert s[i..][..5][x] == KeyOpen[x];
      } else if x < 5 + |f| {
        assert s[i + 5..][..|f|][x - 5] == f[x - 5];
      } else if x < 8 + |f| {
        assert s[i + 5 + |f|..][..3][x - 5 - |f|] == KeySep[x - 5 - |f|];
      } else if x < 8 + |f| + |v| {
        assert s[i + 8 + |f|..][..|v|][x - 8 - |f|] == v[x - 8 - |f|];
      } else {
        assert s[i + 8 + |f| + |v|..][..16][x - 8 - |f| - |v|] == KeyClose[x - 8 - |f| - |v|];
      }
    }
    assert s[i..][..|t|] == t;
  }

  /** The text from `a` to `b` lies on one line, so `.` can match all of it. */
  predicate OneLine(s: string, a: nat, b: nat) {
    a <= b <= |s| && '\n' !in s[a..b]
  }

  /** A newline at `k` lies inside every slice from `start` that runs past it. */
  lemma NewlineInside(s: string, start: nat, k: nat)
    requires start <= k < |s| && s[k] == '\n'
    ensures forall m | k < m <= |s| :: !OneLine(s, start, m)
  {
    forall m | k < m <= |s| ensures !OneLine(s, start, m) {
      assert s[start..m][k - start] == s[k];
    }
  }

  /**
   * The second group, started at `start` and tried up to `k`: the first end
   * at or after `k` that is followed by `KeyClose`, extending only over
   * characters other than a newline.
   */
  function Group2(s: string, start: nat, k: nat): (r: Option<nat>)
    requires start <= k <= |s| && '\n' !in s[start..k]
    ensures r.Some? ==> k <= r.value <= |s| && At(s, r.value, KeyClose) && '\n' !in s[start..r.value]
    decreases |s| - k
  {
    if At(s, k, KeyClose) then Some(k)
    else if k == |s| || s[k] == '\n' then None
    else
      assert s[start..k + 1] == s[start..k] + [s[k]];
      Group2(s, start, k + 1)
  }

  /**
   * The second group is the shortest: no closing text comes before the end
   * it finds, and when it finds none, no closing text follows on the line.
   */
  lemma {:induction false} Group2Least(s: string, start: nat, k: nat)
    requires start <= k <= |s| && '\n' !in s[start..k]
    ensures Group2(s, start, k).Some? ==> forall m | k <= m < Group2(s, start, k).value :: !At(s, m, KeyClose)
    ensures Group2(s, start, k).None? ==> forall m | k <= m <= |s| && OneLine(s, start, m) :: !At(s, m, KeyClose)
    decreases |s| - k
  {
    if !At(s, k, KeyClose) && k < |s| {
      if s[k] == '\n' {
        NewlineInside(s, start, k);
      } else {
        assert s[start..k + 1] == s[start..k] + [s[k]];
        Group2Least(s, start, k + 1);
      }
    }
  }

  /** A separator at `m` after which the second group closes. */
  predicate Separates(s: string, m: nat) {
    At(s, m, KeySep) && m + 3 <= |s| && Group2(s, m + 3, m + 3).Some?
  }

  /**
   * The first group, started at `start` and tried up to `j`: the first end
   * followed by `KeySep` after which the second group can match.
   */
  function Group1(s: string, start: nat, j: nat): (r: Option<(nat, nat)>)
    requires start <= j <= |s| && '\n' !in s[start..j]
    ensures r.Some? ==>
      && j <= r.value.0 && r.value.0 + 3 <= r.value.1 <= |s|
      && At(s, r.value.0, KeySep) && '\n' !in s[start..r.value.0]
      && At(s, r.value.1, KeyClose) && '\n' !in s[r.value.0 + 3..r.value.1]
    decreases |s| - j
  {
    if At(s, j, KeySep) && Group2(s, j + 3, j + 3).Some? then Some((j, Group2(s, j + 3, j + 3).value))
    else if j == |s| || s[j] == '\n' then None
    else
      assert s[start..j + 1] == s[start..j] + [s[j]];
      Group1(s, start, j + 1)
  }

  /** The second group of the match the first group finds is the one found from its separator. */
  lemma {:induction false} Group1Found(s: string, start: nat, j: nat, m: nat, k: nat)
    requires start <= j <= |s| && '\n' !in s[start..j]
    requires Group1(s, start, j) == Some((m, k))
    ensures m + 3 <= |s| && Group2(s, m + 3, m + 3) == Some(k)
    decreases |s| - j
  {
    if !(At(s, j, KeySep) && Group2(s, j + 3, j + 3).Some?) {
      assert j < |s| && s[j] != '\n';
      assert s[start..j + 1] == s[start..j] + [s[j]];
      Group1Found(s, start, j + 1, m, k);
    }
  }

  /**
   * The first group is the shortest: no separator after which the second
   * group closes comes before the end it finds, and when it finds none, no
   * such separator follows on the line.
   */
  lemma {:induction false} Group1Least(s: string, start: nat, j: nat)
    requires start <= j <= |s| && '\n' !in s[start..j]
    ensures Group1(s, start, j).Some? ==> forall m | j <= m < Group1(s, start, j).value.0 :: !Separates(s, m)
    ensures Group1(s, start, j).None? ==> forall m | j <= m <= |s| && OneLine(s, start, m) :: !Separates(s, m)
    decreases |s| - j
  {
    if At(s, j, KeySep) && Group2(s, j + 3, j + 3).Some? {
      assert Group1(s, start, j).value.0 == j;
    } else if j < |s| {
      assert !Separates(s, j);
      if s[j] == '\n' {
        assert Group1(s, start, j).None?;
        NewlineInside(s, start, j);
      } else {
        assert s[start..j + 1] == s[start..j] + [s[j]];
        assert Group1(s, start, j) == Group1(s, start, j + 1);
        Group1Least(s, start, j + 1);
      }
    } else {
      assert !Separates(s, j);
    }
  }

  /**
   * Where the lazy groups stand against any match at `i` with groups `f`
   * and `v`: the first group found is no longer than `f`, and when it is
   * as long, the second group found is no longer than `v`.
   */
  predicate LazyBound(s: string, i: nat, f: string, v: string)
  {
    && i + 5 <= |s| && At(s, i, KeyOpen)
    && Group1(s, i + 5, i + 5).Some?
    && Group1(s, i + 5, i + 5).value.0 <= i + 5 + |f|
    && (Group1(s, i + 5, i + 5).value.0 == i + 5 + |f| ==> Group1(s, i + 5, i + 5).value.1 <= i + 8 + |f| + |v|)
  }

  /** Every match at `i` is bounded by the groups the scan finds there. */
  lemma {:induction false} MatchIsBounded(s: string, i: nat, f: string, v: string)
    requires MatchesAt(s, i, f, v)
    ensures LazyBound(s, i, f, v)
  {
    KeyTextPieces(s, i, f, v);
    var m := i + 5 + |f|;
    var m2 := m + 3 + |v|;
    assert s[i + 5..m] == f && s[m + 3..m2] == v;
    assert s[m + 3..m + 3] == [];
    Group2Least(s, m + 3, m + 3);
    assert OneLine(s, m + 3, m2);
    assert Separates(s, m);
    assert s[i + 5..i + 5] == [];
    Group1Least(s, i + 5, i + 5);
    assert OneLine(s, i + 5, m);
    var g := Group1(s, i + 5, i + 5);
    assert g.Some?;
    if g.value.0 == m {
      Group1Found(s, i + 5, i + 5, m, g.value.1);
    }
  }

  /** `MatchIsBounded` for every pair of groups at once. */
  lemma MatchesAreBounded(s: string, i: nat)
    ensures forall f, v | MatchesAt(s, i, f, v) :: LazyBound(s, i, f, v)
  {
    forall f, v | MatchesAt(s, i, f, v) ensures LazyBound(s, i, f, v) {
      MatchIsBounded(s, i, f, v);
    }
  }

  /**
   * The match starting at `i`, as the lazy groups make it: the shortest
   * first group for which the rest matches, then the shortest second group;
   * `None` exactly when the pattern does not match at `i`.
   */
  function MatchAt(s: string, i: nat): (r: Option<KeyMatch>)
    ensures r.Some? ==> MatchesAt(s, i, r.value.field, r.value.value)
    ensures r.Some? ==> forall f, v | MatchesAt(s, i, f, v) ::
      |r.value.field| <= |f| && (|r.value.field| == |f| ==> |r.value.value| <= |v|)
    ensures r.None? ==> forall f, v :: !MatchesAt(s, i, f, v)
  {
    if At(s, i, KeyOpen) && i + 5 <= |s| && Group1(s, i + 5, i + 5).Some? then
      var g := Group1(s, i + 5, i + 5).value;
      GroupsMatch(s, i, g.0, g.1);
      MatchesAreBounded(s, i);
      Some(KeyMatch(s[i + 5..g.0], s[g.0 + 3..g.1]))
    else
      MatchesAreBounded(s, i);
      None
  }

  /** The groups the scan finds at `i` make a whole match there. */
  lemma GroupsMatch(s: string, i: nat, m: nat, k: nat)
    requires At(s, i, KeyOpen) && i + 5 <= |s| && Group1(s, i + 5, i + 5) == Some((m, k))
    ensures MatchesAt(s, i, s[i + 5..m], s[m + 3..k])
  {
    var f := s[i + 5..m];
    var v := s[m + 3..k];
    assert s[i + 5..][..|f|] == f;
    assert s[m + 3..][..|v|] == v;
    KeyTextAt(s, i, f, v);
  }

  /** `re.search` from position `i` on: the match at the leftmost position where there is one. */
  function SearchFrom(s: string, i: nat): (r: Option<(nat, KeyMatch)>)
    ensures r.Some? ==> i <= r.value.0 <= |s| && MatchAt(s, r.value.0) == Some(r.value.1)
    ensures r.Some? ==> MatchesAt(s, r.value.0, r.value.1.field, r.value.1.value)
    ensures r.Some? ==> forall j | i <= j < r.value.0 :: MatchAt(s, j).None?
    ensures r.None? ==> forall j | i <= j <= |s| :: MatchAt(s, j).None?
    decreases |s| - i
  {
    if i > |s| then None
    else if MatchAt(s, i).Some? then Some((i, MatchAt(s, i).value))
    else SearchFrom(s, i + 1)
  }

  /**
   * `re.search(r"Key \((.*?)\)=\((.*?)\) already exists", s)`, as its two
   * groups: those of the match at the leftmost position where the pattern
   * matches, and `None` exactly when it matches nowhere.
   */
  function Search(s: string): (r: Option<KeyMatch>)
    ensures r.Some? ==> exists i: nat | i <= |s| :: MatchAt(s, i) == Some(r.value) && forall j | 0 <= j < i :: MatchAt(s, j).None?
    ensures r.Some? ==> exists i: nat :: MatchesAt(s, i, r.value.field, r.value.value)
    ensures r.None? ==> forall i: nat, f, v :: !MatchesAt(s, i, f, v)
  {
    var m := SearchFrom(s, 0);
    if m.Some? then Some(m.value.1)
    else
      NoMatchAnywhere(s);
      None
  }

  /** When the search from the start finds nothing, the pattern matches at no position. */
  lemma NoMatchAnywhere(s: string)
    requires SearchFrom(s, 0).None?
    ensures forall i: nat, f, v :: !MatchesAt(s, i, f, v)
  {
    forall i: nat, f, v ensures !MatchesAt(s, i, f, v) {
      if i <= |s| {
        assert MatchAt(s, i).None?;
      }
    }
  }

  /** The second group runs over characters other than `)` and newline up to the closing text. */
  lemma {:induction false} Group2Scans(s: string, start: nat, k: nat, m: nat)
    requires start <= k <= m <= |s| && '\n' !in s[start..k] && At(s, m, KeyClose)
    requires forall x | k <= x < m :: s[x] != ')' && s[x] != '\n'
    ensures Group2(s, start, k) == Some(m)
    decreases m - k
  {
    if k < m {
      assert !At(s, k, KeyClose) by {
        assert s[k..][0] == s[k];
      }
      assert s[start..k + 1] == s[start..k] + [s[k]];
      Group2Scans(s, start, k + 1, m);
    }
  }

  /** The first group runs likewise up to the separator, after which the second group closes at `m2`. */
  lemma {:induction false} Group1Scans(s: string, start: nat, j: nat, m: nat, m2: nat)
    requires start <= j <= m && m + 3 <= m2 <= |s| && '\n' !in s[start..j] && At(s, m, KeySep)
    requires forall x | j <= x < m :: s[x] != ')' && s[x] != '\n'
    requires forall x | m + 3 <= x < m2 :: s[x] != ')' && s[x] != '\n'
    requires At(s, m2, KeyClose)
    ensures Group1(s, start, j) == Some((m, m2))
    decreases m - j
  {
    if j < m {
      assert !At(s, j, KeySep) by {
        assert s[j..][0] == s[j];
      }
      assert s[start..j + 1] == s[start..j] + [s[j]];
      Group1Scans(s, start, j + 1, m, m2);
    } else {
      Group2Scans(s, m + 3, m + 3, m2);
    }
  }

  /** The search skips every position of a prefix that does not contain the opening text. */
  lemma {:induction false} SearchSkips(a: string, rest: string, i: nat)
    requires !Contains(a, KeyOpen) && StartsWith(rest, KeyOpen) && i <= |a|
    ensures SearchFrom(a + rest, i) == SearchFrom(a + rest, |a|)
    decreases |a| - i
  {
    if i < |a| {
      NotStartingBefore(a, rest, KeyOpen, i);
      SearchSkips(a, rest, i + 1);
    }
  }

  /** A whole match at `i` consists of its pieces, at their offsets. */
  lemma KeyTextPieces(s: string, i: nat, f: string, v: string)
    requires At(s, i, KeyText(f, v))
    ensures At(s, i, KeyOpen) && At(s, i + 5 + |f|, KeySep) && At(s, i + 8 + |f| + |v|, KeyClose)
    ensures i + 24 + |f| + |v| <= |s|
    ensures s[i + 5..i + 5 + |f|] == f && s[i + 8 + |f|..i + 8 + |f| + |v|] == v
  {
    var t := KeyText(f, v);
    assert |t| == 24 + |f| + |v|;
    assert forall x | 0 <= x < |t| :: s[i + x] == t[x] by {
      forall x | 0 <= x < |t| ensures s[i + x] == t[x] {
        assert s[i..][..|t|][x] == t[x];
      }
    }
    assert s[i..][..5] == KeyOpen by {
      forall x | 0 <= x < 5 ensures s[i..][..5][x] == KeyOpen[x] {
        assert s[i + x] == t[x];
      }
    }
    var m := i + 5 + |f|;
    assert s[m..][..3] == KeySep by {
      forall x | 0 <= x < 3 ensures s[m..][..3][x] == KeySep[x] {
        assert s[i + (5 + |f| + x)] == t[5 + |f| + x];
      }
    }
    var m2 := i + 8 + |f| + |v|;
    assert s[m2..][..16] == KeyClose by {
      forall x | 0 <= x < 16 ensures s[m2..][..16][x] == KeyClose[x] {
        assert s[i + (8 + |f| + |v| + x)] == t[8 + |f| + |v| + x];
      }
    }
    assert s[i + 5..i + 5 + |f|] == f by {
      forall x | 0 <= x < |f| ensures s[i + 5..i + 5 + |f|][x] == f[x] {
        assert s[i + (5 + x)] == t[5 + x];
      }
    }
    assert s[i + 8 + |f|..i + 8 + |f| + |v|] == v by {
      forall x | 0 <= x < |v| ensures s[i + 8 + |f|..i + 8 + |f| + |v|][x] == v[x] {
        assert s[i + (8 + |f| + x)] == t[8 + |f| + x];
      }
    }
  }

  /** At a whole match whose groups hold no `)` or newline, the scan finds exactly those groups. */
  lemma {:induction false} MatchAtKey(s: string, i: nat, f: string, v: string)
    requires At(s, i, KeyText(f, v))
    requires ')' !in f && '\n' !in f && ')' !in v && '\n' !in v
    ensures MatchAt(s, i) == Some(KeyMatch(f, v))
  {
    KeyTextPieces(s, i, f, v);
    var m := i + 5 + |f|;
    var m2 := m + 3 + |v|;
    forall x | i + 5 <= x < m ensures s[x] != ')' && s[x] != '\n' {
      assert s[x] == s[i + 5..m][x - i - 5];
    }
    forall x | m + 3 <= x < m2 ensures s[x] != ')' && s[x] != '\n' {
      assert s[x] == s[m + 3..m2][x - m - 3];
    }
    assert s[i + 5..i + 5] == [];
    Group1Scans(s, i + 5, i + 5, m, m2);
    assert At(s, i, KeyOpen) && Group1(s, i + 5, i + 5).Some?;
    assert s[i + 5..Group1(s, i + 5, i + 5).value.0] == f;
    assert s[Group1(s, i + 5, i + 5).value.0 + 3..Group1(s, i + 5, i + 5).value.1] == v;
  }

  /**
   * The search finds the key and value of a "Key (f)=(v) already exists"
   * text, wherever it follows a prefix that does not itself open one, when
   * neither group contains `)` or a newline.
   */
  lemma {:induction false} SearchFinds(a: string, f: string, v: string, b: string)
    requires !Contains(a, KeyOpen)
    requires ')' !in f && '\n' !in f && ')' !in v && '\n' !in v
    ensures Search(a + KeyText(f, v) + b) == Some(KeyMatch(f, v))
  {
    var rest := KeyText(f, v) + b;
    var s := a + rest;
    assert s == a + KeyText(f, v) + b;
    assert s[|a|..] == rest;
    assert At(s, |a|, KeyText(f, v)) by {
      assert rest[..|KeyText(f, v)|] == KeyText(f, v);
    }
    assert StartsWith(rest, KeyOpen) by {
      assert rest[..5] == KeyOpen;
    }
    SearchSkips(a, rest, 0);
    MatchAtKey(s, |a|, f, v);
  }

  /** A text that does not contain the opening text has no match. */
  lemma {:induction false} SearchMisses(s: string, i: nat)
    requires !Contains(s, KeyOpen)
    ensures SearchFrom(s, i) == None
    decreases |s| - i
  {
    if i <= |s| {
      if At(s, i, KeyOpen) {
        ContainsAt(s, KeyOpen, i);
      }
      SearchMisses(s, i + 1);
    }
  }

  /** The entity of a repository class: its name with every "Repository" removed. */
  function EntityName(repositoryClass: string): string {
    Replace(repositoryClass, "Repository", "")
  }

  /** A repository class named after its entity yields that entity's name. */
  lemma {:induction false} EntityNameOfRepository(entity: string)
    requires !Contains(entity, "Repository")
    ensures EntityName(entity + "Repository") == entity
    decreases |entity|
  {
    var p := "Repository";
    var s := entity + p;
    if entity == [] {
      assert s == p && s[..|p|] == p;
      assert s[|p|..] == [];
    } else {
      NotStartingBefore(entity, p, p, 0);
      assert s[0..] == s;
      assert s[1..] == entity[1..] + p;
      EntityNameOfRepository(entity[1..]);
      assert entity == [entity[0]] + entity[1..];
    }
  }

  /** "UserRepository" is the repository of "User". */
  lemma UserRepositoryEntity()
    ensures EntityName("UserRepository") == "User"
  {
    assert !Contains("User", "Repository") by {
      if Contains("User", "Repository") {
        ContainsFirst("User", "Repository");
      }
    }
    assert "User" + "Repository" == "UserRepository";
    EntityNameOfRepository("User");
  }

  /** The database failures the decorator catches: subclasses of `SQLAlchemyError`. */
  predicate IsSqlAlchemy(e: Exc) {
    e.ForeignExc? && (e.cls.IntegrityError? || e.cls.OperationalError? || e.cls.OtherSqlAlchemyError?)
  }

  /** An integrity failure about a unique constraint, by its lower-cased text. */
  predicate IsUniqueViolation(text: string) {
    Contains(Lower(text), "unique constraint") || Contains(Lower(text), "duplicate key")
  }

  /** An operational failure that timed out, by its lower-cased text. */
  predicate IsTimeout(text: string) {
    Contains(Lower(text), "timeout")
  }

  /** The identifier and value of a unique violation: the groups of the match, or "unknown" twice. */
  function DuplicateKey(text: string): (r: KeyMatch)
    ensures Search(text).None? ==> r == KeyMatch("unknown", "unknown")
    ensures Search(text).Some? ==> exists i: nat :: MatchesAt(text, i, r.field, r.value)
  {
    if Search(text).Some? then Search(text).value else KeyMatch("unknown", "unknown")
  }

  /** `{"entity": entity, "operation": operation}` and the entries the branch adds. */
  function BaseDetails(entity: string, operation: string): map<string, PyValue> {
    map["entity" := PyStr(entity), "operation" := PyStr(operation)]
  }

  /** The `InfrastructureException` the decorator raises from `e`. */
  function Infrastructure(message: string, code: ErrorCode, e: Exc, details: map<string, PyValue>): (r: Exc)
    requires message != ""
    ensures r.AppExc? && r.kind == InfrastructureException && r.message == message
    ensures r.code == Some(code) && r.details == Passed(details) && r.context == Some(e)
  {
    NewError(InfrastructureException, Some(message), Some(e), None, Some(code), Passed(details)).value
  }

  /**
   * The exception a SQLAlchemy failure `e`, raised by `operation` of the
   * repository of `entity`, is turned into.
   */
  function Classify(e: Exc, entity: string, operation: string): (r: Exc)
    requires IsSqlAlchemy(e)
    ensures r.AppExc? && r.kind == InfrastructureException && r.context == Some(e) && r.code.Some?
    ensures r.details.Passed? && "entity" in r.details.entries && "operation" in r.details.entries
    ensures r.details.entries["entity"] == PyStr(entity) && r.details.entries["operation"] == PyStr(operation)
    // the code, case by case
    ensures r.code == Some(DUPLICATE_ENTITY) <==> e.cls.IntegrityError? && IsUniqueViolation(e.text)
    ensures r.code == Some(DATA_INTEGRITY_ERROR) <==> e.cls.IntegrityError? && !IsUniqueViolation(e.text)
    ensures r.code == Some(DATABASE_TIMEOUT) <==> e.cls.OperationalError? && IsTimeout(e.text)
    ensures r.code == Some(DATABASE_ERROR) <==>
      (e.cls.OperationalError? && !IsTimeout(e.text)) || e.cls.OtherSqlAlchemyError?
    // a unique violation names the parsed identifier and value, every other failure its error type
    ensures r.code == Some(DUPLICATE_ENTITY) ==>
      && r.details.entries.Keys == {"entity", "operation", "identifier", "value"}
      && r.details.entries["identifier"] == PyStr(DuplicateKey(e.text).field)
      && r.details.entries["value"] == PyStr(DuplicateKey(e.text).value)
      && r.message == entity + " with unique " + DuplicateKey(e.text).field + " already exists"
    ensures r.code != Some(DUPLICATE_ENTITY) ==>
      && r.details.entries.Keys == {"entity", "operation", "error_type"}
      && r.details.entries["error_type"] == PyStr(
           if e.cls.IntegrityError? then "integrity_violation"
           else if e.cls.OtherSqlAlchemyError? then "sqlalchemy"
           else if IsTimeout(e.text) then "timeout" else "operational")
  {
    var details := BaseDetails(entity, operation);
    var text := ExcStr(e);
    match e.cls
    case IntegrityError =>
      if IsUniqueViolation(text) then
        var key := DuplicateKey(text);
        Infrastructure(entity + " with unique " + key.field + " already exists", DUPLICATE_ENTITY, e,
                       details["identifier" := PyStr(key.field)]["value" := PyStr(key.value)])
      else
        Infrastructure("Data integrity violation in " + entity + "." + operation, DATA_INTEGRITY_ERROR, e,
                       details["error_type" := PyStr("integrity_violation")])
    case OperationalError =>
      var timeout := IsTimeout(text);
      Infrastructure("Database " + (if timeout then "timeout" else "operation failed") + " in " + entity + "." + operation,
                     if timeout then DATABASE_TIMEOUT else DATABASE_ERROR, e,
                     details["error_type" := PyStr(if timeout then "timeout" else "operational")])
    case OtherSqlAlchemyError(_) =>
      Infrastructure("Unexpected database error in " + entity + "." + operation, DATABASE_ERROR, e,
                     details["error_type" := PyStr("sqlalchemy")])
  }

  /**
   * A repository method wrapped by `handle_db_errors`: `outcome` is what the
   * undecorated method returned or raised.
   */
  function HandleDbErrors<T>(repositoryClass: string, operation: string, outcome: Result<T, Exc>): (r: Result<T, Exc>)
    ensures outcome.Success? ==> r == outcome
    ensures outcome.Failure? && !IsSqlAlchemy(outcome.error) ==> r == outcome
    ensures outcome.Failure? && IsSqlAlchemy(outcome.error) ==>
      r == Failure(Classify(outcome.error, EntityName(repositoryClass), operation))
  {
    match outcome
    case Success(_) => outcome
    case Failure(e) =>
      if IsSqlAlchemy(e) then Failure(Classify(e, EntityName(repositoryClass), operation)) else outcome
  }

  /** Nothing is wrapped twice: a repository that already raises an `InfrastructureException` raises it unchanged. */
  lemma {:induction false} NoDoubleWrap<T>(repositoryClass: string, operation: string, e: Exc)
    requires e.AppExc?
    ensures HandleDbErrors<T>(repositoryClass, operation, Failure(e)) == Failure(e)
  {
  }

  /** Every code the classifier produces is one of the four the translator maps. */
  lemma {:induction false} ClassifiedCodes(e: Exc, entity: string, operation: string)
    requires IsSqlAlchemy(e)
    ensures Classify(e, entity, operation).code.value in {DUPLICATE_ENTITY, DATA_INTEGRITY_ERROR, DATABASE_TIMEOUT, DATABASE_ERROR}
  {
  }

  /** A PostgreSQL unique violation on the email column names the column and the address. */
  lemma DuplicateEmailExample(prefix: string)
    requires !Contains(prefix, KeyOpen)
    ensures DuplicateKey(prefix + "Key (email)=(a@b.com) already exists") == KeyMatch("email", "a@b.com")
  {
    EmailKeyText();
    SearchFinds(prefix, "email", "a@b.com", "");
    assert prefix + KeyText("email", "a@b.com") + "" == prefix + "Key (email)=(a@b.com) already exists";
  }

  lemma EmailKeyText()
    ensures KeyText("email", "a@b.com") == "Key (email)=(a@b.com) already exists"
    ensures ')' !in "email" && ')' !in "a@b.com"
  {
  }

  /** A unique violation whose text has no key detail is still a duplicate, with identifier and value "unknown". */
  lemma {:induction false} DuplicateWithoutDetail(text: string, entity: string, operation: string)
    requires IsUniqueViolation(text) && !Contains(text, KeyOpen)
    ensures Classify(ForeignExc(IntegrityError, text), entity, operation).code == Some(DUPLICATE_ENTITY)
    ensures Classify(ForeignExc(IntegrityError, text), entity, operation).details.entries["identifier"] == PyStr("unknown")
    ensures Classify(ForeignExc(IntegrityError, text), entity, operation).details.entries["value"] == PyStr("unknown")
  {
    SearchMisses(text, 0);
  }
}
