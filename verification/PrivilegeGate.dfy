// tools/upgrade/grants.ts, the check: committed baseline plus replayed migrations against the
// live state, and every logged grant or revoke against the reviewed exceptions file.
module PrivilegeGate {
  import opened Text
  import opened AclLines
  import opened Replay
  import opened ReplayMeaning
  import opened SequenceGrants

  /** One privilege state, committed or live. */
  datatype Privileges = Privileges(
    schemaVersion: nat,
    tables: seq<string>,
    tableGrants: seq<string>,
    publicGrants: seq<string>,
    sequenceGrants: seq<string>,
    routineGrants: seq<string>,
    schemaGrants: seq<string>)

  datatype Delta = Delta(table: string, role: string, grant: set<string>, revoke: set<string>)

  datatype MigrationExceptions = MigrationExceptions(runtimeAccessNone: seq<string>, existingTableDeltas: seq<Delta>)

  type Exceptions = map<nat, MigrationExceptions>

  datatype Category = PublicAcl | SequenceAcl | RoutineAcl | SchemaAcl

  datatype Finding =
    | GrantDiffers(role: string, table: string, missing: set<string>, extra: set<string>)
    | AclLost(category: Category, line: string)
    | AclGained(category: Category, line: string)
    | SequenceDiffers(difference: SequenceDifference)
    | NewTableWithoutAccess(table: string)
    | UndeclaredGrantChange(statement: GrantStatement, undeclared: set<string>)

  // ------------------------------------------------------- lines to matrix and back

  ghost predicate HeldIn(lines: seq<string>, role: string, table: string, privilege: string) {
    exists i :: 0 <= i < |lines| && Parse(lines[i]) == Some(Parsed(role, table, privilege))
  }

  predicate Readable(lines: seq<string>) {
    forall i :: 0 <= i < |lines| ==> Parse(lines[i]).Some?
  }

  function Grant(m: Matrix, parsed: Parsed): Matrix {
    Apply(Entry(m, parsed.grantee, parsed.object'), Give(parsed.grantee, parsed.object', parsed.privilege))
  }

  function MatrixFrom(m: Matrix, lines: seq<string>): Matrix
    requires Readable(lines)
    decreases |lines|
  {
    if lines == [] then m
    else
      assert Readable(lines[1..]);
      MatrixFrom(Grant(m, Parse(lines[0]).value), lines[1..])
  }

  lemma GrantHolds(m: Matrix, parsed: Parsed, role: string, table: string, privilege: string)
    ensures Held(Grant(m, parsed), role, table, privilege)
        <==> Held(m, role, table, privilege) || parsed == Parsed(role, table, privilege)
  {
  }

  lemma {:induction false} MatrixHolds(m: Matrix, lines: seq<string>, role: string, table: string, privilege: string)
    requires Readable(lines)
    ensures Held(MatrixFrom(m, lines), role, table, privilege)
        <==> Held(m, role, table, privilege) || HeldIn(lines, role, table, privilege)
    decreases |lines|
  {
    if lines != [] {
      var parsed := Parse(lines[0]).value;
      GrantHolds(m, parsed, role, table, privilege);
      MatrixHolds(Grant(m, parsed), lines[1..], role, table, privilege);
      if i :| 0 <= i < |lines[1..]| && Parse(lines[1..][i]) == Some(Parsed(role, table, privilege)) {
        assert lines[i + 1] == lines[1..][i];
      }
      if i :| 0 <= i < |lines| && Parse(lines[i]) == Some(Parsed(role, table, privilege)) {
        assert i > 0 ==> lines[1..][i - 1] == lines[i];
      }
    }
  }

  /** The committed lines back as a matrix, or a refusal of the first line that is not one. */
  method BaselineMatrix(lines: seq<string>) returns (r: Result<Matrix>)
    ensures r.Ok? <==> Readable(lines)
    ensures r.Ok? ==> r.value == MatrixFrom(map[], lines)
  {
    var matrix: Matrix := map[];
    for i := 0 to |lines|
      invariant Readable(lines[..i])
      invariant Readable(lines) ==> MatrixFrom(matrix, lines[i..]) == MatrixFrom(map[], lines)
    {
      assert lines[..i + 1] == lines[..i] + [lines[i]];
      assert lines[i..][1..] == lines[i + 1..];
      var parsed := Parse(lines[i]);
      if parsed.None? {
        return Err("grants-baseline.json: not 'role | table | privilege'");
      }
      matrix := Grant(matrix, parsed.value);
    }
    assert lines[..|lines|] == lines;
    r := Ok(matrix);
  }

  /** The lines one role's table contributes. */
  method PrivilegeLines(role: string, table: string, privileges: set<string>) returns (lines: seq<string>)
    ensures forall line :: line in lines <==> exists p :: p in privileges && line == Line(role, table, p)
  {
    lines := [];
    var todo := privileges;
    while todo != {}
      invariant todo <= privileges
      invariant forall line :: line in lines <==> exists p :: p in privileges - todo && line == Line(role, table, p)
    {
      var p :| p in todo;
      lines := lines + [Line(role, table, p)];
      todo := todo - {p};
    }
  }

  method TableLines(role: string, byTable: map<string, set<string>>) returns (lines: seq<string>)
    ensures forall line :: line in lines <==>
      exists table, p :: table in byTable && p in byTable[table] && line == Line(role, table, p)
  {
    lines := [];
    var todo := byTable.Keys;
    while todo != {}
      invariant todo <= byTable.Keys
      invariant forall line :: line in lines <==>
        exists table, p :: table in byTable.Keys - todo && p in byTable[table] && line == Line(role, table, p)
    {
      var table :| table in todo;
      var more := PrivilegeLines(role, table, byTable[table]);
      lines := lines + more;
      todo := todo - {table};
    }
  }

  /** Every privilege of the matrix as one line, in no particular order. */
  method CaptureLines(matrix: Matrix) returns (lines: seq<string>)
    ensures Captures(matrix, lines)
  {
    lines := [];
    var todo := matrix.Keys;
    while todo != {}
      invariant todo <= matrix.Keys
      invariant forall line :: line in lines <==>
        exists role, table, p :: role !in todo && Held(matrix, role, table, p) && line == Line(role, table, p)
    {
      var role :| role in todo;
      ghost var before := lines;
      var more := TableLines(role, matrix[role]);
      lines := lines + more;
      forall line
        ensures line in lines <==>
          exists r, table, p :: r !in todo - {role} && Held(matrix, r, table, p) && line == Line(r, table, p)
      {
        if line in more {
          var table, p :| table in matrix[role] && p in matrix[role][table] && line == Line(role, table, p);
          assert Held(matrix, role, table, p);
        }
        if r, table, p :| r !in todo - {role} && Held(matrix, r, table, p) && line == Line(r, table, p) {
          if r == role {
            assert line in more;
          }
        }
      }
      todo := todo - {role};
    }
  }

  /** Every held privilege is named so that its line reads back. */
  ghost predicate PlainMatrix(m: Matrix) {
    forall role, table, p :: Held(m, role, table, p) ==> PlainTriple(Parsed(role, table, p))
  }

  ghost predicate SameHeld(x: Matrix, y: Matrix) {
    forall role, table, p :: Held(x, role, table, p) <==> Held(y, role, table, p)
  }

  /** The lines are those of the held privileges, in any order. */
  ghost predicate Captures(m: Matrix, lines: seq<string>) {
    forall line :: line in lines <==> exists role, table, p :: Held(m, role, table, p) && line == Line(role, table, p)
  }

  lemma CapturedIsReadable(m: Matrix, lines: seq<string>)
    requires Captures(m, lines)
    ensures Readable(lines)
  {
    forall i | 0 <= i < |lines|
      ensures Parse(lines[i]).Some?
    {
      assert lines[i] in lines;
      var role, table, p :| Held(m, role, table, p) && lines[i] == Line(role, table, p);
      LinesParse(role, table, p);
    }
  }

  lemma PlainReadsBack(m: Matrix, lines: seq<string>, role: string, table: string, p: string)
    requires Captures(m, lines) && Readable(lines) && PlainMatrix(m)
    ensures Held(MatrixFrom(map[], lines), role, table, p) <==> Held(m, role, table, p)
  {
    MatrixHolds(map[], lines, role, table, p);
    LineReadsBack(role, table, p);
    if Held(m, role, table, p) {
      assert Line(role, table, p) in lines;
      var i :| 0 <= i < |lines| && lines[i] == Line(role, table, p);
    }
    if i :| 0 <= i < |lines| && Parse(lines[i]) == Some(Parsed(role, table, p)) {
      assert lines[i] in lines;
      var r', t', p' :| Held(m, r', t', p') && lines[i] == Line(r', t', p');
      LineReadsBack(r', t', p');
    }
  }

  lemma ReadBackIsPlain(lines: seq<string>, role: string, table: string, p: string)
    requires Readable(lines) && Held(MatrixFrom(map[], lines), role, table, p)
    ensures PlainTriple(Parsed(role, table, p))
  {
    MatrixHolds(map[], lines, role, table, p);
    var i :| 0 <= i < |lines| && Parse(lines[i]) == Some(Parsed(role, table, p));
    ParsedIsPlain(lines[i]);
  }

  /**
   * Captured lines are always readable, and read back as exactly the privileges they were captured
   * from if and only if no name among those disturbs a separator.
   */
  lemma CapturedReadsBack(m: Matrix, lines: seq<string>)
    requires Captures(m, lines)
    ensures Readable(lines)
    ensures SameHeld(MatrixFrom(map[], lines), m) <==> PlainMatrix(m)
  {
    CapturedIsReadable(m, lines);
    if PlainMatrix(m) {
      forall role, table, p
        ensures Held(MatrixFrom(map[], lines), role, table, p) <==> Held(m, role, table, p)
      {
        PlainReadsBack(m, lines, role, table, p);
      }
    } else {
      var role, table, p :| Held(m, role, table, p) && !PlainTriple(Parsed(role, table, p));
      if Held(MatrixFrom(map[], lines), role, table, p) {
        ReadBackIsPlain(lines, role, table, p);
      }
    }
  }

  // ------------------------------------------------------------- matrix comparison

  datatype GrantDifference = GrantDifference(role: string, table: string, missing: set<string>, extra: set<string>)

  function SetOf(m: Matrix, role: string, table: string): (privileges: set<string>)
    ensures forall p :: p in privileges <==> Held(m, role, table, p)
  {
    if Keyed(m, role, table) then m[role][table] else {}
  }

  ghost predicate Differs(d: GrantDifference, declared: Matrix, actual: Matrix) {
    && d.role in COMPARED_ROLES
    && d.missing == SetOf(declared, d.role, d.table) - SetOf(actual, d.role, d.table)
    && d.extra == SetOf(actual, d.role, d.table) - SetOf(declared, d.role, d.table)
    && (d.missing != {} || d.extra != {})
  }

  method CompareGrants(declared: Matrix, actual: Matrix, tables: set<string>)
    returns (differences: seq<GrantDifference>)
    ensures forall d :: d in differences <==> d.table in tables && Differs(d, declared, actual)
  {
    differences := [];
    for i := 0 to |COMPARED_ROLES|
      invariant forall d :: d in differences <==>
        d.role in COMPARED_ROLES[..i] && d.table in tables && Differs(d, declared, actual)
    {
      var role := COMPARED_ROLES[i];
      ghost var before := differences;
      var todo := tables;
      while todo != {}
        invariant todo <= tables
        invariant forall d :: d in differences <==>
          d in before || (d.role == role && d.table in tables - todo && Differs(d, declared, actual))
      {
        var table :| table in todo;
        var want, have := SetOf(declared, role, table), SetOf(actual, role, table);
        var missing, extra := want - have, have - want;
        if missing != {} || extra != {} {
          differences := differences + [GrantDifference(role, table, missing, extra)];
        }
        todo := todo - {table};
      }
      assert COMPARED_ROLES[..i + 1] == COMPARED_ROLES[..i] + [role];
    }
    assert COMPARED_ROLES[..|COMPARED_ROLES|] == COMPARED_ROLES;
  }

  /** The declared privileges with the reported differences made good. */
  ghost predicate Patched(declared: Matrix, differences: seq<GrantDifference>, role: string, table: string,
                          privilege: string)
  {
    || (exists d :: d in differences && d.role == role && d.table == table && privilege in d.extra)
    || (Held(declared, role, table, privilege)
        && !exists d :: d in differences && d.role == role && d.table == table && privilege in d.missing)
  }

  /** The differences are an exact edit script from the declared privileges to the actual ones. */
  lemma DifferencesPatch(declared: Matrix, actual: Matrix, tables: set<string>, differences: seq<GrantDifference>,
                         role: string, table: string, privilege: string)
    requires forall d :: d in differences <==> d.table in tables && Differs(d, declared, actual)
    requires role in COMPARED_ROLES && table in tables
    ensures Patched(declared, differences, role, table, privilege) <==> Held(actual, role, table, privilege)
  {
    var want, have := SetOf(declared, role, table), SetOf(actual, role, table);
    var d := GrantDifference(role, table, want - have, have - want);
    if privilege in d.missing || privilege in d.extra {
      assert Differs(d, declared, actual);
    }
  }

  // ------------------------------------------------------------- line comparison

  ghost predicate KnownObject(was: seq<string>, object': string) {
    exists i :: 0 <= i < |was| && ObjectOr(was[i], was[i]) == object'
  }

  ghost predicate Lost(was: seq<string>, now: seq<string>, line: string) {
    line in was && line !in now
  }

  /** A gain counts only on an object the baseline already knew. */
  ghost predicate Gained(was: seq<string>, now: seq<string>, line: string) {
    line in now && line !in was && KnownObject(was, ObjectOr(line, ""))
  }

  method CompareAcl(category: Category, was: seq<string>, now: seq<string>) returns (findings: seq<Finding>)
    ensures forall f :: f in findings <==>
      || (f.AclLost? && f.category == category && Lost(was, now, f.line))
      || (f.AclGained? && f.category == category && Gained(was, now, f.line))
  {
    findings := [];
    var known := set i | 0 <= i < |was| :: ObjectOr(was[i], was[i]);
    for i := 0 to |was|
      invariant forall f :: f in findings <==>
        f.AclLost? && f.category == category && f.line in was[..i] && f.line !in now
    {
      if was[i] !in now {
        findings := findings + [AclLost(category, was[i])];
      }
    }
    ghost var losses := findings;
    for i := 0 to |now|
      invariant forall f :: f in findings <==>
        f in losses || (f.AclGained? && f.category == category && f.line in now[..i] && Gained(was, now, f.line))
    {
      if now[i] !in was && ObjectOr(now[i], "") in known {
        findings := findings + [AclGained(category, now[i])];
      }
    }
  }

  // --------------------------------------------------------- the reviewed exceptions

  ghost predicate Declares(exceptions: Exceptions, version: nat, verb: Verb, table: string, role: string,
                           privilege: string)
  {
    && version in exceptions
    && exists d :: d in exceptions[version].existingTableDeltas && d.table == table && d.role == role
                && privilege in if verb.GRANT? then d.grant else d.revoke
  }

  /** What one migration's entry declares about a table and a role, several deltas together. */
  method DeclaredDelta(exceptions: Exceptions, version: nat, table: string, role: string)
    returns (grant: set<string>, revoke: set<string>)
    ensures forall p :: p in grant <==> Declares(exceptions, version, GRANT, table, role, p)
    ensures forall p :: p in revoke <==> Declares(exceptions, version, REVOKE, table, role, p)
  {
    grant, revoke := {}, {};
    var deltas := if version in exceptions then exceptions[version].existingTableDeltas else [];
    for i := 0 to |deltas|
      invariant forall p :: p in grant <==>
        exists d :: d in deltas[..i] && d.table == table && d.role == role && p in d.grant
      invariant forall p :: p in revoke <==>
        exists d :: d in deltas[..i] && d.table == table && d.role == role && p in d.revoke
    {
      if deltas[i].table == table && deltas[i].role == role {
        grant := grant + deltas[i].grant;
        revoke := revoke + deltas[i].revoke;
      }
    }
  }

  ghost predicate Excused(exceptions: Exceptions, after: nat, through: nat, table: string) {
    exists version :: version in exceptions && after < version <= through
                   && table in exceptions[version].runtimeAccessNone
  }

  method RuntimeAccessNoneTables(exceptions: Exceptions, after: nat, through: nat) returns (excused: set<string>)
    ensures forall table :: table in excused <==> Excused(exceptions, after, through, table)
  {
    excused := {};
    var todo := exceptions.Keys;
    while todo != {}
      invariant todo <= exceptions.Keys
      invariant forall table :: table in excused <==>
        exists version :: version in exceptions && version !in todo && after < version <= through
                       && table in exceptions[version].runtimeAccessNone
    {
      var version :| version in todo;
      if after < version <= through {
        excused := excused + set table | table in exceptions[version].runtimeAccessNone;
      }
      todo := todo - {version};
    }
  }

  ghost predicate Undeclared(exceptions: Exceptions, g: GrantStatement, privilege: string) {
    privilege in g.privileges && !Declares(exceptions, g.version, g.verb, g.table, g.role, privilege)
  }

  /** The privileges of a logged statement nobody declared, of which there is at least one. */
  ghost predicate UndeclaredIn(exceptions: Exceptions, g: GrantStatement, undeclared: set<string>) {
    (forall p :: p in undeclared <==> Undeclared(exceptions, g, p)) && undeclared != {}
  }

  // ------------------------------------------------------------------- the check

  /** What the check is about: the committed baseline, the migrations since, the live state. */
  datatype Case = Case(baseline: Privileges, directory: seq<Migration>, toVersion: nat, live: Privileges,
                       exceptions: Exceptions)
  {
    function Range(): seq<Dated> {
      InRange(directory, baseline.schemaVersion, toVersion)
    }

    function Expected(): Replayed
      requires Readable(baseline.tableGrants)
    {
      WholeRange(Range(), MatrixFrom(map[], baseline.tableGrants), baseline.tables)
    }

    /** The tables the comparison covers: live, committed, or touched by the replay. */
    ghost predicate ComparesTable(table: string)
      requires Readable(baseline.tableGrants)
    {
      table in live.tables || table in baseline.tables || exists role :: Keyed(Expected().matrix, role, table)
    }

    predicate WellFormed() {
      Readable(baseline.tableGrants) && Readable(live.tableGrants) && Supported(Range())
    }

    function CategoryOf(p: Privileges, category: Category): seq<string> {
      match category
      case PublicAcl => p.publicGrants
      case SequenceAcl => p.sequenceGrants
      case RoutineAcl => p.routineGrants
      case SchemaAcl => p.schemaGrants
    }

    /** Exactly when the check reports `f`. */
    ghost predicate Reports(f: Finding)
      requires WellFormed()
    {
      match f
      case GrantDiffers(role, table, missing, extra) =>
        ComparesTable(table)
        && Differs(GrantDifference(role, table, missing, extra), Expected().matrix, MatrixFrom(map[], live.tableGrants))
      case AclLost(category, line) => Lost(CategoryOf(baseline, category), CategoryOf(live, category), line)
      case AclGained(category, line) => Gained(CategoryOf(baseline, category), CategoryOf(live, category), line)
      case SequenceDiffers(d) =>
        DifferenceFound(d, NamedSequences(Range()), ExpectedLines(Range(), set line | line in baseline.sequenceGrants),
                        set line | line in live.sequenceGrants)
      case NewTableWithoutAccess(table) =>
        table in live.tables && table !in baseline.tables
        && !Excused(exceptions, baseline.schemaVersion, toVersion, table)
        && table !in Expected().explicitRuntimeGrants
      case UndeclaredGrantChange(g, undeclared) =>
        g in Expected().statements && g.table in baseline.tables && UndeclaredIn(exceptions, g, undeclared)
    }

    /** The check has nothing to say. */
    ghost predicate Clean()
      requires WellFormed()
    {
      forall f: Finding :: !Reports(f)
    }
  }

  function KeyedTables(m: Matrix): (tables: set<string>)
    ensures forall role, table :: Keyed(m, role, table) ==> table in tables
    ensures forall table :: table in tables ==> exists role :: Keyed(m, role, table)
  {
    var pairs := set role, table | role in m && table in m[role] :: (role, table);
    assert forall role, table :: Keyed(m, role, table) ==> (role, table) in pairs;
    assert forall pair :: pair in pairs ==> Keyed(m, pair.0, pair.1);
    set pair | pair in pairs :: pair.1
  }

  method CheckTables(expected: Matrix, actual: Matrix, tables: set<string>) returns (findings: seq<Finding>)
    ensures forall f :: f in findings <==>
      f.GrantDiffers? && f.table in tables
        && Differs(GrantDifference(f.role, f.table, f.missing, f.extra), expected, actual)
  {
    var differences := CompareGrants(expected, actual, tables);
    findings := [];
    for i := 0 to |differences|
      invariant forall f :: f in findings <==>
        f.GrantDiffers? && GrantDifference(f.role, f.table, f.missing, f.extra) in differences[..i]
    {
      var d := differences[i];
      findings := findings + [GrantDiffers(d.role, d.table, d.missing, d.extra)];
    }
    assert differences[..|differences|] == differences;
  }

  method CheckLines(c: Case) returns (findings: seq<Finding>)
    requires c.WellFormed()
    ensures forall f :: f in findings <==> (f.AclLost? || f.AclGained?) && c.Reports(f)
  {
    var publicAcl := CompareAcl(PublicAcl, c.baseline.publicGrants, c.live.publicGrants);
    var sequenceAcl := CompareAcl(SequenceAcl, c.baseline.sequenceGrants, c.live.sequenceGrants);
    var routineAcl := CompareAcl(RoutineAcl, c.baseline.routineGrants, c.live.routineGrants);
    var schemaAcl := CompareAcl(SchemaAcl, c.baseline.schemaGrants, c.live.schemaGrants);
    findings := publicAcl + sequenceAcl + routineAcl + schemaAcl;
  }

  method CheckNewTables(live: seq<string>, known: seq<string>, excused: set<string>, named: set<string>)
    returns (findings: seq<Finding>)
    ensures forall f :: f in findings <==>
      f.NewTableWithoutAccess? && f.table in live && f.table !in known && f.table !in excused && f.table !in named
  {
    findings := [];
    for i := 0 to |live|
      invariant forall f :: f in findings <==>
        f.NewTableWithoutAccess? && f.table in live[..i] && f.table !in known && f.table !in excused
          && f.table !in named
    {
      if live[i] !in known && live[i] !in excused && live[i] !in named {
        findings := findings + [NewTableWithoutAccess(live[i])];
      }
    }
    assert live[..|live|] == live;
  }

  method CheckStatements(statements: seq<GrantStatement>, known: seq<string>, exceptions: Exceptions)
    returns (findings: seq<Finding>)
    ensures forall f :: f in findings <==>
      f.UndeclaredGrantChange? && f.statement in statements && f.statement.table in known
      && UndeclaredIn(exceptions, f.statement, f.undeclared)
  {
    findings := [];
    for i := 0 to |statements|
      invariant forall f :: f in findings <==>
        f.UndeclaredGrantChange? && f.statement in statements[..i] && f.statement.table in known
        && UndeclaredIn(exceptions, f.statement, f.undeclared)
    {
      var g := statements[i];
      assert statements[..i + 1] == statements[..i] + [g];
      if g.table in known {
        var grant, revoke := DeclaredDelta(exceptions, g.version, g.table, g.role);
        var wanted := if g.verb.GRANT? then grant else revoke;
        var undeclared := set p | p in g.privileges && p !in wanted;
        if undeclared != {} {
          findings := findings + [UndeclaredGrantChange(g, undeclared)];
        }
        UndeclaredIsUnique(exceptions, g, undeclared);
      }
    }
    assert statements[..|statements|] == statements;
  }

  lemma UndeclaredIsUnique(exceptions: Exceptions, g: GrantStatement, undeclared: set<string>)
    requires forall p :: p in undeclared <==> Undeclared(exceptions, g, p)
    ensures forall other :: UndeclaredIn(exceptions, g, other) <==> other == undeclared && undeclared != {}
  {
  }

  /**
   * The rules that do not ask the server: reports exactly the findings `Reports` describes, or
   * refuses lines and sequence grants it cannot read.
   */
  method CheckPrivileges(c: Case) returns (r: Result<seq<Finding>>)
    ensures r.Ok? <==> c.WellFormed()
    ensures r.Ok? ==> forall f :: f in r.value <==> c.Reports(f)
    ensures r.Ok? ==> (r.value == [] <==> c.Clean())
  {
    var baseline := BaselineMatrix(c.baseline.tableGrants);
    if baseline.Err? {
      return Err(baseline.message);
    }
    var expected := ReplayRange(c.directory, c.toVersion, c.baseline.schemaVersion, baseline.value, c.baseline.tables);
    var actual := BaselineMatrix(c.live.tableGrants);
    if actual.Err? {
      return Err(actual.message);
    }
    var sequences := SequenceFindings(c);
    if sequences.Err? {
      return Err(sequences.message);
    }
    var compared := (set table | table in c.live.tables) + (set table | table in c.baseline.tables)
                    + KeyedTables(expected.matrix);
    var tables := CheckTables(expected.matrix, actual.value, compared);
    var lines := CheckLines(c);
    var excused := RuntimeAccessNoneTables(c.exceptions, c.baseline.schemaVersion, c.toVersion);
    var newTables := CheckNewTables(c.live.tables, c.baseline.tables, excused, expected.explicitRuntimeGrants);
    var statements := CheckStatements(expected.statements, c.baseline.tables, c.exceptions);
    var findings := tables + lines + sequences.value + newTables + statements;
    forall f
      ensures f in findings <==> c.Reports(f)
    {
      Assembled(c, f, compared, excused);
      assert f in findings <==> f in tables || f in lines || f in sequences.value || f in newTables || f in statements;
    }
    assert findings != [] ==> c.Reports(findings[0]);
    r := Ok(findings);
  }

  /** The rules together are what the check reports. */
  lemma Assembled(c: Case, f: Finding, compared: set<string>, excused: set<string>)
    requires c.WellFormed()
    requires compared == (set table | table in c.live.tables) + (set table | table in c.baseline.tables)
                         + KeyedTables(c.Expected().matrix)
    requires forall table :: table in excused <==> Excused(c.exceptions, c.baseline.schemaVersion, c.toVersion, table)
    ensures f.GrantDiffers? ==>
      (c.Reports(f) <==> f.table in compared && Differs(GrantDifference(f.role, f.table, f.missing, f.extra),
                                                         c.Expected().matrix, MatrixFrom(map[], c.live.tableGrants)))
    ensures f.NewTableWithoutAccess? ==>
      (c.Reports(f) <==> f.table in c.live.tables && f.table !in c.baseline.tables && f.table !in excused
                         && f.table !in c.Expected().explicitRuntimeGrants)
    ensures f.UndeclaredGrantChange? ==>
      (c.Reports(f) <==> f.statement in c.Expected().statements && f.statement.table in c.baseline.tables
                         && UndeclaredIn(c.exceptions, f.statement, f.undeclared))
  {
    if f.GrantDiffers? {
      assert f.table in compared <==> c.ComparesTable(f.table);
    }
  }

  method SequenceFindings(c: Case) returns (r: Result<seq<Finding>>)
    requires Readable(c.baseline.tableGrants) && Readable(c.live.tableGrants)
    ensures r.Ok? <==> Supported(c.Range())
    ensures r.Ok? ==> forall f :: f in r.value <==> f.SequenceDiffers? && c.Reports(f)
  {
    var differences := DeclaredSequenceGrantDifferences(c.Range(), c.baseline.sequenceGrants, c.live.sequenceGrants);
    if differences.Err? {
      return Err(differences.message);
    }
    var findings: seq<Finding> := [];
    for i := 0 to |differences.value|
      invariant forall f :: f in findings <==> f.SequenceDiffers? && f.difference in differences.value[..i]
    {
      findings := findings + [SequenceDiffers(differences.value[i])];
    }
    assert differences.value[..|differences.value|] == differences.value;
    r := Ok(findings);
  }

  // -------------------------------------------------------------------- theorems

  lemma CleanTables(c: Case, role: string, table: string, privilege: string)
    requires c.WellFormed() && c.Clean() && role in COMPARED_ROLES && c.ComparesTable(table)
    ensures Held(c.Expected().matrix, role, table, privilege) <==> HeldIn(c.live.tableGrants, role, table, privilege)
  {
    var actual := MatrixFrom(map[], c.live.tableGrants);
    MatrixHolds(map[], c.live.tableGrants, role, table, privilege);
    var want, have := SetOf(c.Expected().matrix, role, table), SetOf(actual, role, table);
    assert !c.Reports(GrantDiffers(role, table, want - have, have - want));
    assert !Differs(GrantDifference(role, table, want - have, have - want), c.Expected().matrix, actual);
    assert want - have == {} && have - want == {};
  }

  lemma UndeclaredIsReported(c: Case, g: GrantStatement, undeclared: set<string>)
    requires c.WellFormed() && c.Clean() && g in c.Expected().statements && g.table in c.baseline.tables
    requires forall p :: p in undeclared <==> Undeclared(c.exceptions, g, p)
    ensures undeclared == {}
  {
    CleanOf(c, UndeclaredGrantChange(g, undeclared));
    UndeclaredIsListed(c, g, undeclared);
    UndeclaredInIs(c.exceptions, g, undeclared);
  }

  lemma UndeclaredInIs(exceptions: Exceptions, g: GrantStatement, undeclared: set<string>)
    requires forall p :: p in undeclared <==> Undeclared(exceptions, g, p)
    ensures UndeclaredIn(exceptions, g, undeclared) <==> undeclared != {}
  {
  }

  lemma UndeclaredIsListed(c: Case, g: GrantStatement, undeclared: set<string>)
    requires c.WellFormed()
    ensures c.Reports(UndeclaredGrantChange(g, undeclared))
       <==> g in c.Expected().statements && g.table in c.baseline.tables && UndeclaredIn(c.exceptions, g, undeclared)
  {
  }

  lemma CleanOf(c: Case, f: Finding)
    requires c.WellFormed() && c.Clean()
    ensures !c.Reports(f)
  {
  }

  lemma CleanStatement(c: Case, g: GrantStatement, privilege: string)
    requires c.WellFormed() && c.Clean() && g in c.Expected().statements && g.table in c.baseline.tables
    requires privilege in g.privileges
    ensures Declares(c.exceptions, g.version, g.verb, g.table, g.role, privilege)
  {
    var undeclared := set p | p in g.privileges && Undeclared(c.exceptions, g, p);
    UndeclaredIsReported(c, g, undeclared);
    assert undeclared == {};
    assert !Undeclared(c.exceptions, g, privilege);
  }

  /** Some migration of the range carries a reviewed declaration for the change. */
  ghost predicate DeclaredInRange(c: Case, verb: Verb, table: string, role: string, privilege: string) {
    exists version :: c.baseline.schemaVersion < version <= c.toVersion
                   && Declares(c.exceptions, version, verb, table, role, privilege)
  }

  /**
   * No laundering. When the check is clean, every privilege a compared role gained on a table
   * the baseline knew is declared as a grant for that role, table and some migration of the
   * range, and every one it lost is covered by a declared revoke, or the range created or
   * dropped the table.
   */
  lemma NoLaundering(c: Case, role: string, table: string, privilege: string)
    requires c.WellFormed() && c.Clean() && role in COMPARED_ROLES && table in c.baseline.tables
    ensures var (was, now) := (c.baseline.tableGrants, c.live.tableGrants);
      HeldIn(now, role, table, privilege) && !HeldIn(was, role, table, privilege)
      ==> DeclaredInRange(c, GRANT, table, role, privilege)
    ensures var (was, now) := (c.baseline.tableGrants, c.live.tableGrants);
      HeldIn(was, role, table, privilege) && !HeldIn(now, role, table, privilege)
      ==> CreatedOrDropped(c.Range(), table)
          || exists p :: Covers(p, privilege) && DeclaredInRange(c, REVOKE, table, role, p)
  {
    var start := MatrixFrom(map[], c.baseline.tableGrants);
    MatrixHolds(map[], c.baseline.tableGrants, role, table, privilege);
    CleanTables(c, role, table, privilege);
    ChangesAreLogged(c.Range(), start, c.baseline.tables, role, table, privilege);
    var log := c.Expected().statements;
    if Logged(log, GRANT, role, table, privilege) {
      LoggedIsDeclared(c, GRANT, role, table, privilege);
    }
    if p :| Covers(p, privilege) && Logged(log, REVOKE, role, table, p) {
      LoggedIsDeclared(c, REVOKE, role, table, p);
    }
  }

  lemma LoggedIsDeclared(c: Case, verb: Verb, role: string, table: string, privilege: string)
    requires c.WellFormed() && c.Clean() && table in c.baseline.tables
    requires Logged(c.Expected().statements, verb, role, table, privilege)
    ensures DeclaredInRange(c, verb, table, role, privilege)
  {
    var log := c.Expected().statements;
    var k :| 0 <= k < |log| && log[k].verb == verb && log[k].role == role && log[k].table == table
          && privilege in log[k].privileges;
    CleanStatement(c, log[k], privilege);
    LogIsInRange(c.directory, c.baseline.schemaVersion, c.toVersion, c.baseline.tables, log[k]);
  }

  lemma {:induction false} StampedVersions(version: nat, statements: seq<Sql>)
    ensures forall d :: d in Stamped(version, statements) ==> d.version == version
  {
    if statements != [] {
      StampedVersions(version, statements[1..]);
    }
  }

  lemma {:induction false} RangeVersions(directory: seq<Migration>, after: nat, through: nat)
    ensures forall d :: d in InRange(directory, after, through) ==> after < d.version <= through
  {
    if directory != [] {
      RangeVersions(directory[1..], after, through);
      StampedVersions(directory[0].version, directory[0].statements);
    }
  }

  lemma {:induction false} TableLogVersion(version: nat, verb: Verb, role: string, tables: seq<string>,
                                           privileges: seq<string>, wholeSchema: bool, g: GrantStatement)
    requires g in TableLog(version, verb, role, tables, privileges, wholeSchema)
    ensures g.version == version
  {
    if g in TableLog(version, verb, role, tables[1..], privileges, wholeSchema) {
      TableLogVersion(version, verb, role, tables[1..], privileges, wholeSchema, g);
    }
  }

  lemma {:induction false} RoleLogVersion(version: nat, verb: Verb, roles: seq<string>, tables: seq<string>,
                                          privileges: seq<string>, wholeSchema: bool, g: GrantStatement)
    requires g in RoleLog(version, verb, roles, tables, privileges, wholeSchema)
    ensures g.version == version
  {
    if g in RoleLog(version, verb, roles[1..], tables, privileges, wholeSchema) {
      RoleLogVersion(version, verb, roles[1..], tables, privileges, wholeSchema, g);
    } else {
      TableLogVersion(version, verb, roles[0], tables, privileges, wholeSchema, g);
    }
  }

  lemma {:induction false} LogVersion(range: seq<Dated>, present: seq<string>, g: GrantStatement)
    requires g in Log(range, present)
    ensures exists d :: d in range && d.version == g.version
    decreases |range|
  {
    var later := PresentAfter(range[0].sql, present);
    if g in Log(range[1..], later) {
      LogVersion(range[1..], later, g);
    } else {
      match range[0].sql {
        case OnTables(verb, privileges, tables, roles) =>
          RoleLogVersion(range[0].version, verb, Compared(roles), tables, privileges, false, g);
        case OnAllTables(verb, privileges, roles) =>
          RoleLogVersion(range[0].version, verb, Compared(roles), present, privileges, true, g);
        case _ =>
      }
      assert range[0].version == g.version;
    }
  }

  lemma LogIsInRange(directory: seq<Migration>, after: nat, through: nat, tables: seq<string>, g: GrantStatement)
    requires g in Log(InRange(directory, after, through), tables)
    ensures after < g.version <= through
  {
    LogVersion(InRange(directory, after, through), tables, g);
    RangeVersions(directory, after, through);
  }

  /** A table no baseline knew is excused by the reviewed file or granted to the runtime by name. */
  lemma NewTablesAreReviewed(c: Case, table: string)
    requires c.WellFormed() && c.Clean() && table in c.live.tables && table !in c.baseline.tables
    ensures Excused(c.exceptions, c.baseline.schemaVersion, c.toVersion, table)
         || exists k :: 0 <= k < |c.Range()| && table in NamedForRuntime(c.Range()[k].sql)
  {
    assert !c.Reports(NewTableWithoutAccess(table));
    if table in c.Expected().explicitRuntimeGrants {
      NamedSomewhere(c.Range(), table);
    }
  }

  lemma {:induction false} NamedSomewhere(range: seq<Dated>, table: string)
    requires table in Named(range)
    ensures exists k :: 0 <= k < |range| && table in NamedForRuntime(range[k].sql)
  {
    if table !in NamedForRuntime(range[0].sql) {
      NamedSomewhere(range[1..], table);
      var k :| 0 <= k < |range[1..]| && table in NamedForRuntime(range[1..][k].sql);
      assert range[k + 1] == range[1..][k];
    }
  }

  /**
   * The two sequence checks agree. When both are silent, a sequence the baseline knew has exactly
   * its baseline lines; a sequence the range names holds exactly the replayed rights; so no replay
   * nets a change to a sequence the baseline knew. What a line is about is what the check reads off
   * it, which for a plain name is the name.
   */
  lemma SequenceChecksAgree(c: Case, role: string, name: string, right: string)
    requires c.WellFormed() && c.Clean() && role in COMPARED_ROLES && right in RIGHTS
    ensures var line := Line(role, name, right);
      var known := KnownObject(c.baseline.sequenceGrants, ObjectOr(line, ""));
      var expected := ExpectedLines(c.Range(), set l | l in c.baseline.sequenceGrants);
      && (known ==> (line in c.live.sequenceGrants <==> line in c.baseline.sequenceGrants))
      && (name in NamedSequences(c.Range()) ==> (line in c.live.sequenceGrants <==> line in expected))
      && (known && name in NamedSequences(c.Range()) ==> (line in expected <==> line in c.baseline.sequenceGrants))
      && (Plain(name) ==> ObjectOr(line, "") == name)
  {
    var line := Line(role, name, right);
    assert !c.Reports(AclLost(SequenceAcl, line));
    assert !c.Reports(AclGained(SequenceAcl, line));
    if name in NamedSequences(c.Range()) {
      NamedSequenceAgrees(c, role, name, right);
    }
    if Plain(name) {
      RolesArePlain(role);
      ObjectOfLine(role, name, right);
    }
  }

  lemma RolesArePlain(role: string)
    requires role in COMPARED_ROLES
    ensures Plain(role)
  {
    NamesArePlain(role);
  }

  lemma NamedSequenceAgrees(c: Case, role: string, name: string, right: string)
    requires c.WellFormed() && c.Clean() && role in COMPARED_ROLES && right in RIGHTS
    requires name in NamedSequences(c.Range())
    ensures Line(role, name, right) in c.live.sequenceGrants
       <==> Line(role, name, right) in ExpectedLines(c.Range(), set l | l in c.baseline.sequenceGrants)
  {
    var expected := ExpectedLines(c.Range(), set l | l in c.baseline.sequenceGrants);
    var live := set l | l in c.live.sequenceGrants;
    var want, have := RightsIn(expected, role, name), RightsIn(live, role, name);
    assert !c.Reports(SequenceDiffers(SequenceDifference(role, name, want - have, have - want)));
    assert want - have == {} && have - want == {};
    assert right in want <==> Line(role, name, right) in expected;
    assert right in have <==> Line(role, name, right) in live;
  }
}
