// What a clean privilege check says of the files themselves: the lines of the two states, the entries of
// the exceptions file and the statements of the migrations, each by its own field.
module PrivilegeGateFields {
  import opened Text
  import opened AclLines
  import opened Replay
  import opened ReplayMeaning
  import opened RevokeMeaning
  import opened PrivilegeGate

  // ------------------------------------------------------------------ reading lines

  predicate NoBar(s: string) {
    '|' !in s
  }

  lemma SeparatorHasBar(line: string, i: nat)
    requires StartsWithAt(line, SEPARATOR, i)
    ensures line[i + 1] == '|'
  {
    assert line[i..i + 3][1] == '|';
  }

  lemma NoBarIsPlain(s: string)
    requires NoBar(s)
    ensures Plain(s) && IndexOf(s, SEPARATOR, 0) == |s|
  {
    var line := s + SEPARATOR;
    assert line[|s|..|s| + 3] == SEPARATOR;
    forall i | 0 <= i < |s|
      ensures !StartsWithAt(line, SEPARATOR, i) && !StartsWithAt(s, SEPARATOR, i)
    {
      if StartsWithAt(line, SEPARATOR, i) {
        SeparatorHasBar(line, i);
      }
      if StartsWithAt(s, SEPARATOR, i) {
        SeparatorHasBar(s, i);
      }
    }
    IndexOfIs(line, SEPARATOR, |s|);
  }

  /** The line begins with this part. */
  predicate Begins(line: string, part: string) {
    line == part || part + " | " <= line
  }

  lemma FirstPart(line: string, part: string)
    requires NoBar(part)
    ensures Split(line)[0] == part <==> Begins(line, part)
    ensures line == part ==> Split(line) == [part]
    ensures part + " | " <= line ==> Split(line) == [part] + Split(line[|part| + 3..])
  {
    NoBarIsPlain(part);
    if line == part {
      SplitLast(part);
    }
    if part + " | " <= line {
      assert line == part + SEPARATOR + line[|part| + 3..];
      SplitHead(part, line[|part| + 3..]);
    }
    if Split(line)[0] == part && line != part {
      var at := IndexOf(line, SEPARATOR, 0);
      assert line[..at] == part && line[at..at + 3] == SEPARATOR;
      assert line[..at + 3] == part + " | ";
    }
  }

  /** The line says that the grantee holds the privilege on the object; what follows is ignored. */
  predicate Says(line: string, grantee: string, object': string, privilege: string) {
    Begins(line, grantee + " | " + object' + " | " + privilege)
  }

  lemma BeginsFurther(part: string, rest: string, more: string)
    ensures Begins(part + " | " + rest, part + " | " + more) <==> Begins(rest, more)
  {
    var line, longer := part + " | " + rest, part + " | " + more;
    assert line[|part| + 3..] == rest && longer[|part| + 3..] == more;
    assert longer + " | " == part + " | " + (more + " | ");
    if more + " | " <= rest {
      assert rest == more + " | " + rest[|more| + 3..];
      assert line == longer + " | " + rest[|more| + 3..];
    }
    if longer + " | " <= line {
      assert line[..|longer| + 3] == longer + " | ";
      assert rest[..|more| + 3] == line[..|longer| + 3][|part| + 3..] == more + " | ";
    }
  }

  lemma BeginsShorter(line: string, part: string, more: string)
    requires Begins(line, part + " | " + more)
    ensures part + " | " <= line
  {
  }

  lemma TwoParts(line: string, object': string, privilege: string)
    requires NoBar(object') && NoBar(privilege)
    ensures Begins(line, object' + " | " + privilege)
       <==> |Split(line)| >= 2 && Split(line)[0] == object' && Split(line)[1] == privilege
  {
    FirstPart(line, object');
    if object' + " | " <= line {
      var rest := line[|object'| + 3..];
      assert line == object' + " | " + rest;
      FirstPart(rest, privilege);
      BeginsFurther(object', rest, privilege);
    } else if Begins(line, object' + " | " + privilege) {
      BeginsShorter(line, object', privilege);
    }
  }

  lemma SaysIff(line: string, grantee: string, object': string, privilege: string)
    requires NoBar(grantee) && NoBar(object') && NoBar(privilege)
    ensures Says(line, grantee, object', privilege) <==> Parse(line) == Some(Parsed(grantee, object', privilege))
  {
    FirstPart(line, grantee);
    var pair := object' + " | " + privilege;
    assert grantee + " | " + object' + " | " + privilege == grantee + " | " + pair;
    if grantee + " | " <= line {
      var rest := line[|grantee| + 3..];
      assert line == grantee + " | " + rest;
      TwoParts(rest, object', privilege);
      BeginsFurther(grantee, rest, pair);
    } else if Begins(line, grantee + " | " + pair) {
      BeginsShorter(line, grantee, pair);
    }
  }

  // --------------------------------------------------------- the four lists of lines

  /** The line is about this object, whatever the grantee and the privilege. */
  ghost predicate On(line: string, object': string) {
    exists grantee, privilege :: NoBar(grantee) && line == grantee + " | " + object' + " | " + privilege
  }

  lemma OnIsObject(line: string, object': string, otherwise: string)
    requires NoBar(object') && On(line, object')
    ensures ObjectOr(line, otherwise) == object'
  {
    var grantee, privilege :| NoBar(grantee) && line == grantee + " | " + object' + " | " + privilege;
    NoBarIsPlain(grantee);
    NoBarIsPlain(object');
    LineIs(grantee, object', privilege);
    SplitHead(grantee, object' + SEPARATOR + privilege);
    SplitHead(object', privilege);
  }

  /** Two lines about the same object. */
  ghost predicate SameObject(x: string, y: string) {
    exists object' :: NoBar(object') && On(x, object') && On(y, object')
  }

  /** What was there is there, and of the objects that were there nothing more. */
  ghost predicate Settled(was: seq<string>, now: seq<string>) {
    && (forall line :: line in was ==> line in now)
    && forall line, other :: line in now && other in was && SameObject(line, other) ==> line in was
  }

  /** Every line is about some object. */
  ghost predicate Shaped(lines: seq<string>) {
    forall line :: line in lines ==> exists object' :: NoBar(object') && On(line, object')
  }

  ghost predicate Quiet(was: seq<string>, now: seq<string>) {
    forall line :: !Lost(was, now, line) && !Gained(was, now, line)
  }

  lemma QuietIsSettled(was: seq<string>, now: seq<string>)
    requires Quiet(was, now)
    ensures Settled(was, now)
  {
    forall line | line in was
      ensures line in now
    {
      assert !Lost(was, now, line);
    }
    forall line, other | line in now && other in was && SameObject(line, other)
      ensures line in was
    {
      var object' :| NoBar(object') && On(line, object') && On(other, object');
      OnIsObject(line, object', "");
      OnIsObject(other, object', other);
      var i :| 0 <= i < |was| && was[i] == other;
      assert KnownObject(was, object');
      assert !Gained(was, now, line);
    }
  }

  lemma SettledIsQuiet(was: seq<string>, now: seq<string>)
    requires Settled(was, now) && Shaped(was) && Shaped(now)
    ensures Quiet(was, now)
  {
    forall line | line in now && line !in was
      ensures !KnownObject(was, ObjectOr(line, ""))
    {
      if KnownObject(was, ObjectOr(line, "")) {
        var i := SharedObject(was, now, line);
      }
    }
  }

  lemma SharedObject(was: seq<string>, now: seq<string>, line: string) returns (i: nat)
    requires Shaped(was) && Shaped(now) && line in now && KnownObject(was, ObjectOr(line, ""))
    ensures i < |was| && was[i] in was && SameObject(line, was[i])
  {
    var object' :| NoBar(object') && On(line, object');
    OnIsObject(line, object', "");
    i :| 0 <= i < |was| && ObjectOr(was[i], was[i]) == object';
    assert was[i] in was;
    var other :| NoBar(other) && On(was[i], other);
    OnIsObject(was[i], other, was[i]);
  }

  ghost predicate NoLineReported(c: Case)
    requires c.WellFormed()
  {
    forall f: Finding :: f.AclLost? || f.AclGained? ==> !c.Reports(f)
  }

  lemma QuietOf(c: Case, category: Category)
    requires c.WellFormed() && NoLineReported(c)
    ensures Quiet(c.CategoryOf(c.baseline, category), c.CategoryOf(c.live, category))
  {
    forall line
      ensures !Lost(c.CategoryOf(c.baseline, category), c.CategoryOf(c.live, category), line)
      ensures !Gained(c.CategoryOf(c.baseline, category), c.CategoryOf(c.live, category), line)
    {
      assert !c.Reports(AclLost(category, line)) && !c.Reports(AclGained(category, line));
    }
  }

  /** Each of the four lists is settled. */
  ghost predicate ListsSettled(was: Privileges, now: Privileges) {
    && Settled(was.publicGrants, now.publicGrants) && Settled(was.sequenceGrants, now.sequenceGrants)
    && Settled(was.routineGrants, now.routineGrants) && Settled(was.schemaGrants, now.schemaGrants)
  }

  ghost predicate ListsShaped(p: Privileges) {
    Shaped(p.publicGrants) && Shaped(p.sequenceGrants) && Shaped(p.routineGrants) && Shaped(p.schemaGrants)
  }

  /**
   * A clean check leaves each list of PUBLIC, sequence, routine and schema privileges settled: one line
   * lost, or one gained on an object the list knew, is always a finding.
   */
  lemma CleanSettlesLists(c: Case)
    requires c.WellFormed() && NoLineReported(c)
    ensures ListsSettled(c.baseline, c.live)
  {
    QuietOf(c, PublicAcl);
    QuietOf(c, SequenceAcl);
    QuietOf(c, RoutineAcl);
    QuietOf(c, SchemaAcl);
    QuietIsSettled(c.baseline.publicGrants, c.live.publicGrants);
    QuietIsSettled(c.baseline.sequenceGrants, c.live.sequenceGrants);
    QuietIsSettled(c.baseline.routineGrants, c.live.routineGrants);
    QuietIsSettled(c.baseline.schemaGrants, c.live.schemaGrants);
  }

  /** Where every line is about some object, that is all the four lists are asked for. */
  lemma ListsSettledExactly(c: Case)
    requires c.WellFormed() && ListsShaped(c.baseline) && ListsShaped(c.live)
    ensures NoLineReported(c) <==> ListsSettled(c.baseline, c.live)
  {
    if NoLineReported(c) {
      CleanSettlesLists(c);
    }
    if ListsSettled(c.baseline, c.live) {
      SettledIsQuiet(c.baseline.publicGrants, c.live.publicGrants);
      SettledIsQuiet(c.baseline.sequenceGrants, c.live.sequenceGrants);
      SettledIsQuiet(c.baseline.routineGrants, c.live.routineGrants);
      SettledIsQuiet(c.baseline.schemaGrants, c.live.schemaGrants);
    }
  }

  // ----------------------------------------------------- the statements of the range

  lemma {:induction false} StampedHas(version: nat, statements: seq<Sql>, d: Dated)
    ensures d in Stamped(version, statements) <==> d.version == version && d.sql in statements
  {
    if statements != [] {
      StampedHas(version, statements[1..], d);
    }
  }

  /** The range holds the statements of the migrations numbered above `after` and up to `through`, and no other. */
  lemma {:induction false} RangeHas(directory: seq<Migration>, after: nat, through: nat, d: Dated)
    ensures d in InRange(directory, after, through)
       <==> exists m :: m in directory && after < m.version <= through
                     && d.version == m.version && d.sql in m.statements
  {
    if directory != [] {
      RangeHas(directory[1..], after, through, d);
      StampedHas(directory[0].version, directory[0].statements, d);
      assert forall m :: m in directory <==> m == directory[0] || m in directory[1..];
    }
  }

  lemma {:induction false} NamedByTablesHas(verb: Verb, role: string, tables: seq<string>, privileges: seq<string>,
                                            table: string)
    ensures table in NamedByTables(verb, role, tables, privileges)
       <==> verb == GRANT && role == "app_runtime" && privileges != [] && table in tables
  {
    if tables != [] {
      NamedByTablesHas(verb, role, tables[1..], privileges, table);
    }
  }

  lemma {:induction false} NamedByRolesHas(verb: Verb, roles: seq<string>, tables: seq<string>,
                                           privileges: seq<string>, table: string)
    ensures table in NamedByRoles(verb, Compared(roles), tables, privileges)
       <==> verb == GRANT && "app_runtime" in roles && privileges != [] && table in tables
  {
    if roles != [] {
      NamedByRolesHas(verb, roles[1..], tables, privileges, table);
      NamedByTablesHas(verb, roles[0], tables, privileges, table);
      Roles(roles[0]);
      var rest := Compared(roles[1..]);
      if roles[0] in COMPARED_ROLES {
        assert Compared(roles) == [roles[0]] + rest && ([roles[0]] + rest)[1..] == rest;
      } else {
        assert Compared(roles) == rest;
      }
    }
  }

  /** The statement grants something on the table by its name to the runtime's group role. */
  predicate GrantsToRuntime(sql: Sql, table: string) {
    && sql.OnTables? && sql.verb == GRANT && sql.privileges != []
    && table in sql.tables && "app_runtime" in sql.roles
  }

  lemma NamedIs(sql: Sql, table: string)
    ensures table in NamedForRuntime(sql) <==> GrantsToRuntime(sql, table)
  {
    match sql {
      case OnTables(verb, privileges, tables, roles) => NamedByRolesHas(verb, roles, tables, privileges, table);
      case _ =>
    }
  }

  /** Some migration after the baseline's version, up to the target, holds this statement. */
  ghost predicate InSomeMigration(c: Case, sql: Sql) {
    exists m :: m in c.directory && c.baseline.schemaVersion < m.version <= c.toVersion && sql in m.statements
  }

  lemma RangeIsInMigrations(c: Case, k: nat)
    requires k < |c.Range()|
    ensures InSomeMigration(c, c.Range()[k].sql)
  {
    RangeHas(c.directory, c.baseline.schemaVersion, c.toVersion, c.Range()[k]);
  }

  // ------------------------------------------------------------- what is declared

  /** The exceptions file excuses the table under the number of a migration of the range. */
  ghost predicate ExcusedByFile(c: Case, table: string) {
    exists version :: version in c.exceptions && c.baseline.schemaVersion < version <= c.toVersion
                   && table in c.exceptions[version].runtimeAccessNone
  }

  ghost predicate GrantDeclared(c: Case, role: string, table: string, privilege: string) {
    exists version, d :: version in c.exceptions && c.baseline.schemaVersion < version <= c.toVersion
                      && d in c.exceptions[version].existingTableDeltas
                      && d.table == table && d.role == role && privilege in d.grant
  }

  ghost predicate RevokeDeclared(c: Case, role: string, table: string, privilege: string) {
    exists version, d :: version in c.exceptions && c.baseline.schemaVersion < version <= c.toVersion
                      && d in c.exceptions[version].existingTableDeltas
                      && d.table == table && d.role == role && privilege in d.revoke
  }

  ghost predicate SomeSays(lines: seq<string>, role: string, table: string, privilege: string) {
    exists line :: line in lines && Says(line, role, table, privilege)
  }

  lemma SomeSaysIff(lines: seq<string>, role: string, table: string, privilege: string)
    requires NoBar(role) && NoBar(table) && NoBar(privilege)
    ensures SomeSays(lines, role, table, privilege) <==> HeldIn(lines, role, table, privilege)
  {
    forall line | line in lines
      ensures Says(line, role, table, privilege) <==> Parse(line) == Some(Parsed(role, table, privilege))
    {
      SaysIff(line, role, table, privilege);
    }
    if HeldIn(lines, role, table, privilege) {
      var i :| 0 <= i < |lines| && Parse(lines[i]) == Some(Parsed(role, table, privilege));
      assert lines[i] in lines;
    }
  }

  /** What the names of a role, a table and a privilege must not hold for their lines to be read. */
  predicate ReadableNames(role: string, table: string, privilege: string) {
    (role == "app_runtime" || role == "migration") && NoBar(table) && NoBar(privilege)
  }

  /**
   * No laundering, line by line: what the live lines say beyond the committed ones about a table that was
   * there stands in the `grant` of a reviewed entry, and what they no longer say in the `revoke` of one,
   * by its own name or its whole-table privilege's, unless a migration creates or drops the table.
   */
  lemma ChangedLinesAreDeclared(c: Case, role: string, table: string, privilege: string)
    requires c.WellFormed() && c.Clean() && table in c.baseline.tables && ReadableNames(role, table, privilege)
    ensures var (was, now) := (c.baseline.tableGrants, c.live.tableGrants);
      SomeSays(now, role, table, privilege) && !SomeSays(was, role, table, privilege)
      ==> GrantDeclared(c, role, table, privilege)
    ensures var (was, now) := (c.baseline.tableGrants, c.live.tableGrants);
      SomeSays(was, role, table, privilege) && !SomeSays(now, role, table, privilege) && OneList(privilege)
      ==> || RevokeDeclared(c, role, table, privilege) || RevokeDeclared(c, role, table, WholeOf(privilege))
          || InSomeMigration(c, CreateTable(table))
          || exists names :: table in names && InSomeMigration(c, DropTable(names))
  {
    Roles(role);
    NoBarRole(role);
    SomeSaysIff(c.baseline.tableGrants, role, table, privilege);
    SomeSaysIff(c.live.tableGrants, role, table, privilege);
    NoLaundering(c, role, table, privilege);
    if p :| Covers(p, privilege) && DeclaredInRange(c, REVOKE, table, role, p) {
      if OneList(privilege) {
        CoversOneList(p, privilege);
        assert RevokeDeclared(c, role, table, p);
      }
    }
    if CreatedOrDropped(c.Range(), table) {
      MadeOrGone(c, table);
    }
  }

  lemma NoBarRole(role: string)
    requires role == "app_runtime" || role == "migration"
    ensures NoBar(role)
  {
  }

  lemma CoversOneList(p: string, privilege: string)
    requires OneList(privilege) && Covers(p, privilege)
    ensures p == privilege || p == WholeOf(privilege)
  {
    if IsWhole(p) {
      WholeCovers(p, privilege);
    } else {
      ColumnCovers(p, privilege);
    }
  }

  lemma MadeOrGone(c: Case, table: string)
    requires CreatedOrDropped(c.Range(), table)
    ensures || InSomeMigration(c, CreateTable(table))
            || exists names :: table in names && InSomeMigration(c, DropTable(names))
  {
    var k :| 0 <= k < |c.Range()| && match c.Range()[k].sql
      case CreateTable(name) => name == table
      case DropTable(names) => table in names
      case _ => false;
    RangeIsInMigrations(c, k);
  }

  /** A table that was not there is excused by the file, or a migration grants on it by name to the runtime. */
  lemma NewTablesByName(c: Case, table: string)
    requires c.WellFormed() && c.Clean() && table in c.live.tables && table !in c.baseline.tables
    ensures ExcusedByFile(c, table) || exists sql :: InSomeMigration(c, sql) && GrantsToRuntime(sql, table)
  {
    NewTablesAreReviewed(c, table);
    if k :| 0 <= k < |c.Range()| && table in NamedForRuntime(c.Range()[k].sql) {
      NamedIs(c.Range()[k].sql, table);
      RangeIsInMigrations(c, k);
    }
  }
}
