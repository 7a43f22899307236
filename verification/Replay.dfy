// tools/upgrade/grants.ts, the replay: every GRANT, REVOKE, CREATE TABLE and DROP TABLE of a
// range of migrations, folded over a role -> table -> privileges matrix.
module Replay {
  import opened Lists

  const COMPARED_ROLES: seq<string> := ["app_runtime", "migration"]
  const RUNTIME_GROUP_ROLE := "app_runtime"

  datatype Verb = GRANT | REVOKE

  /** A right of a sequence grant, as written. */
  datatype Right = ALL | One(name: string)

  /** A migration's statement, as far as access is concerned. */
  datatype Sql =
    | CreateTable(name: string)
    | DropTable(names: seq<string>)
    | OnTables(verb: Verb, privileges: seq<string>, tables: seq<string>, roles: seq<string>)
    | OnAllTables(verb: Verb, privileges: seq<string>, roles: seq<string>)
    | OnSequences(verb: Verb, rights: seq<Right>, names: seq<string>, roles: seq<string>)
    | Elsewhere

  datatype Migration = Migration(version: nat, statements: seq<Sql>)

  /** A statement with the number of the migration it stands in. */
  datatype Dated = Dated(version: nat, sql: Sql)

  type Matrix = map<string, map<string, set<string>>>

  datatype GrantStatement = GrantStatement(version: nat, verb: Verb, role: string, table: string,
                                           privileges: seq<string>, wholeSchema: bool)

  predicate Keyed(m: Matrix, role: string, table: string) {
    role in m && table in m[role]
  }

  predicate Held(m: Matrix, role: string, table: string, privilege: string) {
    Keyed(m, role, table) && privilege in m[role][table]
  }

  /** Taking `privilege` away also takes the column grants under it. */
  predicate Covers(privilege: string, held: string) {
    held == privilege || privilege + "(" <= held
  }

  // ------------------------------------------------------------- single events

  /** What a statement comes down to, one touched pair or privilege at a time. */
  datatype Event =
    | Forget(table: string)
    | Touch(role: string, table: string)
    | Give(role: string, table: string, privilege: string)
    | Take(role: string, table: string, privilege: string)

  function Entry(m: Matrix, role: string, table: string): Matrix {
    var byTable := if role in m then m[role] else map[];
    if table in byTable then m else m[role := byTable[table := {}]]
  }

  function Apply(m: Matrix, e: Event): Matrix {
    match e
    case Forget(table) => map role | role in m :: m[role] - {table}
    case Touch(role, table) => Entry(m, role, table)
    case Give(role, table, privilege) =>
      if Keyed(m, role, table) then m[role := m[role][table := m[role][table] + {privilege}]] else m
    case Take(role, table, privilege) =>
      if Keyed(m, role, table)
      then m[role := m[role][table := set held | held in m[role][table] && !Covers(privilege, held)]]
      else m
  }

  function ApplyAll(m: Matrix, events: seq<Event>): Matrix
    decreases |events|
  {
    if events == [] then m else ApplyAll(Apply(m, events[0]), events[1..])
  }

  lemma {:induction false} ApplyAllOfSum(m: Matrix, x: seq<Event>, y: seq<Event>)
    ensures ApplyAll(m, x + y) == ApplyAll(ApplyAll(m, x), y)
    decreases |x|
  {
    if x == [] {
      assert x + y == y;
    } else {
      assert (x + y)[1..] == x[1..] + y;
      ApplyAllOfSum(Apply(m, x[0]), x[1..], y);
    }
  }

  // ----------------------------------------------- what a statement comes down to

  function PrivilegeEvents(verb: Verb, role: string, table: string, privileges: seq<string>): seq<Event> {
    if privileges == [] then []
    else
      [if verb.GRANT? then Give(role, table, privileges[0]) else Take(role, table, privileges[0])]
      + PrivilegeEvents(verb, role, table, privileges[1..])
  }

  function TableEvents(verb: Verb, role: string, tables: seq<string>, privileges: seq<string>): seq<Event> {
    if tables == [] then []
    else
      [Touch(role, tables[0])] + PrivilegeEvents(verb, role, tables[0], privileges)
      + TableEvents(verb, role, tables[1..], privileges)
  }

  function RoleEvents(verb: Verb, roles: seq<string>, tables: seq<string>, privileges: seq<string>): seq<Event> {
    if roles == [] then []
    else TableEvents(verb, roles[0], tables, privileges) + RoleEvents(verb, roles[1..], tables, privileges)
  }

  function Compared(roles: seq<string>): seq<string> {
    if roles == [] then []
    else (if roles[0] in COMPARED_ROLES then [roles[0]] else []) + Compared(roles[1..])
  }

  function ForgetEvents(names: seq<string>): seq<Event> {
    if names == [] then [] else [Forget(names[0])] + ForgetEvents(names[1..])
  }

  function StatementEvents(sql: Sql, present: seq<string>): seq<Event> {
    match sql
    case CreateTable(name) => [Forget(name)]
    case DropTable(names) => ForgetEvents(names)
    case OnTables(verb, privileges, tables, roles) => RoleEvents(verb, Compared(roles), tables, privileges)
    case OnAllTables(verb, privileges, roles) => RoleEvents(verb, Compared(roles), present, privileges)
    case OnSequences(_, _, _, _) => []
    case Elsewhere => []
  }

  function PresentAfter(sql: Sql, present: seq<string>): seq<string> {
    match sql
    case CreateTable(name) => if name in present then present else present + [name]
    case DropTable(names) => WithoutAll(present, names)
    case _ => present
  }

  function TableLog(version: nat, verb: Verb, role: string, tables: seq<string>, privileges: seq<string>,
                    wholeSchema: bool): seq<GrantStatement>
  {
    if tables == [] || privileges == [] then []
    else
      [GrantStatement(version, verb, role, tables[0], privileges, wholeSchema)]
      + TableLog(version, verb, role, tables[1..], privileges, wholeSchema)
  }

  function RoleLog(version: nat, verb: Verb, roles: seq<string>, tables: seq<string>, privileges: seq<string>,
                   wholeSchema: bool): seq<GrantStatement>
  {
    if roles == [] then []
    else
      TableLog(version, verb, roles[0], tables, privileges, wholeSchema)
      + RoleLog(version, verb, roles[1..], tables, privileges, wholeSchema)
  }

  function StatementLog(dated: Dated, present: seq<string>): seq<GrantStatement> {
    match dated.sql
    case OnTables(verb, privileges, tables, roles) =>
      RoleLog(dated.version, verb, Compared(roles), tables, privileges, false)
    case OnAllTables(verb, privileges, roles) =>
      RoleLog(dated.version, verb, Compared(roles), present, privileges, true)
    case _ => []
  }

  function NamedByTables(verb: Verb, role: string, tables: seq<string>, privileges: seq<string>): set<string> {
    if tables == [] then {}
    else
      (if verb.GRANT? && role == RUNTIME_GROUP_ROLE && privileges != [] then {tables[0]} else {})
      + NamedByTables(verb, role, tables[1..], privileges)
  }

  /** The tables a grant to these roles names for the runtime one by one. */
  function NamedByRoles(verb: Verb, roles: seq<string>, tables: seq<string>, privileges: seq<string>): set<string> {
    if roles == [] then {}
    else
      NamedByTables(verb, roles[0], tables, privileges)
      + NamedByRoles(verb, roles[1..], tables, privileges)
  }

  function NamedForRuntime(sql: Sql): set<string> {
    match sql
    case OnTables(verb, privileges, tables, roles) => NamedByRoles(verb, Compared(roles), tables, privileges)
    case _ => {}
  }

  // ------------------------------------------------------------------ the range

  function Stamped(version: nat, statements: seq<Sql>): seq<Dated> {
    if statements == [] then [] else [Dated(version, statements[0])] + Stamped(version, statements[1..])
  }

  /** The statements of the migrations numbered above `after` and up to `through`. */
  function InRange(directory: seq<Migration>, after: nat, through: nat): seq<Dated> {
    if directory == [] then []
    else
      (if after < directory[0].version <= through
       then Stamped(directory[0].version, directory[0].statements) else [])
      + InRange(directory[1..], after, through)
  }

  function Events(range: seq<Dated>, present: seq<string>): seq<Event> {
    if range == [] then []
    else StatementEvents(range[0].sql, present) + Events(range[1..], PresentAfter(range[0].sql, present))
  }

  function PresentAfterAll(range: seq<Dated>, present: seq<string>): seq<string> {
    if range == [] then present else PresentAfterAll(range[1..], PresentAfter(range[0].sql, present))
  }

  function Log(range: seq<Dated>, present: seq<string>): seq<GrantStatement> {
    if range == [] then []
    else StatementLog(range[0], present) + Log(range[1..], PresentAfter(range[0].sql, present))
  }

  function Named(range: seq<Dated>): set<string> {
    if range == [] then {} else NamedForRuntime(range[0].sql) + Named(range[1..])
  }

  // ------------------------------------------------------------------ the loops

  method FilterCompared(roles: seq<string>) returns (compared: seq<string>)
    ensures compared == Compared(roles)
  {
    compared := [];
    for i := 0 to |roles|
      invariant compared + Compared(roles[i..]) == Compared(roles)
    {
      if roles[i] in COMPARED_ROLES {
        compared := compared + [roles[i]];
      }
    }
  }

  method ReplayPrivileges(start: Matrix, verb: Verb, role: string, table: string, privileges: seq<string>)
    returns (matrix: Matrix)
    ensures matrix == ApplyAll(start, [Touch(role, table)] + PrivilegeEvents(verb, role, table, privileges))
  {
    ghost var all := PrivilegeEvents(verb, role, table, privileges);
    assert ([Touch(role, table)] + all)[1..] == all;
    matrix := Entry(start, role, table);
    ghost var target := ApplyAll(matrix, all);
    for k := 0 to |privileges|
      invariant Keyed(matrix, role, table)
      invariant ApplyAll(matrix, PrivilegeEvents(verb, role, table, privileges[k..])) == target
    {
      var privilege, held := privileges[k], matrix[role][table];
      ghost var events := PrivilegeEvents(verb, role, table, privileges[k..]);
      assert events[1..] == PrivilegeEvents(verb, role, table, privileges[k + 1..]);
      if verb.GRANT? {
        held := held + {privilege};
      } else {
        // A revoked whole-table privilege does not leave its column grants behind.
        held := set each | each in held && !Covers(privilege, each);
      }
      matrix := matrix[role := matrix[role][table := held]];
    }
  }

  lemma TableStep(matrix: Matrix, verb: Verb, role: string, tables: seq<string>, privileges: seq<string>)
    requires tables != []
    ensures ApplyAll(matrix, TableEvents(verb, role, tables, privileges))
         == ApplyAll(ApplyAll(matrix, [Touch(role, tables[0])] + PrivilegeEvents(verb, role, tables[0], privileges)),
                     TableEvents(verb, role, tables[1..], privileges))
  {
    ApplyAllOfSum(matrix, [Touch(role, tables[0])] + PrivilegeEvents(verb, role, tables[0], privileges),
                  TableEvents(verb, role, tables[1..], privileges));
  }

  lemma LogGrows(statements: seq<GrantStatement>, version: nat, verb: Verb, role: string, tables: seq<string>,
                 privileges: seq<string>, wholeSchema: bool)
    requires tables != []
    ensures var now := GrantStatement(version, verb, role, tables[0], privileges, wholeSchema);
      statements + TableLog(version, verb, role, tables, privileges, wholeSchema)
      == (if privileges == [] then statements else statements + [now])
         + TableLog(version, verb, role, tables[1..], privileges, wholeSchema)
  {
  }

  /** A whole-schema grant names no table. */
  function NamedIn(wholeSchema: bool, verb: Verb, role: string, tables: seq<string>,
                   privileges: seq<string>): set<string>
  {
    if wholeSchema then {} else NamedByTables(verb, role, tables, privileges)
  }

  lemma NamedGrows(named: set<string>, wholeSchema: bool, verb: Verb, role: string, tables: seq<string>,
                   privileges: seq<string>)
    requires tables != []
    ensures var explicit := verb.GRANT? && !wholeSchema && role == RUNTIME_GROUP_ROLE && privileges != [];
      named + NamedIn(wholeSchema, verb, role, tables, privileges)
      == (if explicit then named + {tables[0]} else named) + NamedIn(wholeSchema, verb, role, tables[1..], privileges)
  {
  }

  method ReplayTables(start: Matrix, version: nat, verb: Verb, role: string, tables: seq<string>,
                      privileges: seq<string>, wholeSchema: bool)
    returns (matrix: Matrix, named: set<string>, statements: seq<GrantStatement>)
    ensures matrix == ApplyAll(start, TableEvents(verb, role, tables, privileges))
    ensures statements == TableLog(version, verb, role, tables, privileges, wholeSchema)
    ensures named == if wholeSchema then {} else NamedByTables(verb, role, tables, privileges)
  {
    matrix, named, statements := start, {}, [];
    for j := 0 to |tables|
      invariant ApplyAll(matrix, TableEvents(verb, role, tables[j..], privileges))
             == ApplyAll(start, TableEvents(verb, role, tables, privileges))
      invariant statements + TableLog(version, verb, role, tables[j..], privileges, wholeSchema)
             == TableLog(version, verb, role, tables, privileges, wholeSchema)
      invariant named + NamedIn(wholeSchema, verb, role, tables[j..], privileges)
             == NamedIn(wholeSchema, verb, role, tables, privileges)
    {
      var table := tables[j];
      assert tables[j..][1..] == tables[j + 1..];
      NamedGrows(named, wholeSchema, verb, role, tables[j..], privileges);
      if verb.GRANT? && !wholeSchema && role == RUNTIME_GROUP_ROLE && privileges != [] {
        named := named + {table};
      }
      LogGrows(statements, version, verb, role, tables[j..], privileges, wholeSchema);
      if privileges != [] {
        statements := statements + [GrantStatement(version, verb, role, table, privileges, wholeSchema)];
      }
      TableStep(matrix, verb, role, tables[j..], privileges);
      matrix := ReplayPrivileges(matrix, verb, role, table, privileges);
    }
  }

  lemma RoleStep(matrix: Matrix, verb: Verb, roles: seq<string>, tables: seq<string>, privileges: seq<string>)
    requires roles != []
    ensures ApplyAll(matrix, RoleEvents(verb, roles, tables, privileges))
         == ApplyAll(ApplyAll(matrix, TableEvents(verb, roles[0], tables, privileges)),
                     RoleEvents(verb, roles[1..], tables, privileges))
  {
    ApplyAllOfSum(matrix, TableEvents(verb, roles[0], tables, privileges),
                  RoleEvents(verb, roles[1..], tables, privileges));
  }

  lemma RoleLogGrows(statements: seq<GrantStatement>, version: nat, verb: Verb, roles: seq<string>,
                     tables: seq<string>, privileges: seq<string>, wholeSchema: bool)
    requires roles != []
    ensures statements + RoleLog(version, verb, roles, tables, privileges, wholeSchema)
         == (statements + TableLog(version, verb, roles[0], tables, privileges, wholeSchema))
            + RoleLog(version, verb, roles[1..], tables, privileges, wholeSchema)
  {
  }

  /** One GRANT or REVOKE over its roles, tables and privileges. */
  method ReplayGrant(start: Matrix, version: nat, verb: Verb, roles: seq<string>, tables: seq<string>,
                     privileges: seq<string>, wholeSchema: bool)
    returns (matrix: Matrix, named: set<string>, statements: seq<GrantStatement>)
    ensures matrix == ApplyAll(start, RoleEvents(verb, roles, tables, privileges))
    ensures statements == RoleLog(version, verb, roles, tables, privileges, wholeSchema)
    ensures named == if wholeSchema then {} else NamedByRoles(verb, roles, tables, privileges)
  {
    matrix, named, statements := start, {}, [];
    for i := 0 to |roles|
      invariant ApplyAll(matrix, RoleEvents(verb, roles[i..], tables, privileges))
             == ApplyAll(start, RoleEvents(verb, roles, tables, privileges))
      invariant statements + RoleLog(version, verb, roles[i..], tables, privileges, wholeSchema)
             == RoleLog(version, verb, roles, tables, privileges, wholeSchema)
      invariant wholeSchema ==> named == {}
      invariant var all := NamedByRoles(verb, roles, tables, privileges);
        !wholeSchema ==> named + NamedByRoles(verb, roles[i..], tables, privileges) == all
    {
      assert roles[i..][1..] == roles[i + 1..];
      RoleStep(matrix, verb, roles[i..], tables, privileges);
      RoleLogGrows(statements, version, verb, roles[i..], tables, privileges, wholeSchema);
      var more, log;
      matrix, more, log := ReplayTables(matrix, version, verb, roles[i], tables, privileges, wholeSchema);
      named, statements := named + more, statements + log;
    }
  }

  datatype Replayed = Replayed(matrix: Matrix, explicitRuntimeGrants: set<string>, statements: seq<GrantStatement>)

  method ReplayStatement(start: Matrix, tables: seq<string>, dated: Dated)
    returns (matrix: Matrix, present: seq<string>, named: set<string>, statements: seq<GrantStatement>)
    ensures matrix == ApplyAll(start, StatementEvents(dated.sql, tables))
    ensures present == PresentAfter(dated.sql, tables)
    ensures named == NamedForRuntime(dated.sql)
    ensures statements == StatementLog(dated, tables)
  {
    matrix, present, named, statements := start, tables, {}, [];
    match dated.sql {
      case CreateTable(name) =>
        if name !in present {
          present := present + [name];
        }
        matrix := map role | role in matrix :: matrix[role] - {name};
        assert [Forget(name)][1..] == [];
      case DropTable(names) =>
        for i := 0 to |names|
          invariant ApplyAll(matrix, ForgetEvents(names[i..])) == ApplyAll(start, ForgetEvents(names))
          invariant WithoutAll(present, names[i..]) == WithoutAll(tables, names)
        {
          assert ForgetEvents(names[i..])[1..] == ForgetEvents(names[i + 1..]);
          assert names[i..][1..] == names[i + 1..];
          present := Without(present, names[i]);
          matrix := map role | role in matrix :: matrix[role] - {names[i]};
        }
      case OnTables(verb, privileges, named', roles) =>
        var compared := FilterCompared(roles);
        matrix, named, statements := ReplayGrant(start, dated.version, verb, compared, named', privileges, false);
      case OnAllTables(verb, privileges, roles) =>
        var compared := FilterCompared(roles);
        matrix, named, statements := ReplayGrant(start, dated.version, verb, compared, present, privileges, true);
      case OnSequences(_, _, _, _) =>
      case Elsewhere =>
    }
  }

  /** What is left to do brings the loop's variables to the whole range's result. */
  ghost predicate OnTrack(rest: seq<Dated>, matrix: Matrix, present: seq<string>, named: set<string>,
                          statements: seq<GrantStatement>, goal: Replayed)
  {
    && ApplyAll(matrix, Events(rest, present)) == goal.matrix
    && named + Named(rest) == goal.explicitRuntimeGrants
    && statements + Log(rest, present) == goal.statements
  }

  lemma EventsStep(matrix: Matrix, rest: seq<Dated>, present: seq<string>, now: seq<Event>, later: seq<string>)
    requires rest != [] && now == StatementEvents(rest[0].sql, present) && later == PresentAfter(rest[0].sql, present)
    ensures ApplyAll(ApplyAll(matrix, now), Events(rest[1..], later)) == ApplyAll(matrix, Events(rest, present))
  {
    ApplyAllOfSum(matrix, now, Events(rest[1..], later));
  }

  lemma LogStep(statements: seq<GrantStatement>, rest: seq<Dated>, present: seq<string>, now: seq<GrantStatement>,
                later: seq<string>)
    requires rest != [] && now == StatementLog(rest[0], present) && later == PresentAfter(rest[0].sql, present)
    ensures (statements + now) + Log(rest[1..], later) == statements + Log(rest, present)
  {
    assert statements + (now + Log(rest[1..], later)) == (statements + now) + Log(rest[1..], later);
  }

  lemma NamedStep(named: set<string>, rest: seq<Dated>, now: set<string>)
    requires rest != [] && now == NamedForRuntime(rest[0].sql)
    ensures (named + now) + Named(rest[1..]) == named + Named(rest)
  {
  }

  lemma OnTrackStep(rest: seq<Dated>, matrix: Matrix, present: seq<string>, named: set<string>,
                    statements: seq<GrantStatement>, goal: Replayed, events: seq<Event>, later: seq<string>,
                    more: set<string>, log: seq<GrantStatement>)
    requires rest != [] && OnTrack(rest, matrix, present, named, statements, goal)
    requires events == StatementEvents(rest[0].sql, present) && later == PresentAfter(rest[0].sql, present)
    requires more == NamedForRuntime(rest[0].sql) && log == StatementLog(rest[0], present)
    ensures OnTrack(rest[1..], ApplyAll(matrix, events), later, named + more, statements + log, goal)
  {
    EventsStep(matrix, rest, present, events, later);
    LogStep(statements, rest, present, log, later);
    NamedStep(named, rest, more);
  }

  lemma StampedStep(migration: Migration, j: nat, later: seq<Dated>)
    requires j < |migration.statements|
    ensures var rest := Stamped(migration.version, migration.statements[j..]) + later;
      && rest != [] && rest[0] == Dated(migration.version, migration.statements[j])
      && rest[1..] == Stamped(migration.version, migration.statements[j + 1..]) + later
  {
    assert migration.statements[j..][1..] == migration.statements[j + 1..];
  }

  /** One file's statements, on the way to `goal`. */
  method ReplayFile(migration: Migration, matrix0: Matrix, present0: seq<string>, named0: set<string>,
                    statements0: seq<GrantStatement>, ghost later: seq<Dated>, ghost goal: Replayed)
    returns (matrix: Matrix, present: seq<string>, named: set<string>, statements: seq<GrantStatement>)
    requires OnTrack(Stamped(migration.version, migration.statements) + later,
                     matrix0, present0, named0, statements0, goal)
    ensures OnTrack(later, matrix, present, named, statements, goal)
  {
    matrix, present, named, statements := matrix0, present0, named0, statements0;
    for j := 0 to |migration.statements|
      invariant OnTrack(Stamped(migration.version, migration.statements[j..]) + later,
                        matrix, present, named, statements, goal)
    {
      var dated := Dated(migration.version, migration.statements[j]);
      ghost var rest := Stamped(migration.version, migration.statements[j..]) + later;
      StampedStep(migration, j, later);
      ghost var before, wasPresent := matrix, present;
      var more, log;
      matrix, present, more, log := ReplayStatement(matrix, present, dated);
      OnTrackStep(rest, before, wasPresent, named, statements, goal,
                  StatementEvents(dated.sql, wasPresent), present, more, log);
      named, statements := named + more, statements + log;
    }
    assert Stamped(migration.version, []) + later == later;
  }

  /** The whole range's result: every event of the range on the starting matrix, and its log. */
  function WholeRange(range: seq<Dated>, start: Matrix, tables: seq<string>): Replayed {
    Replayed(ApplyAll(start, Events(range, tables)), Named(range), Log(range, tables))
  }

  /** Replay the migrations numbered above `after` and up to `through` on top of `start`. */
  method ReplayRange(directory: seq<Migration>, through: nat, after: nat, start: Matrix, tables: seq<string>)
    returns (r: Replayed)
    ensures r == WholeRange(InRange(directory, after, through), start, tables)
  {
    var matrix, present, named, statements := start, tables, {}, [];
    ghost var goal := WholeRange(InRange(directory, after, through), start, tables);
    for i := 0 to |directory|
      invariant OnTrack(InRange(directory[i..], after, through), matrix, present, named, statements, goal)
    {
      var migration := directory[i];
      ghost var later := InRange(directory[i + 1..], after, through);
      assert directory[i..][1..] == directory[i + 1..];
      if migration.version > through || migration.version <= after {
        assert [] + later == later;
      } else {
        matrix, present, named, statements :=
          ReplayFile(migration, matrix, present, named, statements, later, goal);
      }
    }
    r := Replayed(matrix, named, statements);
  }
}
