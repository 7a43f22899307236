// The privilege replay read one statement at a time: what a whole GRANT, REVOKE, CREATE TABLE
// or DROP TABLE does to one privilege, whatever order its roles and tables are visited in.
module ReplayByStatement {
  import opened LastEvent
  import opened Lists
  import opened Replay
  import opened ReplayMeaning

  /** Granting adds the named privileges; revoking removes them and the column grants under them. */
  predicate Acted(verb: Verb, privileges: seq<string>, privilege: string, held: bool) {
    match verb
    case GRANT => held || privilege in privileges
    case REVOKE => held && forall q :: q in privileges ==> !Covers(q, privilege)
  }

  predicate HeldAfter(sql: Sql, present: seq<string>, role: string, table: string, privilege: string, held: bool) {
    match sql
    case CreateTable(name) => held && name != table
    case DropTable(names) => held && table !in names
    case OnTables(verb, privileges, tables, roles) =>
      if role in COMPARED_ROLES && role in roles && table in tables then Acted(verb, privileges, privilege, held)
      else held
    case OnAllTables(verb, privileges, roles) =>
      if role in COMPARED_ROLES && role in roles && table in present then Acted(verb, privileges, privilege, held)
      else held
    case _ => held
  }

  predicate HeldAfterAll(range: seq<Dated>, present: seq<string>, role: string, table: string, privilege: string,
                         held: bool)
    decreases |range|
  {
    if range == [] then held
    else HeldAfterAll(range[1..], PresentAfter(range[0].sql, present), role, table, privilege,
                      HeldAfter(range[0].sql, present, role, table, privilege, held))
  }

  lemma {:induction false} EffectsOfSum(x: seq<Event>, y: seq<Event>, role: string, table: string, privilege: string)
    ensures EffectsOn(x + y, role, table, privilege)
      == EffectsOn(x, role, table, privilege) + EffectsOn(y, role, table, privilege)
  {
    var all := EffectsOn(x + y, role, table, privilege);
    var parts := EffectsOn(x, role, table, privilege) + EffectsOn(y, role, table, privilege);
    assert forall k :: 0 <= k < |x + y| ==> all[k] == parts[k];
  }

  lemma OutcomeOfEvents(x: seq<Event>, y: seq<Event>, role: string, table: string, privilege: string, held: bool)
    ensures Outcome(EffectsOn(x + y, role, table, privilege), held)
         == Outcome(EffectsOn(y, role, table, privilege), Outcome(EffectsOn(x, role, table, privilege), held))
  {
    EffectsOfSum(x, y, role, table, privilege);
    OutcomeOfSum(EffectsOn(x, role, table, privilege), EffectsOn(y, role, table, privilege), held);
  }

  lemma OutcomeOfEvent(e: Event, role: string, table: string, privilege: string, held: bool)
    ensures Outcome(EffectsOn([e], role, table, privilege), held) == After(EffectOn(e, role, table, privilege), held)
  {
    var effects := EffectsOn([e], role, table, privilege);
    assert effects == [EffectOn(e, role, table, privilege)];
    assert effects[1..] == [];
  }

  lemma {:induction false} PrivilegesAct(verb: Verb, r: string, t: string, privileges: seq<string>,
                                         role: string, table: string, privilege: string, held: bool)
    ensures Outcome(EffectsOn(PrivilegeEvents(verb, r, t, privileges), role, table, privilege), held)
         == if r == role && t == table then Acted(verb, privileges, privilege, held) else held
  {
    if privileges != [] {
      var e := if verb.GRANT? then Give(r, t, privileges[0]) else Take(r, t, privileges[0]);
      OutcomeOfEvents([e], PrivilegeEvents(verb, r, t, privileges[1..]), role, table, privilege, held);
      OutcomeOfEvent(e, role, table, privilege, held);
      PrivilegesAct(verb, r, t, privileges[1..], role, table, privilege,
                    After(EffectOn(e, role, table, privilege), held));
      assert forall q :: q in privileges <==> q == privileges[0] || q in privileges[1..];
    }
  }

  lemma {:induction false} TablesAct(verb: Verb, r: string, tables: seq<string>, privileges: seq<string>,
                                     role: string, table: string, privilege: string, held: bool)
    ensures Outcome(EffectsOn(TableEvents(verb, r, tables, privileges), role, table, privilege), held)
         == if r == role && table in tables then Acted(verb, privileges, privilege, held) else held
  {
    if tables != [] {
      var touch, acts, rest := [Touch(r, tables[0])], PrivilegeEvents(verb, r, tables[0], privileges),
                               TableEvents(verb, r, tables[1..], privileges);
      OutcomeOfEvents(touch + acts, rest, role, table, privilege, held);
      OutcomeOfEvents(touch, acts, role, table, privilege, held);
      OutcomeOfEvent(Touch(r, tables[0]), role, table, privilege, held);
      PrivilegesAct(verb, r, tables[0], privileges, role, table, privilege, held);
      var now := if r == role && tables[0] == table then Acted(verb, privileges, privilege, held) else held;
      TablesAct(verb, r, tables[1..], privileges, role, table, privilege, now);
    }
  }

  lemma {:induction false} RolesAct(verb: Verb, roles: seq<string>, tables: seq<string>, privileges: seq<string>,
                                    role: string, table: string, privilege: string, held: bool)
    ensures Outcome(EffectsOn(RoleEvents(verb, roles, tables, privileges), role, table, privilege), held)
         == if role in roles && table in tables then Acted(verb, privileges, privilege, held) else held
  {
    if roles != [] {
      OutcomeOfEvents(TableEvents(verb, roles[0], tables, privileges), RoleEvents(verb, roles[1..], tables, privileges),
                      role, table, privilege, held);
      TablesAct(verb, roles[0], tables, privileges, role, table, privilege, held);
      var now := if roles[0] == role && table in tables then Acted(verb, privileges, privilege, held) else held;
      RolesAct(verb, roles[1..], tables, privileges, role, table, privilege, now);
    }
  }

  lemma {:induction false} ComparedIs(roles: seq<string>, role: string)
    ensures role in Compared(roles) <==> role in roles && role in COMPARED_ROLES
  {
    if roles != [] {
      ComparedIs(roles[1..], role);
    }
  }

  lemma {:induction false} ForgetsAct(names: seq<string>, role: string, table: string, privilege: string, held: bool)
    ensures Outcome(EffectsOn(ForgetEvents(names), role, table, privilege), held) == (held && table !in names)
  {
    if names != [] {
      OutcomeOfEvents([Forget(names[0])], ForgetEvents(names[1..]), role, table, privilege, held);
      OutcomeOfEvent(Forget(names[0]), role, table, privilege, held);
      ForgetsAct(names[1..], role, table, privilege, held && names[0] != table);
    }
  }

  lemma StatementActs(sql: Sql, present: seq<string>, role: string, table: string, privilege: string, held: bool)
    ensures Outcome(EffectsOn(StatementEvents(sql, present), role, table, privilege), held)
         == HeldAfter(sql, present, role, table, privilege, held)
  {
    match sql {
      case CreateTable(name) => OutcomeOfEvent(Forget(name), role, table, privilege, held);
      case DropTable(names) => ForgetsAct(names, role, table, privilege, held);
      case OnTables(verb, privileges, tables, roles) =>
        ComparedIs(roles, role);
        RolesAct(verb, Compared(roles), tables, privileges, role, table, privilege, held);
      case OnAllTables(verb, privileges, roles) =>
        ComparedIs(roles, role);
        RolesAct(verb, Compared(roles), present, privileges, role, table, privilege, held);
      case _ =>
    }
  }

  lemma {:induction false} StatementsAct(range: seq<Dated>, present: seq<string>, role: string, table: string,
                                         privilege: string, held: bool)
    ensures Outcome(EffectsOn(Events(range, present), role, table, privilege), held)
         == HeldAfterAll(range, present, role, table, privilege, held)
    decreases |range|
  {
    if range != [] {
      var later := PresentAfter(range[0].sql, present);
      OutcomeOfEvents(StatementEvents(range[0].sql, present), Events(range[1..], later), role, table, privilege, held);
      StatementActs(range[0].sql, present, role, table, privilege, held);
      StatementsAct(range[1..], later, role, table, privilege,
                    HeldAfter(range[0].sql, present, role, table, privilege, held));
    }
  }

  /** The nested loops over a mutable matrix refine the one-privilege-at-a-time reading. */
  lemma ReplayByStatements(range: seq<Dated>, start: Matrix, tables: seq<string>, role: string, table: string,
                           privilege: string)
    ensures Held(WholeRange(range, start, tables).matrix, role, table, privilege)
        <==> HeldAfterAll(range, tables, role, table, privilege, Held(start, role, table, privilege))
  {
    EventsTouched(range, tables);
    ReplayDecides(start, Events(range, tables), {}, role, table, privilege);
    StatementsAct(range, tables, role, table, privilege, Held(start, role, table, privilege));
  }

  // --------------------------------------------------- a baseline cut anywhere

  /** The same tables, each listed once, in any order. */
  ghost predicate SameTables(x: seq<string>, y: seq<string>) {
    (forall t :: t in x <==> t in y) && EachOnce(x) && EachOnce(y)
  }

  lemma WithoutAllSame(x: seq<string>, y: seq<string>, names: seq<string>)
    requires SameTables(x, y)
    ensures SameTables(WithoutAll(x, names), WithoutAll(y, names))
  {
    forall t
      ensures t in WithoutAll(x, names) <==> t in WithoutAll(y, names)
    {
      WithoutAllHas(x, names, t);
      WithoutAllHas(y, names, t);
    }
    WithoutAllHas(x, names, "");
    WithoutAllHas(y, names, "");
  }

  lemma PresentSame(sql: Sql, x: seq<string>, y: seq<string>)
    requires SameTables(x, y)
    ensures SameTables(PresentAfter(sql, x), PresentAfter(sql, y))
  {
    if sql.DropTable? {
      WithoutAllSame(x, y, sql.names);
    }
  }

  lemma {:induction false} SameTablesSameHeld(range: seq<Dated>, x: seq<string>, y: seq<string>, role: string,
                                              table: string, privilege: string, held: bool)
    requires SameTables(x, y)
    ensures HeldAfterAll(range, x, role, table, privilege, held) == HeldAfterAll(range, y, role, table, privilege, held)
    decreases |range|
  {
    if range != [] {
      PresentSame(range[0].sql, x, y);
      SameTablesSameHeld(range[1..], PresentAfter(range[0].sql, x), PresentAfter(range[0].sql, y),
                         role, table, privilege,
                         HeldAfter(range[0].sql, x, role, table, privilege, held));
    }
  }

  const BOOTSTRAP_TABLES := ["schema_versions"]

  /** The declared grants of migrations 1 to `through`, replayed from nothing. */
  function Declared(directory: seq<Migration>, through: nat): Replayed {
    WholeRange(InRange(directory, 0, through), map[], BOOTSTRAP_TABLES)
  }

  /**
   * A baseline taken at any version, with its tables in any order, yields the same expectation
   * as replaying everything from nothing.
   */
  lemma BaselineCutAnywhere(directory: seq<Migration>, cut: nat, through: nat, baseline: Matrix, tables: seq<string>,
                            role: string, table: string, privilege: string)
    requires Ordered(directory) && cut <= through
    requires SameTables(tables, PresentAfterAll(InRange(directory, 0, cut), BOOTSTRAP_TABLES))
    requires forall r, t, p :: Held(baseline, r, t, p) <==> Held(Declared(directory, cut).matrix, r, t, p)
    ensures Held(WholeRange(InRange(directory, cut, through), baseline, tables).matrix, role, table, privilege)
        <==> Held(Declared(directory, through).matrix, role, table, privilege)
  {
    var late := InRange(directory, cut, through);
    var present := PresentAfterAll(InRange(directory, 0, cut), BOOTSTRAP_TABLES);
    ReplayComposes(directory, 0, cut, through, map[], BOOTSTRAP_TABLES);
    ReplayByStatements(late, baseline, tables, role, table, privilege);
    ReplayByStatements(late, Declared(directory, cut).matrix, present, role, table, privilege);
    SameTablesSameHeld(late, tables, present, role, table, privilege, Held(baseline, role, table, privilege));
  }

  /** A grant that is taken back leaves nothing behind, and still counts as naming the table for the runtime. */
  lemma RevokedStillNamed(version: nat, table: string, privilege: string, start: Matrix, tables: seq<string>)
    ensures var range := [Dated(version, OnTables(GRANT, [privilege], [table], [RUNTIME_GROUP_ROLE])),
                          Dated(version, OnTables(REVOKE, [privilege], [table], [RUNTIME_GROUP_ROLE]))];
      && table in Named(range)
      && !Held(WholeRange(range, start, tables).matrix, RUNTIME_GROUP_ROLE, table, privilege)
  {
    var grant, revoke := OnTables(GRANT, [privilege], [table], [RUNTIME_GROUP_ROLE]),
      OnTables(REVOKE, [privilege], [table], [RUNTIME_GROUP_ROLE]);
    var range := [Dated(version, grant), Dated(version, revoke)];
    var held := Held(start, RUNTIME_GROUP_ROLE, table, privilege);
    ReplayByStatements(range, start, tables, RUNTIME_GROUP_ROLE, table, privilege);
    assert range[1..] == [Dated(version, revoke)] && range[1..][1..] == [];
    assert COMPARED_ROLES[0] == RUNTIME_GROUP_ROLE;
    assert [table][0] == table && [privilege][0] == privilege && [RUNTIME_GROUP_ROLE][0] == RUNTIME_GROUP_ROLE;
    var given := HeldAfter(grant, tables, RUNTIME_GROUP_ROLE, table, privilege, held);
    assert Covers(privilege, privilege);
    assert !HeldAfter(revoke, tables, RUNTIME_GROUP_ROLE, table, privilege, given);
    assert !HeldAfterAll(range[1..], tables, RUNTIME_GROUP_ROLE, table, privilege, given);
    assert range[0].sql == grant && PresentAfter(grant, tables) == tables;
    ComparedOne();
    assert NamedByTables(GRANT, RUNTIME_GROUP_ROLE, [table], [privilege])
      == {table} + NamedByTables(GRANT, RUNTIME_GROUP_ROLE, [], [privilege]);
    assert table in NamedForRuntime(grant);
    assert Named(range) == NamedForRuntime(range[0].sql) + Named(range[1..]);
  }

  lemma ComparedOne()
    ensures Compared([RUNTIME_GROUP_ROLE]) == [RUNTIME_GROUP_ROLE]
  {
    assert COMPARED_ROLES[0] == RUNTIME_GROUP_ROLE;
    assert [RUNTIME_GROUP_ROLE][1..] == [];
  }
}
