// What a clean check says of a table the baseline did not know, when it lets a loss on a known one
// pass without a declaration, and when it reports a difference although access is right.
module PrivilegeGateLimits {
  import opened Text
  import opened LastEvent
  import opened AclLines
  import opened Replay
  import opened ReplayMeaning
  import opened ReplayByStatement
  import opened SequenceGrants
  import opened PrivilegeGate

  /**
   * When the check is clean, a compared role holds a privilege on a table, new or not, exactly when
   * the last event of the range about it is a grant, or there is none and the baseline holds it.
   */
  lemma LiveIsLastEvent(c: Case, role: string, table: string, privilege: string)
    requires c.WellFormed() && c.Clean() && role in COMPARED_ROLES && c.ComparesTable(table)
    ensures HeldIn(c.live.tableGrants, role, table, privilege)
       <==> LastSets(EffectsOn(Events(c.Range(), c.baseline.tables), role, table, privilege),
                     HeldIn(c.baseline.tableGrants, role, table, privilege))
  {
    CleanTables(c, role, table, privilege);
    MatrixHolds(map[], c.baseline.tableGrants, role, table, privilege);
    LastEventDecides(c.Range(), MatrixFrom(map[], c.baseline.tableGrants), c.baseline.tables, role, table, privilege);
  }

  /**
   * So on a new table that nothing excuses, and that a migration of the range therefore names, the
   * runtime holds exactly the privileges whose last event is a grant: it may be none at all.
   */
  lemma NewTableHolds(c: Case, table: string, privilege: string)
    requires c.WellFormed() && c.Clean() && table in c.live.tables && table !in c.baseline.tables
    requires !Excused(c.exceptions, c.baseline.schemaVersion, c.toVersion, table)
    requires !HeldIn(c.baseline.tableGrants, RUNTIME_GROUP_ROLE, table, privilege)
    ensures exists k :: 0 <= k < |c.Range()| && table in NamedForRuntime(c.Range()[k].sql)
    ensures var effects := EffectsOn(Events(c.Range(), c.baseline.tables), RUNTIME_GROUP_ROLE, table, privilege);
      HeldIn(c.live.tableGrants, RUNTIME_GROUP_ROLE, table, privilege)
      <==> exists k :: 0 <= k < |effects| && effects[k].Sets? && QuietFrom(effects, k + 1)
  {
    NewTablesAreReviewed(c, table);
    assert COMPARED_ROLES[0] == RUNTIME_GROUP_ROLE;
    LiveIsLastEvent(c, RUNTIME_GROUP_ROLE, table, privilege);
  }

  // ------------------------------------------------- a clean case without any access

  /** A new table, a grant on it to the runtime, and the same grant taken back. */
  function TakenBack(table: string, privilege: string): seq<Sql> {
    [CreateTable(table),
     OnTables(GRANT, [privilege], [table], [RUNTIME_GROUP_ROLE]),
     OnTables(REVOKE, [privilege], [table], [RUNTIME_GROUP_ROLE])]
  }

  function Nothing(version: nat, tables: seq<string>): Privileges {
    Privileges(version, tables, [], [], [], [], [])
  }

  function TakenBackCase(table: string, privilege: string): Case {
    Case(Nothing(1, []), [Migration(2, TakenBack(table, privilege))], 2, Nothing(2, [table]), map[])
  }

  function TakenBackRange(table: string, privilege: string): seq<Dated> {
    [Dated(2, TakenBack(table, privilege)[0]), Dated(2, TakenBack(table, privilege)[1]),
     Dated(2, TakenBack(table, privilege)[2])]
  }

  lemma RangeIs(table: string, privilege: string)
    ensures TakenBackCase(table, privilege).Range() == TakenBackRange(table, privilege)
  {
    var sql := TakenBack(table, privilege);
    assert sql[1..] == [sql[1], sql[2]] && sql[1..][1..] == [sql[2]] && sql[1..][1..][1..] == [];
    assert Stamped(2, sql[1..][1..]) == [Dated(2, sql[2])] + [];
    assert Stamped(2, sql[1..]) == [Dated(2, sql[1])] + Stamped(2, sql[1..][1..]);
    assert Stamped(2, sql) == [Dated(2, sql[0])] + Stamped(2, sql[1..]);
    var directory := [Migration(2, sql)];
    assert directory[1..] == [];
    assert InRange(directory, 1, 2) == Stamped(2, sql) + [];
  }

  lemma NothingIsHeld(table: string, privilege: string, r: string, t: string, p: string)
    ensures !Held(TakenBackCase(table, privilege).Expected().matrix, r, t, p)
  {
    var range := TakenBackRange(table, privilege);
    RangeIs(table, privilege);
    ReplayByStatements(range, map[], [], r, t, p);
    assert range[1..] == [range[1], range[2]] && range[1..][1..] == [range[2]] && range[1..][1..][1..] == [];
    var granted := HeldAfter(range[1].sql, [table], r, t, p, false);
    assert Covers(privilege, privilege);
    assert [privilege][0] == privilege;
    assert !HeldAfter(range[2].sql, [table], r, t, p, granted);
    assert !HeldAfterAll(range[1..][1..], [table], r, t, p, granted);
    assert !HeldAfterAll(range[1..], [table], r, t, p, false);
    assert PresentAfter(range[0].sql, []) == [table];
  }

  lemma TableIsNamed(table: string, privilege: string)
    ensures table in TakenBackCase(table, privilege).Expected().explicitRuntimeGrants
  {
    var range := TakenBackRange(table, privilege);
    RangeIs(table, privilege);
    ComparedOne();
    assert range[1..][0] == range[1];
    assert NamedByTables(GRANT, RUNTIME_GROUP_ROLE, [table], [privilege])
        == {table} + NamedByTables(GRANT, RUNTIME_GROUP_ROLE, [], [privilege]);
    assert table in NamedForRuntime(range[1].sql);
    assert table in Named(range[1..]);
  }

  lemma NoSequences(table: string, privilege: string)
    ensures Supported(TakenBackCase(table, privilege).Range())
    ensures NamedSequences(TakenBackCase(table, privilege).Range()) == {}
  {
    var range := TakenBackRange(table, privilege);
    RangeIs(table, privilege);
    assert range[1..] == [range[1], range[2]] && range[1..][1..] == [range[2]] && range[1..][1..][1..] == [];
    assert NamedSequences(range[1..][1..]) == {};
    assert NamedSequences(range[1..]) == {};
  }

  lemma TablesAgree(table: string, privilege: string, role: string, t: string)
    ensures SetOf(TakenBackCase(table, privilege).Expected().matrix, role, t) == {}
  {
    forall p
      ensures p !in SetOf(TakenBackCase(table, privilege).Expected().matrix, role, t)
    {
      NothingIsHeld(table, privilege, role, t, p);
    }
  }

  lemma TakenBackIsClean(table: string, privilege: string)
    ensures TakenBackCase(table, privilege).WellFormed() && TakenBackCase(table, privilege).Clean()
  {
    var c := TakenBackCase(table, privilege);
    NoSequences(table, privilege);
    TableIsNamed(table, privilege);
    forall f: Finding
      ensures !c.Reports(f)
    {
      if f.GrantDiffers? {
        TablesAgree(table, privilege, f.role, f.table);
      }
    }
  }

  /**
   * A clean check does not mean the runtime reaches a new table: here one is live, excused by nobody
   * and named by a grant that is taken back, and no role holds anything on it.
   */
  lemma CleanWithoutAccess(table: string, privilege: string)
    ensures var c := TakenBackCase(table, privilege);
      && c.WellFormed() && c.Clean() && table in c.live.tables && table !in c.baseline.tables
      && !Excused(c.exceptions, c.baseline.schemaVersion, c.toVersion, table)
      && forall role, p :: !HeldIn(c.live.tableGrants, role, table, p)
  {
    TakenBackIsClean(table, privilege);
  }

  // -------------------------------------------------- losses nobody declared

  /** Event `k` of the range takes the privilege away, and nothing after it says anything about it. */
  ghost predicate LastTakes(c: Case, role: string, table: string, privilege: string, k: nat) {
    var effects := EffectsOn(Events(c.Range(), c.baseline.tables), role, table, privilege);
    k < |effects| && effects[k].Clears? && QuietFrom(effects, k + 1)
  }

  /** The table is made or dropped, or a declared revoke covers the privilege. */
  ghost predicate TakenOpenly(c: Case, e: Event, role: string, table: string, privilege: string) {
    || (e == Forget(table) && CreatedOrDropped(c.Range(), table))
    || (e.Take? && e.role == role && e.table == table && Covers(e.privilege, privilege)
        && DeclaredInRange(c, REVOKE, table, role, e.privilege))
  }

  /**
   * When the check is clean, a privilege held on a table the baseline knew is lost exactly when the
   * last event of the range about it takes it away; and unless that event is the creation or the
   * drop of the table, it is a revoke that somebody declared.
   */
  lemma LossExactly(c: Case, role: string, table: string, privilege: string)
    requires c.WellFormed() && c.Clean() && role in COMPARED_ROLES && table in c.baseline.tables
    requires HeldIn(c.baseline.tableGrants, role, table, privilege)
    ensures !HeldIn(c.live.tableGrants, role, table, privilege)
       <==> exists k: nat :: LastTakes(c, role, table, privilege, k)
    ensures forall k: nat :: LastTakes(c, role, table, privilege, k) ==>
      TakenOpenly(c, Events(c.Range(), c.baseline.tables)[k], role, table, privilege)
  {
    var effects := EffectsOn(Events(c.Range(), c.baseline.tables), role, table, privilege);
    LiveIsLastEvent(c, role, table, privilege);
    LastEventWins(effects, true);
    LostIffLastClears(effects);
    if k: nat :| k < |effects| && effects[k].Clears? && QuietFrom(effects, k + 1) {
      assert LastTakes(c, role, table, privilege, k);
    }
    forall k: nat | LastTakes(c, role, table, privilege, k)
      ensures TakenOpenly(c, Events(c.Range(), c.baseline.tables)[k], role, table, privilege)
    {
      TakerIsDeclared(c, Events(c.Range(), c.baseline.tables)[k], role, table, privilege);
    }
  }

  lemma TakerIsDeclared(c: Case, e: Event, role: string, table: string, privilege: string)
    requires c.WellFormed() && c.Clean() && table in c.baseline.tables
    requires e in Events(c.Range(), c.baseline.tables) && EffectOn(e, role, table, privilege).Clears?
    ensures TakenOpenly(c, e, role, table, privilege)
  {
    if e.Take? {
      EveryEventLogged(c.Range(), c.baseline.tables, e);
      LoggedIsDeclared(c, REVOKE, role, table, e.privilege);
    } else {
      ForgottenWasCreatedOrDropped(c.Range(), c.baseline.tables, table);
    }
  }

  /** A table of the baseline is dropped and made again, and one line of access to it is gone. */
  function RecreatedCase(line: string, table: string): Case {
    Case(Nothing(1, [table]).(tableGrants := [line]),
         [Migration(2, [DropTable([table]), CreateTable(table)])], 2, Nothing(2, [table]), map[])
  }

  lemma RecreatedRange(line: string, table: string)
    ensures RecreatedCase(line, table).Range() == [Dated(2, DropTable([table])), Dated(2, CreateTable(table))]
  {
    var sql := [DropTable([table]), CreateTable(table)];
    assert sql[1..] == [sql[1]] && sql[1..][1..] == [];
    assert Stamped(2, sql[1..]) == [Dated(2, sql[1])] + [];
    assert Stamped(2, sql) == [Dated(2, sql[0])] + Stamped(2, sql[1..]);
    var directory := RecreatedCase(line, table).directory;
    assert directory[1..] == [];
    assert InRange(directory, 1, 2) == Stamped(2, sql) + [];
  }

  lemma RecreatedHoldsNothing(line: string, table: string, privilege: string, r: string, t: string, p: string)
    requires Parse(line) == Some(Parsed(RUNTIME_GROUP_ROLE, table, privilege))
    ensures !Held(RecreatedCase(line, table).Expected().matrix, r, t, p)
  {
    var range, start := RecreatedCase(line, table).Range(), MatrixFrom(map[], [line]);
    RecreatedRange(line, table);
    MatrixHolds(map[], [line], r, t, p);
    ReplayByStatements(range, start, [table], r, t, p);
    assert range[1..] == [range[1]] && range[1..][1..] == [];
    assert [table][0] == table;
    var held := HeldAfter(range[0].sql, [table], r, t, p, Held(start, r, t, p));
    assert !held;
    assert !HeldAfterAll(range[1..], PresentAfter(range[0].sql, [table]), r, t, p, held);
  }

  lemma RecreatedLogsNothing(line: string, table: string, privilege: string)
    requires Parse(line) == Some(Parsed(RUNTIME_GROUP_ROLE, table, privilege))
    ensures RecreatedCase(line, table).WellFormed() && RecreatedCase(line, table).Expected().statements == []
    ensures NamedSequences(RecreatedCase(line, table).Range()) == {}
  {
    var range := RecreatedCase(line, table).Range();
    RecreatedRange(line, table);
    assert range[1..] == [range[1]] && range[1..][1..] == [];
    var dropped := PresentAfter(range[0].sql, [table]);
    assert Log(range[1..][1..], PresentAfter(range[1].sql, dropped)) == [];
    assert Log(range[1..], dropped) == [];
    assert Log(range, [table]) == [];
    assert NamedSequences(range[1..]) == {};
  }

  lemma RecreatedAgrees(line: string, table: string, privilege: string, role: string, t: string)
    requires Parse(line) == Some(Parsed(RUNTIME_GROUP_ROLE, table, privilege))
    ensures SetOf(RecreatedCase(line, table).Expected().matrix, role, t) == {}
  {
    forall p
      ensures p !in SetOf(RecreatedCase(line, table).Expected().matrix, role, t)
    {
      RecreatedHoldsNothing(line, table, privilege, role, t, p);
    }
  }

  /** Nothing but table grants on either side, none of them live, and nothing logged or named. */
  ghost predicate Bare(c: Case) {
    && c.WellFormed() && c.Expected().statements == [] && NamedSequences(c.Range()) == {}
    && c.baseline == Nothing(c.baseline.schemaVersion, c.baseline.tables).(tableGrants := c.baseline.tableGrants)
    && c.live == Nothing(c.live.schemaVersion, c.baseline.tables)
  }

  lemma BareReports(c: Case, f: Finding)
    requires Bare(c) && c.Reports(f)
    ensures f.GrantDiffers? && SetOf(c.Expected().matrix, f.role, f.table) != {}
  {
    match f {
      case GrantDiffers(role, table, missing, extra) =>
        assert SetOf(MatrixFrom(map[], []), role, table) == {};
      case AclLost(_, _) =>
      case AclGained(_, _) =>
      case SequenceDiffers(_) =>
      case NewTableWithoutAccess(_) =>
      case UndeclaredGrantChange(_, _) =>
    }
  }

  lemma RecreatedIsClean(line: string, table: string, privilege: string)
    requires Parse(line) == Some(Parsed(RUNTIME_GROUP_ROLE, table, privilege))
    ensures RecreatedCase(line, table).WellFormed() && RecreatedCase(line, table).Clean()
  {
    var c := RecreatedCase(line, table);
    RecreatedLogsNothing(line, table, privilege);
    assert Bare(c);
    if f: Finding :| c.Reports(f) {
      BareReports(c, f);
      RecreatedAgrees(line, table, privilege, f.role, f.table);
    }
  }

  /**
   * Such a loss exists: the runtime loses a privilege on a table the baseline knew, the check is
   * clean, and nobody declared anything.
   */
  lemma RecreationLosesUndeclared(line: string, table: string, privilege: string)
    requires Parse(line) == Some(Parsed(RUNTIME_GROUP_ROLE, table, privilege))
    ensures var c := RecreatedCase(line, table);
      && c.WellFormed() && c.Clean() && table in c.baseline.tables && c.exceptions == map[]
      && HeldIn(c.baseline.tableGrants, RUNTIME_GROUP_ROLE, table, privilege)
      && !HeldIn(c.live.tableGrants, RUNTIME_GROUP_ROLE, table, privilege)
  {
    RecreatedIsClean(line, table, privilege);
    assert [line][0] == line;
  }

  // ------------------------------------------- a column grant beside its whole table

  /** What is read off a server that holds `held`: no column grant the whole-table grant covers. */
  function ReadOff(held: set<string>): set<string> {
    set p | p in held && !exists whole :: whole in held && whole != p && Covers(whole, p)
  }

  /**
   * When a role's access to a table is exactly what the replay expects, the check still reports the
   * pair exactly when the replay expects a column grant beside the whole-table one; and what it then
   * misses are those column grants, all of them and nothing else.
   */
  lemma RightAccessReported(c: Case, role: string, table: string, missing: set<string>, extra: set<string>)
    requires c.WellFormed() && role in COMPARED_ROLES && c.ComparesTable(table)
    requires forall p :: HeldIn(c.live.tableGrants, role, table, p) <==>
      p in ReadOff(SetOf(c.Expected().matrix, role, table))
    ensures var expected := SetOf(c.Expected().matrix, role, table);
      c.Reports(GrantDiffers(role, table, missing, extra))
      <==> && extra == {} && missing != {}
           && missing == set p | p in expected && exists whole :: whole in expected && whole != p && Covers(whole, p)
  {
    var expected, live := SetOf(c.Expected().matrix, role, table), MatrixFrom(map[], c.live.tableGrants);
    forall p
      ensures p in SetOf(live, role, table) <==> p in ReadOff(expected)
    {
      MatrixHolds(map[], c.live.tableGrants, role, table, p);
    }
    assert SetOf(live, role, table) == ReadOff(expected);
    HiddenIs(expected);
  }

  lemma HiddenIs(held: set<string>)
    ensures ReadOff(held) - held == {}
    ensures held - ReadOff(held)
         == set p | p in held && exists whole :: whole in held && whole != p && Covers(whole, p)
  {
  }

  /** A grant on one column and then one on the whole table leave both in the expectation. */
  lemma BothGrantsStay(version: nat, table: string, whole: string, column: string)
    ensures var range := [Dated(version, OnTables(GRANT, [column], [table], [RUNTIME_GROUP_ROLE])),
                          Dated(version, OnTables(GRANT, [whole], [table], [RUNTIME_GROUP_ROLE]))];
      && Held(WholeRange(range, map[], [table]).matrix, RUNTIME_GROUP_ROLE, table, column)
      && Held(WholeRange(range, map[], [table]).matrix, RUNTIME_GROUP_ROLE, table, whole)
  {
    var range := [Dated(version, OnTables(GRANT, [column], [table], [RUNTIME_GROUP_ROLE])),
                  Dated(version, OnTables(GRANT, [whole], [table], [RUNTIME_GROUP_ROLE]))];
    assert range[1..] == [range[1]] && range[1..][1..] == [];
    assert COMPARED_ROLES[0] == RUNTIME_GROUP_ROLE && [RUNTIME_GROUP_ROLE][0] == RUNTIME_GROUP_ROLE;
    assert [column][0] == column && [whole][0] == whole && [table][0] == table;
    ReplayByStatements(range, map[], [table], RUNTIME_GROUP_ROLE, table, column);
    ReplayByStatements(range, map[], [table], RUNTIME_GROUP_ROLE, table, whole);
    var first := HeldAfter(range[0].sql, [table], RUNTIME_GROUP_ROLE, table, column, false);
    assert HeldAfterAll(range[1..], [table], RUNTIME_GROUP_ROLE, table, column, first);
    var before := HeldAfter(range[0].sql, [table], RUNTIME_GROUP_ROLE, table, whole, false);
    assert HeldAfter(range[1].sql, [table], RUNTIME_GROUP_ROLE, table, whole, before);
    assert HeldAfterAll(range[1..], [table], RUNTIME_GROUP_ROLE, table, whole, before);
  }
}
