// What taking a privilege away means for the privileges written under it: `UPDATE(detail)` is the
// column grant under `UPDATE`, and goes with it.
module RevokeMeaning {
  import opened LastEvent
  import opened Lists
  import opened Text
  import opened Replay
  import opened ReplayByStatement

  /** The whole-table privilege a privilege belongs to: its text before the first parenthesis. */
  function WholeOf(privilege: string): string {
    privilege[..IndexOf(privilege, "(", 0)]
  }

  predicate IsWhole(privilege: string) {
    '(' !in privilege
  }

  /** At most one column list, as the source writes a column grant. */
  predicate OneList(privilege: string) {
    forall i, j :: 0 <= i < j < |privilege| ==> !(privilege[i] == '(' && privilege[j] == '(')
  }

  lemma ParenAt(privilege: string, i: nat)
    requires i < |privilege|
    ensures StartsWithAt(privilege, "(", i) <==> privilege[i] == '('
  {
    assert privilege[i..i + 1] == [privilege[i]];
  }

  lemma WholeOfIsWhole(privilege: string)
    ensures IsWhole(WholeOf(privilege))
  {
    forall i | 0 <= i < |WholeOf(privilege)|
      ensures privilege[i] != '('
    {
      ParenAt(privilege, i);
    }
  }

  lemma WholeCovers(whole: string, held: string)
    requires IsWhole(whole)
    ensures Covers(whole, held) <==> WholeOf(held) == whole
  {
    var at := IndexOf(held, "(", 0);
    if Covers(whole, held) {
      BeginsWhole(whole, held);
      if held != whole {
        assert held[|whole|] == (whole + "(")[|whole|];
        ParenAt(held, |whole|);
      }
    }
    if WholeOf(held) == whole && at < |held| {
      ParenAt(held, at);
      assert held[..at + 1] == whole + "(";
    }
  }

  lemma BeginsWhole(whole: string, held: string)
    requires IsWhole(whole) && whole <= held
    ensures |whole| <= IndexOf(held, "(", 0)
  {
    forall i | 0 <= i < |whole|
      ensures !StartsWithAt(held, "(", i)
    {
      ParenAt(held, i);
      assert held[i] == whole[i];
    }
  }

  lemma ColumnCovers(column: string, held: string)
    requires !IsWhole(column) && OneList(held)
    ensures Covers(column, held) <==> held == column
  {
    if column + "(" <= held {
      TwoLists(column, held);
    }
  }

  lemma TwoLists(column: string, held: string)
    requires !IsWhole(column) && column + "(" <= held
    ensures !OneList(held)
  {
    var i :| 0 <= i < |column| && column[i] == '(';
    assert held[i] == (column + "(")[i] && held[|column|] == (column + "(")[|column|];
  }

  // -------------------------------------------------------------- one more statement

  lemma {:induction false} OneMoreHeld(earlier: seq<Dated>, last: Dated, present: seq<string>, role: string,
                                       table: string, privilege: string, held: bool)
    ensures HeldAfterAll(earlier + [last], present, role, table, privilege, held)
         == HeldAfter(last.sql, PresentAfterAll(earlier, present), role, table, privilege,
                      HeldAfterAll(earlier, present, role, table, privilege, held))
    decreases |earlier|
  {
    if earlier == [] {
      assert [] + [last] == [last] && [last][1..] == [];
    } else {
      assert (earlier + [last])[1..] == earlier[1..] + [last];
      OneMoreHeld(earlier[1..], last, PresentAfter(earlier[0].sql, present), role, table, privilege,
                  HeldAfter(earlier[0].sql, present, role, table, privilege, held));
    }
  }

  /** The matrix the replay of a range ends with, from this start. */
  function MatrixAfter(range: seq<Dated>, start: Matrix, tables: seq<string>): Matrix {
    WholeRange(range, start, tables).matrix
  }

  lemma OneMoreStatement(earlier: seq<Dated>, last: Dated, start: Matrix, tables: seq<string>, role: string,
                         table: string, privilege: string)
    ensures Held(MatrixAfter(earlier + [last], start, tables), role, table, privilege)
        <==> HeldAfter(last.sql, PresentAfterAll(earlier, tables), role, table, privilege,
                       Held(MatrixAfter(earlier, start, tables), role, table, privilege))
  {
    ReplayByStatements(earlier + [last], start, tables, role, table, privilege);
    ReplayByStatements(earlier, start, tables, role, table, privilege);
    OneMoreHeld(earlier, last, tables, role, table, privilege, Held(start, role, table, privilege));
  }

  /** The statement is about this role and table. */
  predicate About(sql: Sql, present: seq<string>, role: string, table: string) {
    && (role == "app_runtime" || role == "migration")
    && match sql
       case OnTables(_, _, tables, roles) => role in roles && table in tables
       case OnAllTables(_, _, roles) => role in roles && table in present
       case _ => false
  }

  lemma Roles(role: string)
    ensures role in COMPARED_ROLES <==> role == "app_runtime" || role == "migration"
  {
    assert COMPARED_ROLES[0] == "app_runtime" && COMPARED_ROLES[1] == "migration";
  }

  predicate Revokes(sql: Sql) {
    (sql.OnTables? || sql.OnAllTables?) && sql.verb == REVOKE
  }

  /**
   * A REVOKE at the end of the range takes from its roles and tables every privilege whose whole-table
   * privilege it names, and of column grants those it names; everything else stays as it was.
   */
  lemma RevokeTakesExactly(earlier: seq<Dated>, last: Dated, start: Matrix, tables: seq<string>, role: string,
                           table: string, privilege: string)
    requires Revokes(last.sql)
    requires OneList(privilege) || forall p :: p in last.sql.privileges ==> IsWhole(p)
    ensures Held(MatrixAfter(earlier + [last], start, tables), role, table, privilege)
        <==> Held(MatrixAfter(earlier, start, tables), role, table, privilege)
             && !(About(last.sql, PresentAfterAll(earlier, tables), role, table)
                  && (privilege in last.sql.privileges || WholeOf(privilege) in last.sql.privileges))
  {
    OneMoreStatement(earlier, last, start, tables, role, table, privilege);
    Roles(role);
    WholeOfIsWhole(privilege);
    forall p | p in last.sql.privileges
      ensures Covers(p, privilege) <==> p == privilege || p == WholeOf(privilege)
    {
      if IsWhole(p) {
        WholeCovers(p, privilege);
        if p == privilege {
          assert Covers(p, p);
        }
      } else {
        ColumnCovers(p, privilege);
      }
    }
  }

  /** A GRANT at the end of the range gives what it names, and takes nothing. */
  lemma GrantGivesExactly(earlier: seq<Dated>, last: Dated, start: Matrix, tables: seq<string>, role: string,
                          table: string, privilege: string)
    requires (last.sql.OnTables? || last.sql.OnAllTables?) && last.sql.verb == GRANT
    ensures Held(MatrixAfter(earlier + [last], start, tables), role, table, privilege)
        <==> Held(MatrixAfter(earlier, start, tables), role, table, privilege)
             || (About(last.sql, PresentAfterAll(earlier, tables), role, table) && privilege in last.sql.privileges)
  {
    OneMoreStatement(earlier, last, start, tables, role, table, privilege);
    Roles(role);
  }

  /**
   * Revoking a whole-table privilege leaves nothing that belongs to it, and every privilege that belongs
   * to another as it was; revoking a column grant takes that grant alone.
   */
  lemma RevokeOne(earlier: seq<Dated>, version: nat, revoked: string, role: string, table: string, start: Matrix,
                  tables: seq<string>, privilege: string)
    requires role == "app_runtime" || role == "migration"
    ensures var before := MatrixAfter(earlier, start, tables);
      var after := MatrixAfter(earlier + [Dated(version, OnTables(REVOKE, [revoked], [table], [role]))], start, tables);
      && ('(' !in revoked && WholeOf(privilege) == revoked ==> !Held(after, role, table, privilege))
      && ('(' !in revoked && WholeOf(privilege) != revoked ==>
        (Held(after, role, table, privilege) <==> Held(before, role, table, privilege)))
      && ('(' in revoked && OneList(privilege) ==>
        (Held(after, role, table, privilege) <==> Held(before, role, table, privilege) && privilege != revoked))
  {
    var last := Dated(version, OnTables(REVOKE, [revoked], [table], [role]));
    assert [revoked][0] == revoked && [table][0] == table && [role][0] == role;
    WholeOfIsWhole(privilege);
    if IsWhole(revoked) {
      WholeOfWhole(revoked);
    }
    if IsWhole(revoked) || OneList(privilege) {
      RevokeTakesExactly(earlier, last, start, tables, role, table, privilege);
    }
  }

  lemma WholeOfWhole(privilege: string)
    requires IsWhole(privilege)
    ensures WholeOf(privilege) == privilege
  {
    var at := IndexOf(privilege, "(", 0);
    if at < |privilege| {
      ParenAt(privilege, at);
    }
  }

  lemma WholeOfDetail()
    ensures WholeOf("UPDATE(detail)") == "UPDATE" && OneList("UPDATE(detail)")
  {
    var p := "UPDATE(detail)";
    var at := IndexOf(p, "(", 0);
    ParenAt(p, 6);
    if at < 6 {
      ParenAt(p, at);
    }
    assert p[..6] == "UPDATE";
  }

  /** REVOKE UPDATE takes UPDATE(detail); REVOKE UPDATE(detail) leaves UPDATE. */
  lemma UpdateAndDetail(earlier: seq<Dated>, version: nat, role: string, table: string, start: Matrix,
                        tables: seq<string>)
    requires role == "app_runtime" || role == "migration"
    ensures var before := MatrixAfter(earlier, start, tables);
      var revoke := Dated(version, OnTables(REVOKE, ["UPDATE"], [table], [role]));
      var revokeDetail := Dated(version, OnTables(REVOKE, ["UPDATE(detail)"], [table], [role]));
      var whole, column := MatrixAfter(earlier + [revoke], start, tables),
          MatrixAfter(earlier + [revokeDetail], start, tables);
      && !Held(whole, role, table, "UPDATE") && !Held(whole, role, table, "UPDATE(detail)")
      && (Held(whole, role, table, "SELECT") <==> Held(before, role, table, "SELECT"))
      && (Held(column, role, table, "UPDATE") <==> Held(before, role, table, "UPDATE"))
      && !Held(column, role, table, "UPDATE(detail)")
  {
    WholeOfDetail();
    WholeOfWhole("UPDATE");
    WholeOfWhole("SELECT");
    assert "SELECT"[0] == 'S' && "UPDATE"[0] == 'U' && "UPDATE(detail)"[6] == '(';
    assert |"UPDATE(detail)"| == 14 && |"UPDATE"| == 6;
    RevokeOne(earlier, version, "UPDATE", role, table, start, tables, "UPDATE");
    RevokeOne(earlier, version, "UPDATE", role, table, start, tables, "UPDATE(detail)");
    RevokeOne(earlier, version, "UPDATE", role, table, start, tables, "SELECT");
    RevokeOne(earlier, version, "UPDATE(detail)", role, table, start, tables, "UPDATE");
    RevokeOne(earlier, version, "UPDATE(detail)", role, table, start, tables, "UPDATE(detail)");
  }

  // -------------------------------------------------------------- which tables there are

  /** What a statement says about whether the table is there. */
  function Presence(sql: Sql, table: string): Effect {
    match sql
    case CreateTable(name) => if name == table then Sets else Leaves
    case DropTable(names) => if table in names then Clears else Leaves
    case _ => Leaves
  }

  function Presences(range: seq<Dated>, table: string): seq<Effect> {
    if range == [] then [] else [Presence(range[0].sql, table)] + Presences(range[1..], table)
  }

  lemma PresentOnce(sql: Sql, present: seq<string>, table: string)
    requires EachOnce(present)
    ensures EachOnce(PresentAfter(sql, present))
    ensures table in PresentAfter(sql, present) <==> After(Presence(sql, table), table in present)
  {
    match sql {
      case DropTable(names) => WithoutAllHas(present, names, table);
      case _ =>
    }
  }

  /**
   * ON ALL TABLES means, anywhere in the range, the tables whose last CREATE or DROP before it is a CREATE,
   * or that were there at the start and have none.
   */
  lemma PresentIffLastCreated(range: seq<Dated>, start: seq<string>, table: string)
    requires EachOnce(start)
    ensures EachOnce(PresentAfterAll(range, start))
    ensures table in PresentAfterAll(range, start) <==> LastSets(Presences(range, table), table in start)
  {
    PresentOutcome(range, start, table);
    LastEventWins(Presences(range, table), table in start);
  }

  lemma {:induction false} PresentOutcome(range: seq<Dated>, start: seq<string>, table: string)
    requires EachOnce(start)
    ensures EachOnce(PresentAfterAll(range, start))
    ensures table in PresentAfterAll(range, start) <==> Outcome(Presences(range, table), table in start)
    decreases |range|
  {
    if range != [] {
      PresentOnce(range[0].sql, start, table);
      PresentOutcome(range[1..], PresentAfter(range[0].sql, start), table);
      var effects := Presences(range, table);
      assert effects[1..] == Presences(range[1..], table);
    }
  }
}
