// What the privilege replay means: which event decides a privilege, that a replay can be cut
// anywhere, and that every change it makes is in its log.
module ReplayMeaning {
  import opened LastEvent
  import opened Replay

  // ---------------------------------------------------------- last event wins

  /** What one event says about one role's privilege on one table. */
  function EffectOn(e: Event, role: string, table: string, privilege: string): Effect {
    match e
    case Forget(t) => if t == table then Clears else Leaves
    case Touch(_, _) => Leaves
    case Give(r, t, p) => if r == role && t == table && p == privilege then Sets else Leaves
    case Take(r, t, p) => if r == role && t == table && Covers(p, privilege) then Clears else Leaves
  }

  function EffectsOn(events: seq<Event>, role: string, table: string, privilege: string): (effects: seq<Effect>)
    ensures |effects| == |events|
    ensures forall k :: 0 <= k < |events| ==> effects[k] == EffectOn(events[k], role, table, privilege)
  {
    if events == [] then []
    else [EffectOn(events[0], role, table, privilege)] + EffectsOn(events[1..], role, table, privilege)
  }

  /** What one event says about whether the matrix has a set, empty or not, for the pair. */
  function KeyEffectOn(e: Event, role: string, table: string): Effect {
    match e
    case Forget(t) => if t == table then Clears else Leaves
    case Touch(r, t) => if r == role && t == table then Sets else Leaves
    case _ => Leaves
  }

  function KeyEffectsOn(events: seq<Event>, role: string, table: string): seq<Effect> {
    if events == [] then [] else [KeyEffectOn(events[0], role, table)] + KeyEffectsOn(events[1..], role, table)
  }

  /** Every grant in the run comes after its pair was touched, with no create or drop between. */
  predicate Touched(events: seq<Event>, touched: set<(string, string)>) {
    if events == [] then true
    else match events[0]
      case Forget(t) => Touched(events[1..], set pair | pair in touched && pair.1 != t)
      case Touch(r, t) => Touched(events[1..], touched + {(r, t)})
      case Give(r, t, _) => (r, t) in touched && Touched(events[1..], touched)
      case Take(_, _, _) => Touched(events[1..], touched)
  }

  lemma ApplyEffect(m: Matrix, e: Event, role: string, table: string, privilege: string)
    requires e.Give? ==> Keyed(m, e.role, e.table)
    ensures Held(Apply(m, e), role, table, privilege)
        <==> After(EffectOn(e, role, table, privilege), Held(m, role, table, privilege))
    ensures Keyed(Apply(m, e), role, table) <==> After(KeyEffectOn(e, role, table), Keyed(m, role, table))
  {
  }

  lemma {:induction false} ReplayDecides(m: Matrix, events: seq<Event>, touched: set<(string, string)>,
                                         role: string, table: string, privilege: string)
    requires Touched(events, touched) && forall r, t :: (r, t) in touched ==> Keyed(m, r, t)
    ensures Held(ApplyAll(m, events), role, table, privilege)
        <==> Outcome(EffectsOn(events, role, table, privilege), Held(m, role, table, privilege))
    ensures Keyed(ApplyAll(m, events), role, table)
        <==> Outcome(KeyEffectsOn(events, role, table), Keyed(m, role, table))
    decreases |events|
  {
    if events != [] {
      var e := events[0];
      ApplyEffect(m, e, role, table, privilege);
      var now := match e
        case Forget(t) => set pair | pair in touched && pair.1 != t
        case Touch(r, t) => touched + {(r, t)}
        case _ => touched;
      forall r, t | (r, t) in now
        ensures Keyed(Apply(m, e), r, t)
      {
        ApplyEffect(m, e, r, t, privilege);
      }
      ReplayDecides(Apply(m, e), events[1..], now, role, table, privilege);
    }
  }

  lemma {:induction false} TouchedMore(events: seq<Event>, touched: set<(string, string)>, more: set<(string, string)>)
    requires Touched(events, touched) && touched <= more
    ensures Touched(events, more)
    decreases |events|
  {
    if events != [] {
      match events[0] {
        case Forget(t) =>
          TouchedMore(events[1..], set pair | pair in touched && pair.1 != t, set pair | pair in more && pair.1 != t);
        case Touch(r, t) => TouchedMore(events[1..], touched + {(r, t)}, more + {(r, t)});
        case _ => TouchedMore(events[1..], touched, more);
      }
    }
  }

  lemma {:induction false} TouchedSum(x: seq<Event>, y: seq<Event>, touched: set<(string, string)>)
    requires Touched(x, touched) && Touched(y, {})
    ensures Touched(x + y, touched)
    decreases |x|
  {
    if x == [] {
      assert x + y == y;
      TouchedMore(y, {}, touched);
    } else {
      assert (x + y)[1..] == x[1..] + y;
      match x[0] {
        case Forget(t) => TouchedSum(x[1..], y, set pair | pair in touched && pair.1 != t);
        case Touch(r, t) => TouchedSum(x[1..], y, touched + {(r, t)});
        case _ => TouchedSum(x[1..], y, touched);
      }
    }
  }

  lemma {:induction false} PrivilegeEventsTouched(verb: Verb, role: string, table: string, privileges: seq<string>)
    ensures Touched(PrivilegeEvents(verb, role, table, privileges), {(role, table)})
  {
    if privileges != [] {
      PrivilegeEventsTouched(verb, role, table, privileges[1..]);
      assert PrivilegeEvents(verb, role, table, privileges)[1..] == PrivilegeEvents(verb, role, table, privileges[1..]);
    }
  }

  lemma {:induction false} TableEventsTouched(verb: Verb, role: string, tables: seq<string>, privileges: seq<string>)
    ensures Touched(TableEvents(verb, role, tables, privileges), {})
  {
    if tables != [] {
      TableEventsTouched(verb, role, tables[1..], privileges);
      PrivilegeEventsTouched(verb, role, tables[0], privileges);
      var here := [Touch(role, tables[0])] + PrivilegeEvents(verb, role, tables[0], privileges);
      assert here[1..] == PrivilegeEvents(verb, role, tables[0], privileges);
      assert {} + {(role, tables[0])} == {(role, tables[0])};
      TouchedSum(here, TableEvents(verb, role, tables[1..], privileges), {});
    }
  }

  lemma {:induction false} RoleEventsTouched(verb: Verb, roles: seq<string>, tables: seq<string>,
                                             privileges: seq<string>)
    ensures Touched(RoleEvents(verb, roles, tables, privileges), {})
  {
    if roles != [] {
      RoleEventsTouched(verb, roles[1..], tables, privileges);
      TableEventsTouched(verb, roles[0], tables, privileges);
      TouchedSum(TableEvents(verb, roles[0], tables, privileges), RoleEvents(verb, roles[1..], tables, privileges), {});
    }
  }

  lemma {:induction false} ForgetEventsTouched(names: seq<string>, touched: set<(string, string)>)
    ensures Touched(ForgetEvents(names), touched)
  {
    if names != [] {
      ForgetEventsTouched(names[1..], set pair | pair in touched && pair.1 != names[0]);
      assert ForgetEvents(names)[1..] == ForgetEvents(names[1..]);
    }
  }

  lemma {:induction false} EventsTouched(range: seq<Dated>, present: seq<string>)
    ensures Touched(Events(range, present), {})
    decreases |range|
  {
    if range != [] {
      var here := StatementEvents(range[0].sql, present);
      match range[0].sql {
        case CreateTable(name) => assert here[1..] == [];
        case DropTable(names) => ForgetEventsTouched(names, {});
        case OnTables(verb, privileges, tables, roles) => RoleEventsTouched(verb, Compared(roles), tables, privileges);
        case OnAllTables(verb, privileges, roles) => RoleEventsTouched(verb, Compared(roles), present, privileges);
        case _ =>
      }
      EventsTouched(range[1..], PresentAfter(range[0].sql, present));
      TouchedSum(here, Events(range[1..], PresentAfter(range[0].sql, present)), {});
    }
  }

  /**
   * A role holds a privilege on a table at the end of a replay exactly when the last event
   * that says anything about it is a grant, or none says anything and it held it at the start.
   */
  lemma LastEventDecides(range: seq<Dated>, start: Matrix, tables: seq<string>, role: string, table: string,
                         privilege: string)
    ensures Held(WholeRange(range, start, tables).matrix, role, table, privilege)
        <==> LastSets(EffectsOn(Events(range, tables), role, table, privilege), Held(start, role, table, privilege))
  {
    EventsTouched(range, tables);
    ReplayDecides(start, Events(range, tables), {}, role, table, privilege);
    LastEventWins(EffectsOn(Events(range, tables), role, table, privilege), Held(start, role, table, privilege));
  }

  /** Matrices that agree on every held privilege still agree after the same range. */
  lemma SameHeldAfter(range: seq<Dated>, x: Matrix, y: Matrix, tables: seq<string>)
    requires forall r, t, p :: Held(x, r, t, p) <==> Held(y, r, t, p)
    ensures forall r, t, p :: Held(WholeRange(range, x, tables).matrix, r, t, p)
                         <==> Held(WholeRange(range, y, tables).matrix, r, t, p)
  {
    EventsTouched(range, tables);
    forall r, t, p
      ensures Held(WholeRange(range, x, tables).matrix, r, t, p) <==> Held(WholeRange(range, y, tables).matrix, r, t, p)
    {
      ReplayDecides(x, Events(range, tables), {}, r, t, p);
      ReplayDecides(y, Events(range, tables), {}, r, t, p);
    }
  }

  // ------------------------------------------------------------ cutting a replay

  lemma {:induction false} EventsOfSum(x: seq<Dated>, y: seq<Dated>, present: seq<string>)
    ensures Events(x + y, present) == Events(x, present) + Events(y, PresentAfterAll(x, present))
    ensures PresentAfterAll(x + y, present) == PresentAfterAll(y, PresentAfterAll(x, present))
    decreases |x|
  {
    if x == [] {
      assert x + y == y;
    } else {
      assert (x + y)[1..] == x[1..] + y;
      EventsOfSum(x[1..], y, PresentAfter(x[0].sql, present));
    }
  }

  predicate Ordered(directory: seq<Migration>) {
    forall i, j :: 0 <= i < j < |directory| ==> directory[i].version <= directory[j].version
  }

  lemma {:induction false} InRangeEmpty(directory: seq<Migration>, after: nat, through: nat)
    requires forall i :: 0 <= i < |directory| ==> through < directory[i].version || directory[i].version <= after
    ensures InRange(directory, after, through) == []
  {
    if directory != [] {
      InRangeEmpty(directory[1..], after, through);
    }
  }

  lemma {:induction false} InRangeSplits(directory: seq<Migration>, after: nat, cut: nat, through: nat)
    requires Ordered(directory) && after <= cut <= through
    ensures InRange(directory, after, through) == InRange(directory, after, cut) + InRange(directory, cut, through)
  {
    if directory != [] {
      InRangeSplits(directory[1..], after, cut, through);
      if cut < directory[0].version {
        InRangeEmpty(directory, after, cut);
        assert InRange(directory[1..], after, cut) == [] by {
          InRangeEmpty(directory[1..], after, cut);
        }
      }
    }
  }

  /** Replaying to `through` is replaying to any `cut` and then on from what that left. */
  lemma ReplayComposes(directory: seq<Migration>, after: nat, cut: nat, through: nat, start: Matrix,
                       tables: seq<string>)
    requires Ordered(directory) && after <= cut <= through
    ensures var early, late := InRange(directory, after, cut), InRange(directory, cut, through);
      WholeRange(InRange(directory, after, through), start, tables).matrix
      == WholeRange(late, WholeRange(early, start, tables).matrix, PresentAfterAll(early, tables)).matrix
  {
    InRangeSplits(directory, after, cut, through);
    var early, late := InRange(directory, after, cut), InRange(directory, cut, through);
    EventsOfSum(early, late, tables);
    ApplyAllOfSum(start, Events(early, tables), Events(late, PresentAfterAll(early, tables)));
  }

  // -------------------------------------------------------------- the log is complete

  /** The log holds a statement of this verb that names the privilege for the pair. */
  ghost predicate Logged(log: seq<GrantStatement>, verb: Verb, role: string, table: string, privilege: string) {
    exists k :: 0 <= k < |log| && log[k].verb == verb && log[k].role == role && log[k].table == table
             && privilege in log[k].privileges
  }

  lemma LoggedGrows(x: seq<GrantStatement>, y: seq<GrantStatement>, verb: Verb, role: string, table: string,
                    privilege: string)
    ensures Logged(x, verb, role, table, privilege) || Logged(y, verb, role, table, privilege)
        ==> Logged(x + y, verb, role, table, privilege)
  {
    if k :| (0 <= k < |x| && x[k].verb == verb && x[k].role == role && x[k].table == table
             && privilege in x[k].privileges) {
      assert (x + y)[k] == x[k];
    } else if k :| (0 <= k < |y| && y[k].verb == verb && y[k].role == role && y[k].table == table
                    && privilege in y[k].privileges) {
      assert (x + y)[|x| + k] == y[k];
    }
  }

  lemma {:induction false} PrivilegeEventNamed(verb: Verb, role: string, table: string, privileges: seq<string>,
                                               e: Event)
    requires e in PrivilegeEvents(verb, role, table, privileges)
    ensures (e.Give? && verb.GRANT?) || (e.Take? && verb.REVOKE?)
    ensures e.role == role && e.table == table && e.privilege in privileges
  {
    if e in PrivilegeEvents(verb, role, table, privileges[1..]) {
      PrivilegeEventNamed(verb, role, table, privileges[1..], e);
    }
  }

  lemma {:induction false} TableEventLogged(version: nat, verb: Verb, role: string, tables: seq<string>,
                                            privileges: seq<string>, wholeSchema: bool, e: Event)
    requires e in TableEvents(verb, role, tables, privileges) && (e.Give? || e.Take?)
    ensures (e.Give? <==> verb.GRANT?) && e.role in COMPARED_ROLES + [role]
    ensures Logged(TableLog(version, verb, role, tables, privileges, wholeSchema), verb, e.role, e.table, e.privilege)
  {
    var now := [GrantStatement(version, verb, role, tables[0], privileges, wholeSchema)];
    var here := [Touch(role, tables[0])] + PrivilegeEvents(verb, role, tables[0], privileges);
    if e in TableEvents(verb, role, tables[1..], privileges) {
      TableEventLogged(version, verb, role, tables[1..], privileges, wholeSchema, e);
      LoggedGrows(now, TableLog(version, verb, role, tables[1..], privileges, wholeSchema), verb, e.role, e.table,
                  e.privilege);
    } else {
      assert e in here;
      PrivilegeEventNamed(verb, role, tables[0], privileges, e);
      assert now[0].privileges == privileges;
      assert Logged(now, verb, e.role, e.table, e.privilege);
      LoggedGrows(now, TableLog(version, verb, role, tables[1..], privileges, wholeSchema), verb, e.role, e.table,
                  e.privilege);
    }
  }

  lemma {:induction false} RoleEventLogged(version: nat, verb: Verb, roles: seq<string>, tables: seq<string>,
                                           privileges: seq<string>, wholeSchema: bool, e: Event)
    requires e in RoleEvents(verb, roles, tables, privileges) && (e.Give? || e.Take?)
    ensures e.Give? <==> verb.GRANT?
    ensures Logged(RoleLog(version, verb, roles, tables, privileges, wholeSchema), verb, e.role, e.table, e.privilege)
  {
    var first, rest := TableLog(version, verb, roles[0], tables, privileges, wholeSchema),
                       RoleLog(version, verb, roles[1..], tables, privileges, wholeSchema);
    if e in RoleEvents(verb, roles[1..], tables, privileges) {
      RoleEventLogged(version, verb, roles[1..], tables, privileges, wholeSchema, e);
    } else {
      TableEventLogged(version, verb, roles[0], tables, privileges, wholeSchema, e);
    }
    LoggedGrows(first, rest, verb, e.role, e.table, e.privilege);
  }

  lemma {:induction false} ForgetEventIsForget(names: seq<string>, e: Event)
    requires e in ForgetEvents(names)
    ensures e.Forget? && e.table in names
  {
    if e in ForgetEvents(names[1..]) {
      ForgetEventIsForget(names[1..], e);
    }
  }

  function VerbOf(e: Event): Verb {
    if e.Give? then GRANT else REVOKE
  }

  /** No grant or revoke acts on the matrix without a log entry that names its privilege. */
  lemma {:induction false} EveryEventLogged(range: seq<Dated>, present: seq<string>, e: Event)
    requires e in Events(range, present) && (e.Give? || e.Take?)
    ensures Logged(Log(range, present), VerbOf(e), e.role, e.table, e.privilege)
    decreases |range|
  {
    var later := PresentAfter(range[0].sql, present);
    var first := StatementLog(range[0], present);
    if e in Events(range[1..], later) {
      EveryEventLogged(range[1..], later, e);
    } else {
      assert e in StatementEvents(range[0].sql, present);
      match range[0].sql {
        case OnTables(verb, privileges, tables, roles) =>
          RoleEventLogged(range[0].version, verb, Compared(roles), tables, privileges, false, e);
        case OnAllTables(verb, privileges, roles) =>
          RoleEventLogged(range[0].version, verb, Compared(roles), present, privileges, true, e);
        case DropTable(names) => ForgetEventIsForget(names, e);
        case _ =>
      }
    }
    LoggedGrows(first, Log(range[1..], later), VerbOf(e), e.role, e.table, e.privilege);
  }

  /** A CREATE TABLE or DROP TABLE of the range names the table. */
  ghost predicate CreatedOrDropped(range: seq<Dated>, table: string) {
    exists k :: 0 <= k < |range| && match range[k].sql
      case CreateTable(name) => name == table
      case DropTable(names) => table in names
      case _ => false
  }

  lemma {:induction false} RoleEventsForgetNothing(verb: Verb, roles: seq<string>, tables: seq<string>,
                                                   privileges: seq<string>, table: string)
    ensures Forget(table) !in RoleEvents(verb, roles, tables, privileges)
  {
    if roles != [] {
      RoleEventsForgetNothing(verb, roles[1..], tables, privileges, table);
      TableEventsForgetNothing(verb, roles[0], tables, privileges, table);
    }
  }

  lemma {:induction false} TableEventsForgetNothing(verb: Verb, role: string, tables: seq<string>,
                                                    privileges: seq<string>, table: string)
    ensures Forget(table) !in TableEvents(verb, role, tables, privileges)
  {
    if tables != [] {
      TableEventsForgetNothing(verb, role, tables[1..], privileges, table);
      if Forget(table) in PrivilegeEvents(verb, role, tables[0], privileges) {
        PrivilegeEventNamed(verb, role, tables[0], privileges, Forget(table));
      }
    }
  }

  lemma {:induction false} ForgottenWasCreatedOrDropped(range: seq<Dated>, present: seq<string>, table: string)
    requires Forget(table) in Events(range, present)
    ensures CreatedOrDropped(range, table)
    decreases |range|
  {
    var later := PresentAfter(range[0].sql, present);
    if Forget(table) in Events(range[1..], later) {
      ForgottenWasCreatedOrDropped(range[1..], later, table);
      var k :| 0 <= k < |range[1..]| && match range[1..][k].sql
        case CreateTable(name) => name == table
        case DropTable(names) => table in names
        case _ => false;
      assert range[k + 1] == range[1..][k];
    } else {
      match range[0].sql {
        case DropTable(names) => ForgetEventIsForget(names, Forget(table));
        case OnTables(verb, privileges, tables, roles) =>
          RoleEventsForgetNothing(verb, Compared(roles), tables, privileges, table);
        case OnAllTables(verb, privileges, roles) =>
          RoleEventsForgetNothing(verb, Compared(roles), present, privileges, table);
        case _ =>
      }
    }
  }

  /**
   * Nothing changes silently: a privilege gained over the replay has a GRANT that names it in
   * the log, and one lost has a REVOKE that covers it there, or its table was created or dropped.
   */
  lemma ChangesAreLogged(range: seq<Dated>, start: Matrix, tables: seq<string>, role: string, table: string,
                         privilege: string)
    ensures var r := WholeRange(range, start, tables);
      && (!Held(start, role, table, privilege) && Held(r.matrix, role, table, privilege)
          ==> Logged(r.statements, GRANT, role, table, privilege))
      && (Held(start, role, table, privilege) && !Held(r.matrix, role, table, privilege)
          ==> CreatedOrDropped(range, table)
              || exists p :: Covers(p, privilege) && Logged(r.statements, REVOKE, role, table, p))
  {
    var events := Events(range, tables);
    EventsTouched(range, tables);
    ReplayDecides(start, events, {}, role, table, privilege);
    var effects := EffectsOn(events, role, table, privilege);
    ChangeHasCause(effects, Held(start, role, table, privilege));
    if k :| 0 <= k < |events| && effects[k].Sets? {
      GiverIsLogged(range, tables, k, role, table, privilege);
    }
    if k :| 0 <= k < |events| && effects[k].Clears? {
      TakerIsLogged(range, tables, k, role, table, privilege);
    }
  }

  lemma GiverIsLogged(range: seq<Dated>, tables: seq<string>, k: nat, role: string, table: string, privilege: string)
    requires k < |Events(range, tables)| && EffectsOn(Events(range, tables), role, table, privilege)[k].Sets?
    ensures Logged(Log(range, tables), GRANT, role, table, privilege)
  {
    EveryEventLogged(range, tables, Events(range, tables)[k]);
  }

  lemma TakerIsLogged(range: seq<Dated>, tables: seq<string>, k: nat, role: string, table: string, privilege: string)
    requires k < |Events(range, tables)| && EffectsOn(Events(range, tables), role, table, privilege)[k].Clears?
    ensures CreatedOrDropped(range, table)
            || exists p :: Covers(p, privilege) && Logged(Log(range, tables), REVOKE, role, table, p)
  {
    if Events(range, tables)[k].Take? {
      EveryEventLogged(range, tables, Events(range, tables)[k]);
    } else {
      ForgottenWasCreatedOrDropped(range, tables, table);
    }
  }
}
