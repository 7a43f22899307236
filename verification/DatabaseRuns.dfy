// Which statements can do what when they run: each kind of change, and exactly the statements that
// can bring it about.
module DatabaseRuns {
  import opened Text
  import opened Classify
  import opened ClassifyMeaning
  import opened Database

  // ------------------------------------------------------------ what a run can do

  /** Anything can come of it. */
  ghost predicate Unknown(s: Stmt)
    requires !s.DoBlock?
  {
    forall x, y :: Runs(s, x, y)
  }

  ghost predicate LosesTable(s: Stmt)
    requires !s.DoBlock?
  {
    exists x, y, table :: Runs(s, x, y) && table in x.tables && table !in y.tables
  }

  ghost predicate LosesColumn(s: Stmt)
    requires !s.DoBlock?
  {
    exists x, y, table, name :: Runs(s, x, y) && table in x.tables && table in y.tables
                             && name in x.tables[table].columns && name !in y.tables[table].columns
  }

  /** Whatever rows there were, none is left. */
  ghost predicate Empties(s: Stmt, table: string)
    requires !s.DoBlock?
  {
    forall x, y :: Runs(s, x, y) && table in x.tables ==> table in y.tables && y.tables[table].rows == map[]
  }

  ghost predicate TakesConstraint(s: Stmt, table: string, name: string)
    requires !s.DoBlock?
  {
    exists x, y :: Runs(s, x, y) && table in x.tables && table in y.tables && name in x.tables[table].constraints
                && Taken(x.tables[table].constraints, y.tables[table].constraints, name)
  }

  /** An object of this name that is there can be gone afterwards. */
  ghost predicate LosesNamed(s: Stmt, pool: Pool, name: string)
    requires !s.DoBlock?
  {
    exists x, y :: Runs(s, x, y) && Holds(x, pool, name) && !Holds(y, pool, name)
  }

  /** One that is not there can be there afterwards. */
  ghost predicate MakesNamed(s: Stmt, pool: Pool, name: string)
    requires !s.DoBlock?
  {
    exists x, y :: Runs(s, x, y) && !Holds(x, pool, name) && Holds(y, pool, name)
  }

  ghost predicate TakesRow(s: Stmt)
    requires !s.DoBlock?
  {
    exists x, y, table, row :: Runs(s, x, y) && table in x.tables && table in y.tables
                            && row in x.tables[table].rows && row !in y.tables[table].rows
  }

  /** Stored rows of a view are read again. */
  ghost predicate Refills(s: Stmt)
    requires !s.DoBlock?
  {
    exists x, y, view :: Runs(s, x, y) && view in x.views && view in y.views
                      && y.views[view].query == x.views[view].query && y.views[view].stored != x.views[view].stored
  }

  ghost predicate ChangesGrants(s: Stmt, table: string)
    requires !s.DoBlock?
  {
    exists x, y :: Runs(s, x, y) && table in x.tables && table in y.tables
                && y.tables[table].grants != x.tables[table].grants
  }

  ghost predicate ChangesRolesOrSchema(s: Stmt)
    requires !s.DoBlock?
  {
    exists x, y :: Runs(s, x, y) && (y.roles != x.roles || y.schemaGrants != x.schemaGrants)
  }

  ghost predicate BodyDiffers(x: Db, y: Db, name: string) {
    || (name in x.routines && name in y.routines && y.routines[name] != x.routines[name])
    || exists table :: table in x.tables && table in y.tables
                    && name in x.tables[table].triggers && name in y.tables[table].triggers
                    && y.tables[table].triggers[name] != x.tables[table].triggers[name]
  }

  /** A routine or trigger of this name does something else afterwards. */
  ghost predicate Redefines(s: Stmt, name: string)
    requires !s.DoBlock?
  {
    exists x, y :: Runs(s, x, y) && BodyDiffers(x, y, name)
  }

  // ---------------------------------------------------- what each statement can do

  lemma FrameOfTable(s: Stmt, x: map<string, Table>, y: map<string, Table>, table: string)
    requires !s.DropTable? && TablesRun(s, x, y) && table in x
    ensures table in y && (y[table] == x[table] || TableFollows(s, table, x[table], y[table]))
  {
    if s.CreateTable? {
      assert TableCreated(x, y, s.name);
    } else {
      assert TablesFollow(s, x, y);
    }
  }

  function One(table: string, t: Table): Db {
    EMPTY.(tables := map[table := t])
  }

  /** Nothing but tables is its business. */
  predicate OnTables(s: Stmt) {
    || s.AlterTable? || s.Truncate? || s.Delete? || s.DropTrigger? || s.ReplaceTrigger? || s.CreateIndex?
    || s.CreateTrigger? || s.Update? || s.Insert? || s.GrantOrRevoke?
  }

  lemma RunsOnOne(s: Stmt, table: string, t: Table, u: Table)
    requires OnTables(s) && TableFollows(s, table, t, u)
    ensures Runs(s, One(table, t), One(table, u))
  {
    assert TablesFollow(s, One(table, t).tables, One(table, u).tables);
  }

  function Put(x: Entries, name: string): Entries {
    if name in x then x else x[name := ""]
  }

  function StepRows(s: Stmt, table: string, x: Entries): Entries {
    if s == Truncate(table) || s == Delete(table, false) then map[] else x
  }

  function StepConstraints(s: Stmt, table: string, x: Entries): Entries {
    if s.AlterTable? && s.table == table then (map name | name in s.added :: "") + x else x
  }

  function StepIndexes(s: Stmt, table: string, x: Entries): Entries {
    match s
    case CreateIndex(Some(name), on) => if on == table then Put(x, name) else x
    case DropOther(pool, first, rest) => if pool == Indexes then x - Names(first, rest) else x
    case _ => x
  }

  function StepTriggers(s: Stmt, table: string, x: Entries): Entries {
    match s
    case DropTrigger(name, on) => if on == table then x - {name} else x
    case ReplaceTrigger(name, on) => if on == table then x[name := ""] else x
    case CreateTrigger(name, on) => if on == table then Put(x, name) else x
    case _ => x
  }

  function StepGrants(s: Stmt, table: string, x: Entries): Entries {
    if s.GrantOrRevoke? && Covers(s.target, table) then map[] else x
  }

  /** One way each statement can run: a grant takes everything, and the rest changes as little as it may. */
  function TableStep(s: Stmt, table: string, t: Table): Table {
    Table(t.columns, StepRows(s, table, t.rows), StepConstraints(s, table, t.constraints),
          StepIndexes(s, table, t.indexes), StepTriggers(s, table, t.triggers), StepGrants(s, table, t.grants), t.owned)
  }

  lemma TableSteps(s: Stmt, table: string, t: Table)
    ensures TableFollows(s, table, t, TableStep(s, table, t))
  {
    RowsStep(s, table, t.rows);
    IndexesStep(s, table, t.indexes);
    TriggersStep(s, table, t.triggers);
  }

  lemma RowsStep(s: Stmt, table: string, x: Entries)
    ensures RowsFollow(s, table, x, StepRows(s, table, x))
  {
  }

  lemma IndexesStep(s: Stmt, table: string, x: Entries)
    ensures IndexesFollow(s, table, x, StepIndexes(s, table, x))
  {
  }

  lemma TriggersStep(s: Stmt, table: string, x: Entries)
    ensures TriggersFollow(s, table, x, StepTriggers(s, table, x))
  {
  }

  function StepTables(s: Stmt, x: map<string, Table>): map<string, Table> {
    match s
    case DropTable(names) => x - set name | name in names
    case CreateTable(name) => if name in x then x else x[name := EMPTY_TABLE]
    case _ => map table | table in x :: TableStep(s, table, x[table])
  }

  lemma TablesStep(s: Stmt, x: map<string, Table>)
    ensures TablesRun(s, x, StepTables(s, x))
  {
    if !s.DropTable? && !s.CreateTable? {
      TablesFollowStep(s, x, StepTables(s, x));
    }
  }

  lemma TablesFollowStep(s: Stmt, x: map<string, Table>, y: map<string, Table>)
    requires y == map table | table in x :: TableStep(s, table, x[table])
    ensures TablesFollow(s, x, y)
  {
    forall table | table in x
      ensures TableFollows(s, table, x[table], y[table])
    {
      TableSteps(s, table, x[table]);
    }
  }

  function StepRoutines(s: Stmt, x: Entries): Entries {
    match s
    case DropRoutine(first, rest) => x - Names(first, rest)
    case ReplaceRoutine(name) => x[name := ""]
    case CreateRoutine(name) => Put(x, name)
    case _ => x
  }

  function StepViews(s: Stmt, x: map<string, View>): map<string, View> {
    match s
    case DropOther(pool, first, rest) => if pool == Views then x - Names(first, rest) else x
    case CreateView(name) => if name in x then x else x[name := View("", "")]
    case _ => x
  }

  function StepTypes(s: Stmt, x: Entries): Entries {
    match s
    case DropOther(pool, first, rest) => if pool == Types then x - Names(first, rest) else x
    case CreateType(name) => Put(x, name)
    case _ => x
  }

  function StepSequences(s: Stmt, x: Entries): Entries {
    match s
    case DropOther(pool, first, rest) => if pool == Sequences then x - Names(first, rest) else x
    case CreateSequence(name, _) => Put(x, name)
    case _ => x
  }

  function Step(s: Stmt, x: Db): Db {
    x.(tables := StepTables(s, x.tables), routines := StepRoutines(s, x.routines), views := StepViews(s, x.views),
       types := StepTypes(s, x.types), sequences := StepSequences(s, x.sequences))
  }

  /** Every statement can run, whatever the database holds. */
  lemma Steps(s: Stmt, x: Db)
    requires !s.DoBlock?
    ensures Runs(s, x, Step(s, x))
  {
    TablesStep(s, x.tables);
    RoutinesStep(s, x.routines);
    ViewsStep(s, x.views);
    TypesStep(s, x.types);
    SequencesStep(s, x.sequences);
  }

  lemma RoutinesStep(s: Stmt, x: Entries)
    ensures RoutinesRun(s, x, StepRoutines(s, x))
  {
  }

  lemma ViewsStep(s: Stmt, x: map<string, View>)
    ensures ViewsRun(s, x, StepViews(s, x))
  {
  }

  lemma TypesStep(s: Stmt, x: Entries)
    ensures TypesRun(s, x, StepTypes(s, x))
  {
  }

  lemma SequencesStep(s: Stmt, x: Entries)
    ensures SequencesRun(s, x, StepSequences(s, x))
  {
  }

  // --------------------------------------------------- which statements can do what

  /** No statement that can be read changes both the roles and the types. */
  lemma UnknownIff(s: Stmt)
    requires !s.DoBlock?
    ensures Unknown(s) <==> s.OpaqueDo? || s.Unrecognised?
  {
    if Unknown(s) {
      var y := EMPTY.(roles := map["r" := ""], types := map["t" := ""]);
      assert Runs(s, EMPTY, y);
      assert "r" in y.roles && "t" in y.types;
    }
  }

  lemma LosesTableIff(s: Stmt)
    requires Readable(s)
    ensures LosesTable(s) <==> s.DropTable? && s.names != []
  {
    if x, y, table :| Runs(s, x, y) && table in x.tables && table !in y.tables {
      if !s.DropTable? {
        FrameOfTable(s, x.tables, y.tables, table);
      }
    }
    if s.DropTable? && s.names != [] {
      var x := One(s.names[0], EMPTY_TABLE);
      Steps(s, x);
      assert s.names[0] in x.tables && s.names[0] !in Step(s, x).tables;
    }
  }

  lemma LosesColumnIff(s: Stmt)
    requires Readable(s)
    ensures LosesColumn(s) <==> DropsColumn(s)
  {
    if x, y, table, name :| Runs(s, x, y) && table in x.tables && table in y.tables
                            && name in x.tables[table].columns && name !in y.tables[table].columns {
      if !s.DropTable? && !DropsColumn(s) {
        FrameOfTable(s, x.tables, y.tables, table);
      }
    }
    if DropsColumn(s) {
      ColumnDropped(s);
    }
  }

  lemma ColumnDropped(s: Stmt)
    requires DropsColumn(s)
    ensures LosesColumn(s)
  {
    var t := EMPTY_TABLE.(columns := map["c" := ""]);
    var u := EMPTY_TABLE.(constraints := map name | name in s.added :: "");
    RunsOnOne(s, s.table, t, u);
    var x, y := One(s.table, t), One(s.table, u);
    assert Runs(s, x, y) && "c" in x.tables[s.table].columns && "c" !in y.tables[s.table].columns;
  }

  lemma EmptiesIff(s: Stmt, table: string)
    requires Readable(s)
    ensures Empties(s, table) <==> s == Truncate(table) || s == Delete(table, false)
  {
    if Empties(s, table) {
      var t := EMPTY_TABLE.(rows := map["1" := ""]);
      var x := One(table, t);
      Steps(s, x);
      var y := Step(s, x);
      assert Runs(s, x, y) && table in x.tables;
      assert "1" !in y.tables[table].rows;
      FrameOfTable(s, x.tables, y.tables, table);
    }
    if s == Truncate(table) || s == Delete(table, false) {
      Emptied(s, table);
    }
  }

  lemma Emptied(s: Stmt, table: string)
    requires s == Truncate(table) || s == Delete(table, false)
    ensures Empties(s, table)
  {
    forall x, y | Runs(s, x, y) && table in x.tables
      ensures table in y.tables && y.tables[table].rows == map[]
    {
      FrameOfTable(s, x.tables, y.tables, table);
    }
  }

  /** The ALTER TABLE takes constraints of this name. */
  predicate TakesNamed(s: Stmt, table: string, name: string) {
    && s.AlterTable? && s.table == table
    && (s.dropsColumn || s.bareDrop || (s.dropsConstraint && (name in s.dropped || s.dropped == [])))
  }

  lemma TakesConstraintIff(s: Stmt, table: string, name: string)
    requires Readable(s)
    ensures TakesConstraint(s, table, name) <==> TakesNamed(s, table, name)
  {
    if x, y :| Runs(s, x, y) && table in x.tables && table in y.tables && name in x.tables[table].constraints
               && Taken(x.tables[table].constraints, y.tables[table].constraints, name) {
      if !s.DropTable? && !TakesNamed(s, table, name) {
        FrameOfTable(s, x.tables, y.tables, table);
      }
    }
    if TakesNamed(s, table, name) {
      ConstraintTaken(s, table, name);
    }
  }

  lemma ConstraintTaken(s: Stmt, table: string, name: string)
    requires TakesNamed(s, table, name)
    ensures TakesConstraint(s, table, name)
  {
    var t := EMPTY_TABLE.(constraints := map[name := "was"]);
    var u := EMPTY_TABLE.(constraints := map other | other in s.added :: "");
    RunsOnOne(s, table, t, u);
    var x, y := One(table, t), One(table, u);
    assert Runs(s, x, y) && name in x.tables[table].constraints
           && Taken(x.tables[table].constraints, y.tables[table].constraints, name);
  }

  lemma TakesRowIff(s: Stmt)
    requires Readable(s)
    ensures TakesRow(s) <==> s.Truncate? || s.Delete?
  {
    if x, y, table, row :| Runs(s, x, y) && table in x.tables && table in y.tables
                           && row in x.tables[table].rows && row !in y.tables[table].rows {
      if !s.DropTable? && !s.Truncate? && !s.Delete? {
        FrameOfTable(s, x.tables, y.tables, table);
      }
    }
    if s.Truncate? || s.Delete? {
      RowTaken(s);
    }
  }

  lemma RowTaken(s: Stmt)
    requires s.Truncate? || s.Delete?
    ensures TakesRow(s)
  {
    var t := EMPTY_TABLE.(rows := map["1" := ""]);
    RunsOnOne(s, s.table, t, EMPTY_TABLE);
    var x, y := One(s.table, t), One(s.table, EMPTY_TABLE);
    assert Runs(s, x, y) && "1" in x.tables[s.table].rows && "1" !in y.tables[s.table].rows;
  }

  lemma RefillsIff(s: Stmt)
    requires Readable(s)
    ensures Refills(s) <==> s.RefreshView?
  {
    if Refills(s) {
      OnlyRefreshRefills(s);
    }
    if s.RefreshView? {
      Refilled(s, s.name);
    }
  }

  lemma OnlyRefreshRefills(s: Stmt)
    requires Readable(s) && Refills(s)
    ensures s.RefreshView?
  {
    var x, y, view :| Runs(s, x, y) && view in x.views && view in y.views
                      && y.views[view].query == x.views[view].query && y.views[view].stored != x.views[view].stored;
    if !s.RefreshView? {
      StoredKept(s, x.views, y.views, view);
    }
  }

  lemma StoredKept(s: Stmt, x: map<string, View>, y: map<string, View>, name: string)
    requires ViewsRun(s, x, y) && !s.RefreshView? && name in x && name in y
    ensures y[name].stored == x[name].stored
  {
  }

  function OneView(name: string, stored: string): Db {
    EMPTY.(views := map[name := View("", stored)])
  }

  lemma Refilled(s: Stmt, name: string)
    requires s == RefreshView(name)
    ensures Refills(s)
  {
    var x, y := OneView(name, "was"), OneView(name, "");
    assert TablesRun(s, x.tables, y.tables) && ViewsRun(s, x.views, y.views) && RightsRun(s, x, y);
    assert Runs(s, x, y);
    assert name in x.views && name in y.views && y.views[name].stored != x.views[name].stored;
  }

  // ----------------------------------------------------- what is made and dropped

  /** The statement names the object among those it drops. */
  predicate NamesToDrop(s: Stmt, pool: Pool, name: string) {
    Removes(s).Some? && Removes(s).value.0 == pool && name in Removes(s).value.1
  }

  lemma IndexFate(s: Stmt, table: string, x: Entries, y: Entries, name: string)
    requires IndexesFollow(s, table, x, y)
    ensures name in x && name !in y && !DropsColumn(s) ==>
      s.DropOther? && s.pool == Indexes && name in Names(s.first, s.rest)
    ensures name !in x && name in y ==> s.CreateIndex? && (s.index == None || s.index == Some(name))
  {
  }

  lemma TriggerFate(s: Stmt, table: string, x: Entries, y: Entries, name: string)
    requires TriggersFollow(s, table, x, y)
    ensures name in x && name !in y ==> s.DropTrigger? && s.name == name
    ensures name !in x && name in y ==> (s.CreateTrigger? || s.ReplaceTrigger?) && s.name == name
  {
  }

  lemma TablesFate(s: Stmt, x: map<string, Table>, y: map<string, Table>, name: string)
    requires TablesRun(s, x, y)
    ensures name in x && name !in y ==> s.DropTable? && name in s.names
    ensures name !in x && name in y ==>
      s == CreateTable(name) && y[name].indexes == map[] && y[name].triggers == map[]
  {
  }

  lemma IndexLost(s: Stmt, x: map<string, Table>, y: map<string, Table>, name: string)
    requires TablesRun(s, x, y) && !s.DropTable? && !DropsColumn(s)
    requires OnSome(x, IndexesOn, name) && !OnSome(y, IndexesOn, name)
    ensures s.DropOther? && s.pool == Indexes && name in Names(s.first, s.rest)
  {
    var table :| table in x && name in PartOf(x[table], IndexesOn);
    FrameOfTable(s, x, y, table);
    assert name !in PartOf(y[table], IndexesOn);
    IndexFate(s, table, x[table].indexes, y[table].indexes, name);
  }

  lemma IndexMade(s: Stmt, x: map<string, Table>, y: map<string, Table>, name: string)
    requires TablesRun(s, x, y)
    requires !OnSome(x, IndexesOn, name) && OnSome(y, IndexesOn, name)
    ensures s.CreateIndex? && (s.index == None || s.index == Some(name))
  {
    var table :| table in y && name in PartOf(y[table], IndexesOn);
    TablesFate(s, x, y, table);
    assert table in x && name !in PartOf(x[table], IndexesOn);
    if !s.DropTable? {
      FrameOfTable(s, x, y, table);
      IndexFate(s, table, x[table].indexes, y[table].indexes, name);
    }
  }

  lemma TriggerLost(s: Stmt, x: map<string, Table>, y: map<string, Table>, name: string)
    requires TablesRun(s, x, y) && !s.DropTable?
    requires OnSome(x, TriggersOn, name) && !OnSome(y, TriggersOn, name)
    ensures s.DropTrigger? && s.name == name
  {
    var table :| table in x && name in PartOf(x[table], TriggersOn);
    FrameOfTable(s, x, y, table);
    assert name !in PartOf(y[table], TriggersOn);
    TriggerFate(s, table, x[table].triggers, y[table].triggers, name);
  }

  lemma TriggerMade(s: Stmt, x: map<string, Table>, y: map<string, Table>, name: string)
    requires TablesRun(s, x, y)
    requires !OnSome(x, TriggersOn, name) && OnSome(y, TriggersOn, name)
    ensures (s.CreateTrigger? || s.ReplaceTrigger?) && s.name == name
  {
    var table :| table in y && name in PartOf(y[table], TriggersOn);
    TablesFate(s, x, y, table);
    assert table in x && name !in PartOf(x[table], TriggersOn);
    if !s.DropTable? {
      FrameOfTable(s, x, y, table);
      TriggerFate(s, table, x[table].triggers, y[table].triggers, name);
    }
  }

  lemma RoutinesFate(s: Stmt, x: Entries, y: Entries, name: string)
    requires RoutinesRun(s, x, y)
    ensures name in x && name !in y ==> s.DropRoutine? && name in Names(s.first, s.rest)
    ensures name !in x && name in y ==> (s.ReplaceRoutine? || s.CreateRoutine?) && s.name == name
  {
  }

  lemma ViewsFate(s: Stmt, x: map<string, View>, y: map<string, View>, name: string)
    requires ViewsRun(s, x, y)
    ensures name in x && name !in y ==> s.DropOther? && s.pool == Views && name in Names(s.first, s.rest)
    ensures name !in x && name in y ==> s == CreateView(name)
  {
  }

  lemma TypesFate(s: Stmt, x: Entries, y: Entries, name: string)
    requires TypesRun(s, x, y)
    ensures name in x && name !in y ==> s.DropOther? && s.pool == Types && name in Names(s.first, s.rest)
    ensures name !in x && name in y ==> s == CreateType(name)
  {
  }

  lemma SequencesFate(s: Stmt, x: Entries, y: Entries, name: string)
    requires SequencesRun(s, x, y)
    ensures name in x && name !in y ==> s.DropOther? && s.pool == Sequences && name in Names(s.first, s.rest)
    ensures name !in x && name in y ==> s.CreateSequence? && s.name == name
  {
  }

  lemma DropNames(s: Stmt)
    ensures s.DropRoutine? || s.DropOther? ==>
      forall name :: name in Names(s.first, s.rest) <==> name in [s.first] + s.rest
  {
  }

  lemma ObjectLost(s: Stmt, x: Db, y: Db, pool: Pool, name: string)
    requires Readable(s) && Runs(s, x, y) && (pool == Tables || (!s.DropTable? && !DropsColumn(s)))
    requires Holds(x, pool, name) && !Holds(y, pool, name)
    ensures NamesToDrop(s, pool, name)
  {
    DropNames(s);
    match pool {
      case Tables => TablesFate(s, x.tables, y.tables, name);
      case Routines =>
        if name in x.routines {
          RoutinesFate(s, x.routines, y.routines, name);
        } else {
          TriggerLost(s, x.tables, y.tables, name);
        }
      case Indexes => IndexLost(s, x.tables, y.tables, name);
      case Views => ViewsFate(s, x.views, y.views, name);
      case Types => TypesFate(s, x.types, y.types, name);
      case Sequences => SequencesFate(s, x.sequences, y.sequences, name);
    }
  }

  /** What the statement creates, or the server may name so. */
  predicate NamesToMake(s: Stmt, pool: Pool, name: string) {
    Creates(s) == Some((pool, name)) || (pool == Indexes && s.CreateIndex? && s.index == None)
  }

  lemma ObjectMade(s: Stmt, x: Db, y: Db, pool: Pool, name: string)
    requires Readable(s) && Runs(s, x, y)
    requires !Holds(x, pool, name) && Holds(y, pool, name)
    ensures NamesToMake(s, pool, name)
  {
    match pool {
      case Tables => TablesFate(s, x.tables, y.tables, name);
      case Routines =>
        if name in y.routines {
          RoutinesFate(s, x.routines, y.routines, name);
        } else {
          TriggerMade(s, x.tables, y.tables, name);
        }
      case Indexes => IndexMade(s, x.tables, y.tables, name);
      case Views => ViewsFate(s, x.views, y.views, name);
      case Types => TypesFate(s, x.types, y.types, name);
      case Sequences => SequencesFate(s, x.sequences, y.sequences, name);
    }
  }

  /** A database that has just this object. */
  function JustOne(s: Stmt, pool: Pool, name: string): Db {
    match pool
    case Tables => One(name, EMPTY_TABLE)
    case Routines => if s.DropTrigger? then One(s.table, EMPTY_TABLE.(triggers := map[name := ""]))
                     else EMPTY.(routines := map[name := ""])
    case Indexes => One("t", EMPTY_TABLE.(indexes := map[name := ""]))
    case Views => OneView(name, "")
    case Types => EMPTY.(types := map[name := ""])
    case Sequences => EMPTY.(sequences := map[name := ""])
  }

  lemma JustOneHolds(s: Stmt, pool: Pool, name: string)
    ensures Holds(JustOne(s, pool, name), pool, name)
  {
    var x := JustOne(s, pool, name);
    if pool.Indexes? {
      assert "t" in x.tables && name in PartOf(x.tables["t"], IndexesOn);
    } else if pool.Routines? && s.DropTrigger? {
      assert s.table in x.tables && name in PartOf(x.tables[s.table], TriggersOn);
    }
  }

  lemma StepDrops(s: Stmt, pool: Pool, name: string)
    requires NamesToDrop(s, pool, name)
    ensures !Holds(Step(s, JustOne(s, pool, name)), pool, name)
  {
    DropNames(s);
  }

  lemma NamedAreLost(s: Stmt, pool: Pool, name: string)
    requires NamesToDrop(s, pool, name)
    ensures LosesNamed(s, pool, name)
  {
    var x := JustOne(s, pool, name);
    Steps(s, x);
    JustOneHolds(s, pool, name);
    StepDrops(s, pool, name);
    assert Runs(s, x, Step(s, x)) && Holds(x, pool, name) && !Holds(Step(s, x), pool, name);
  }

  /**
   * The names a statement is read to drop are exactly those that can be gone once it has run; a table
   * or a column takes its indexes and triggers along.
   */
  lemma DropsExactly(s: Stmt, pool: Pool, name: string)
    requires Readable(s) && (pool == Tables || (!s.DropTable? && !DropsColumn(s)))
    ensures LosesNamed(s, pool, name) <==> NamesToDrop(s, pool, name)
  {
    if x, y :| Runs(s, x, y) && Holds(x, pool, name) && !Holds(y, pool, name) {
      ObjectLost(s, x, y, pool, name);
    }
    if NamesToDrop(s, pool, name) {
      NamedAreLost(s, pool, name);
    }
  }

  /** A database in which the statement can create what it creates. */
  function Ready(s: Stmt): Db {
    match s
    case CreateTrigger(_, table) => One(table, EMPTY_TABLE)
    case ReplaceTrigger(_, table) => One(table, EMPTY_TABLE)
    case CreateIndex(_, table) => One(table, EMPTY_TABLE)
    case _ => EMPTY
  }

  lemma ReadyLacks(s: Stmt, pool: Pool, name: string)
    requires Creates(s) == Some((pool, name))
    ensures !Holds(Ready(s), pool, name)
  {
  }

  lemma TableStepMakes(s: Stmt, x: map<string, Table>, table: string)
    requires table in x && x[table] == EMPTY_TABLE
    ensures (s.CreateTrigger? || s.ReplaceTrigger?) && s.table == table ==>
      OnSome(StepTables(s, x), TriggersOn, s.name)
    ensures s.CreateIndex? && s.table == table && s.index.Some? ==> OnSome(StepTables(s, x), IndexesOn, s.index.value)
  {
    var y := StepTables(s, x);
    if (s.CreateTrigger? || s.ReplaceTrigger?) && s.table == table {
      assert table in y && s.name in PartOf(y[table], TriggersOn);
    } else if s.CreateIndex? && s.table == table && s.index.Some? {
      assert table in y && s.index.value in PartOf(y[table], IndexesOn);
    }
  }

  lemma StepMakes(s: Stmt, pool: Pool, name: string)
    requires Creates(s) == Some((pool, name))
    ensures Holds(Step(s, Ready(s)), pool, name)
  {
    if s.CreateIndex? || s.CreateTrigger? || s.ReplaceTrigger? {
      TableStepMakes(s, Ready(s).tables, s.table);
    }
  }

  lemma NamedAreMade(s: Stmt, pool: Pool, name: string)
    requires Creates(s) == Some((pool, name))
    ensures MakesNamed(s, pool, name)
  {
    var x := Ready(s);
    Steps(s, x);
    ReadyLacks(s, pool, name);
    StepMakes(s, pool, name);
    assert Runs(s, x, Step(s, x)) && !Holds(x, pool, name) && Holds(Step(s, x), pool, name);
  }

  lemma UnnamedIndexIsMade(s: Stmt, name: string)
    requires s.CreateIndex? && s.index == None
    ensures MakesNamed(s, Indexes, name)
  {
    var t := EMPTY_TABLE.(indexes := map[name := ""]);
    var x, y := One(s.table, EMPTY_TABLE), One(s.table, t);
    RunsOnOne(s, s.table, EMPTY_TABLE, t);
    assert s.table in y.tables && name in PartOf(y.tables[s.table], IndexesOn);
    assert Runs(s, x, y) && !Holds(x, Indexes, name) && Holds(y, Indexes, name);
  }

  lemma OnlyNamedAreMade(s: Stmt, pool: Pool, name: string)
    requires Readable(s) && MakesNamed(s, pool, name)
    ensures NamesToMake(s, pool, name)
  {
    var x, y :| Runs(s, x, y) && !Holds(x, pool, name) && Holds(y, pool, name);
    ObjectMade(s, x, y, pool, name);
  }

  /** The name a statement is read to create is exactly the one it can make, an unnamed index apart. */
  lemma CreatesExactly(s: Stmt, pool: Pool, name: string)
    requires Readable(s)
    ensures MakesNamed(s, pool, name) <==> NamesToMake(s, pool, name)
  {
    if MakesNamed(s, pool, name) {
      OnlyNamedAreMade(s, pool, name);
    }
    if Creates(s) == Some((pool, name)) {
      NamedAreMade(s, pool, name);
    } else if NamesToMake(s, pool, name) {
      UnnamedIndexIsMade(s, name);
    }
  }

  // ------------------------------------------------------------- what is changed

  /** The statement writes this part of this table. */
  predicate WritesPart(s: Stmt, table: string, part: Part) {
    match s
    case DropTable(names) => table in names
    case AlterTable(on, _, _, _, _, _) =>
      on == table && (part == Columns || part == Rows || part == Constraints || (part == IndexesOn && DropsColumn(s)))
    case Truncate(on) => on == table && part == Rows
    case Delete(on, _) => on == table && part == Rows
    case Update(on) => on == table && part == Rows
    case Insert(on) => on == table && part == Rows
    case CreateIndex(_, on) => on == table && part == IndexesOn
    case DropOther(pool, _, _) => pool == Indexes && part == IndexesOn
    case CreateTrigger(_, on) => on == table && part == TriggersOn
    case ReplaceTrigger(_, on) => on == table && part == TriggersOn
    case DropTrigger(_, on) => on == table && part == TriggersOn
    case GrantOrRevoke(target) => Covers(target, table) && part == Grants
    case CreateSequence(_, ownedBy) => ownedBy == Some(table) && part == Owned
    case _ => false
  }

  predicate Writes(s: Stmt, cell: Cell) {
    match cell
    case OfTable(table, part) => WritesPart(s, table, part)
    case ViewCell(name) =>
      ((s.CreateView? || s.AlterView? || s.RefreshView?) && s.name == name) || NamesToDrop(s, Views, name)
    case TypeCell(name) => NamesToDrop(s, Types, name)
    case SequenceCell(name) => s == AlterSequence(name) || NamesToDrop(s, Sequences, name)
  }

  lemma PartKept(s: Stmt, table: string, t: Table, u: Table, part: Part)
    requires TableFollows(s, table, t, u) && !WritesPart(s, table, part)
    ensures PartOf(u, part) == PartOf(t, part)
  {
  }

  lemma OnlyWrittenPartsChange(s: Stmt, x: map<string, Table>, y: map<string, Table>, table: string, part: Part)
    requires TablesRun(s, x, y) && table in x && !WritesPart(s, table, part)
    ensures table in y && PartOf(y[table], part) == PartOf(x[table], part)
  {
    if s.DropTable? {
      assert table !in s.names;
    } else {
      FrameOfTable(s, x, y, table);
      if y[table] != x[table] {
        PartKept(s, table, x[table], y[table], part);
      }
    }
  }

  lemma ViewKept(s: Stmt, x: map<string, View>, y: map<string, View>, name: string)
    requires ViewsRun(s, x, y) && name in x && !Writes(s, ViewCell(name))
    ensures name in y && y[name] == x[name]
  {
    DropNames(s);
  }

  lemma TypeKept(s: Stmt, x: Entries, y: Entries, name: string)
    requires TypesRun(s, x, y) && name in x && !Writes(s, TypeCell(name))
    ensures name in y && y[name] == x[name]
  {
    DropNames(s);
  }

  lemma SequenceKept(s: Stmt, x: Entries, y: Entries, name: string)
    requires SequencesRun(s, x, y) && name in x && !Writes(s, SequenceCell(name))
    ensures name in y && y[name] == x[name]
  {
    DropNames(s);
  }

  lemma OnlyWrittenChanges(s: Stmt, x: Db, y: Db, cell: Cell)
    requires Readable(s) && Runs(s, x, y) && At(x, cell) != Gone && !Writes(s, cell)
    ensures At(y, cell) == At(x, cell)
  {
    match cell {
      case OfTable(table, part) => OnlyWrittenPartsChange(s, x.tables, y.tables, table, part);
      case ViewCell(name) => ViewKept(s, x.views, y.views, name);
      case TypeCell(name) => TypeKept(s, x.types, y.types, name);
      case SequenceCell(name) => SequenceKept(s, x.sequences, y.sequences, name);
    }
  }

  function Entry(s: Stmt): string {
    match s
    case CreateIndex(Some(name), _) => name
    case CreateTrigger(name, _) => name
    case ReplaceTrigger(name, _) => name
    case DropTrigger(name, _) => name
    case _ => "1"
  }

  /** A part before a statement that writes it, and after. */
  function PartBefore(s: Stmt): Entries {
    if s.Insert? || s.CreateIndex? || s.CreateTrigger? then map[] else map[Entry(s) := "was"]
  }

  function PartAfter(s: Stmt): Entries {
    if s.Insert? || s.CreateIndex? || s.CreateTrigger? || s.ReplaceTrigger? || s.Update? then map[Entry(s) := "now"]
    else map[]
  }

  function Before(s: Stmt, part: Part): Table {
    match part
    case Columns => EMPTY_TABLE
    case Rows => EMPTY_TABLE.(rows := PartBefore(s))
    case IndexesOn => EMPTY_TABLE.(indexes := PartBefore(s))
    case TriggersOn => EMPTY_TABLE.(triggers := PartBefore(s))
    case Grants => EMPTY_TABLE.(grants := PartBefore(s))
    case _ => EMPTY_TABLE
  }

  function After(s: Stmt, part: Part): Table {
    match part
    case Rows => EMPTY_TABLE.(rows := PartAfter(s))
    case IndexesOn => EMPTY_TABLE.(indexes := PartAfter(s))
    case TriggersOn => EMPTY_TABLE.(triggers := PartAfter(s))
    case Grants => EMPTY_TABLE.(grants := PartAfter(s))
    case _ => EMPTY_TABLE
  }

  lemma TablePartChanges(s: Stmt, table: string, part: Part)
    requires WritesPart(s, table, part) && OnTables(s) && !s.AlterTable?
    ensures MayChange(s, OfTable(table, part))
  {
    var t, u := Before(s, part), After(s, part);
    PartFollows(s, table, part);
    RunsOnOne(s, table, t, u);
    ChangedOnOne(s, table, part, t, u);
  }

  lemma PartFollows(s: Stmt, table: string, part: Part)
    requires WritesPart(s, table, part) && OnTables(s) && !s.AlterTable?
    ensures TableFollows(s, table, Before(s, part), After(s, part))
    ensures PartOf(Before(s, part), part) != PartOf(After(s, part), part)
  {
    assert Entry(s) in PartBefore(s) || Entry(s) in PartAfter(s);
  }

  lemma ChangedOnOne(s: Stmt, table: string, part: Part, t: Table, u: Table)
    requires !s.DoBlock? && Runs(s, One(table, t), One(table, u)) && PartOf(t, part) != PartOf(u, part)
    ensures MayChange(s, OfTable(table, part))
  {
    var x, y, cell := One(table, t), One(table, u), OfTable(table, part);
    assert At(x, cell) == Has(PartOf(t, part)) && At(y, cell) == Has(PartOf(u, part));
  }

  lemma AlteredPartChanges(s: Stmt, table: string, part: Part)
    requires WritesPart(s, table, part) && s.AlterTable?
    ensures MayChange(s, OfTable(table, part))
  {
    var added := map name | name in s.added + ["n"] :: "";
    assert "n" in added;
    var t, u := EMPTY_TABLE, EMPTY_TABLE.(constraints := added);
    match part {
      case Columns => u := u.(columns := map["1" := ""]);
      case Rows => t, u := t.(rows := map["1" := "was"]), u.(rows := map["1" := "now"]);
      case IndexesOn => t := t.(indexes := map["1" := ""]);
      case _ =>
    }
    assert "1" in PartOf(t, part) || "1" in PartOf(u, part) || "n" in PartOf(u, part);
    assert part == Rows ==> t.rows["1"] != u.rows["1"];
    RunsOnOne(s, table, t, u);
    ChangedOnOne(s, table, part, t, u);
  }

  lemma DroppedPartChanges(s: Stmt, table: string, part: Part)
    requires WritesPart(s, table, part) && (s.DropTable? || s.DropOther?)
    ensures MayChange(s, OfTable(table, part))
  {
    var name := if s.DropOther? then s.first else "";
    var x := One(table, EMPTY_TABLE.(indexes := map[name := ""]));
    Steps(s, x);
    var y, cell := Step(s, x), OfTable(table, part);
    assert s.DropOther? ==> name in x.tables[table].indexes && name !in y.tables[table].indexes;
    assert At(x, cell) != Gone && At(y, cell) != At(x, cell);
  }

  lemma OwnedPartChanges(s: Stmt, table: string)
    requires s.CreateSequence? && s.ownedBy == Some(table)
    ensures MayChange(s, OfTable(table, Owned))
  {
    var x := One(table, EMPTY_TABLE);
    var y := One(table, EMPTY_TABLE.(owned := map[s.name := ""])).(sequences := map[s.name := ""]);
    assert TablesFollow(s, x.tables, y.tables) && SequencesRun(s, x.sequences, y.sequences);
    assert Runs(s, x, y);
    var cell := OfTable(table, Owned);
    assert s.name in y.tables[table].owned;
    assert At(x, cell) == Has(map[]) && At(y, cell) == Has(y.tables[table].owned);
  }

  lemma PartChanges(s: Stmt, table: string, part: Part)
    requires WritesPart(s, table, part)
    ensures MayChange(s, OfTable(table, part))
  {
    if s.AlterTable? {
      AlteredPartChanges(s, table, part);
    } else if OnTables(s) {
      TablePartChanges(s, table, part);
    } else if s.CreateSequence? {
      OwnedPartChanges(s, table);
    } else {
      DroppedPartChanges(s, table, part);
    }
  }

  lemma DroppedCellChanges(s: Stmt, pool: Pool, name: string, cell: Cell)
    requires NamesToDrop(s, pool, name)
    requires pool == Views || pool == Types || pool == Sequences
    requires cell == match pool
                     case Views => ViewCell(name)
                     case Types => TypeCell(name)
                     case _ => SequenceCell(name)
    ensures MayChange(s, cell)
  {
    var x := JustOne(s, pool, name);
    Steps(s, x);
    JustOneHolds(s, pool, name);
    StepDrops(s, pool, name);
    assert At(x, cell) != Gone && At(Step(s, x), cell) == Gone;
  }

  lemma ViewChanges(s: Stmt, name: string)
    requires s == CreateView(name) || s == AlterView(name) || s == RefreshView(name)
    ensures MayChange(s, ViewCell(name))
  {
    var x := OneView(name, "was");
    var y := EMPTY.(views := map[name := if s.RefreshView? then View("", "now") else View("now", "was")]);
    assert TablesFollow(s, x.tables, y.tables) && ViewsRun(s, x.views, y.views);
    assert Runs(s, x, y);
    assert At(x, ViewCell(name)) == Shows(x.views[name]) && At(y, ViewCell(name)) == Shows(y.views[name]);
  }

  lemma SequenceChanges(name: string)
    ensures MayChange(AlterSequence(name), SequenceCell(name))
  {
    var s := AlterSequence(name);
    var x, y := EMPTY.(sequences := map[name := "was"]), EMPTY.(sequences := map[name := "now"]);
    assert TablesFollow(s, x.tables, y.tables) && SequencesRun(s, x.sequences, y.sequences);
    assert Runs(s, x, y);
    assert At(x, SequenceCell(name)) == Is("was") && At(y, SequenceCell(name)) == Is("now");
  }

  /** Exactly the places a statement writes can be different once it has run. */
  lemma ChangesExactly(s: Stmt, cell: Cell)
    requires Readable(s)
    ensures MayChange(s, cell) <==> Writes(s, cell)
  {
    if MayChange(s, cell) {
      OnlyWrittenCanChange(s, cell);
    }
    if Writes(s, cell) {
      WrittenCanChange(s, cell);
    }
  }

  lemma OnlyWrittenCanChange(s: Stmt, cell: Cell)
    requires Readable(s) && MayChange(s, cell)
    ensures Writes(s, cell)
  {
    var x, y :| Runs(s, x, y) && At(x, cell) != Gone && At(y, cell) != At(x, cell);
    if !Writes(s, cell) {
      OnlyWrittenChanges(s, x, y, cell);
    }
  }

  lemma WrittenCanChange(s: Stmt, cell: Cell)
    requires Writes(s, cell)
    ensures MayChange(s, cell)
  {
    match cell {
      case OfTable(table, part) => PartChanges(s, table, part);
      case ViewCell(name) =>
        if NamesToDrop(s, Views, name) {
          DroppedCellChanges(s, Views, name, cell);
        } else {
          ViewChanges(s, name);
        }
      case TypeCell(name) => DroppedCellChanges(s, Types, name, cell);
      case SequenceCell(name) =>
        if NamesToDrop(s, Sequences, name) {
          DroppedCellChanges(s, Sequences, name, cell);
        } else {
          SequenceChanges(name);
        }
    }
  }

  // ------------------------------------------------------- grants, roles, routines

  lemma OnlyGrantsChange(s: Stmt, x: Db, y: Db, table: string)
    requires Readable(s) && Runs(s, x, y) && table in x.tables && table in y.tables
    requires y.tables[table].grants != x.tables[table].grants
    ensures s.GrantOrRevoke? && Covers(s.target, table)
  {
    if !WritesPart(s, table, Grants) {
      OnlyWrittenPartsChange(s, x.tables, y.tables, table, Grants);
    }
  }

  lemma ChangesGrantsIff(s: Stmt, table: string)
    requires Readable(s)
    ensures ChangesGrants(s, table) <==> s.GrantOrRevoke? && Covers(s.target, table)
  {
    if x, y :| Runs(s, x, y) && table in x.tables && table in y.tables
               && y.tables[table].grants != x.tables[table].grants {
      OnlyGrantsChange(s, x, y, table);
    }
    if s.GrantOrRevoke? && Covers(s.target, table) {
      var t, u := EMPTY_TABLE.(grants := map["1" := ""]), EMPTY_TABLE;
      RunsOnOne(s, table, t, u);
      assert "1" in t.grants && "1" !in u.grants;
      var x, y := One(table, t), One(table, u);
      assert Runs(s, x, y) && y.tables[table].grants != x.tables[table].grants;
    }
  }

  lemma ChangesRolesOrSchemaIff(s: Stmt)
    requires Readable(s)
    ensures ChangesRolesOrSchema(s)
       <==> s.RoleStatement? || (s.GrantOrRevoke? && !s.target.OnObject?)
  {
    if s.RoleStatement? || (s.GrantOrRevoke? && !s.target.OnObject?) {
      var some := map["1" := ""];
      var y := if s.GrantOrRevoke? && s.target.SchemaWide? then EMPTY.(schemaGrants := some) else EMPTY.(roles := some);
      assert TablesFollow(s, EMPTY.tables, y.tables);
      assert "1" in some && Runs(s, EMPTY, y);
    }
  }

  predicate Rewrites(s: Stmt, name: string) {
    (s.ReplaceRoutine? || s.AlterRoutine? || s.ReplaceTrigger?) && s.name == name
  }

  lemma RoutineBodyKept(s: Stmt, x: Entries, y: Entries, name: string)
    requires RoutinesRun(s, x, y) && !Rewrites(s, name) && name in x && name in y
    ensures y[name] == x[name]
  {
  }

  lemma TriggerBodyKept(s: Stmt, table: string, x: Entries, y: Entries, name: string)
    requires TriggersFollow(s, table, x, y) && !Rewrites(s, name) && name in x && name in y
    ensures y[name] == x[name]
  {
  }

  lemma BodyKept(s: Stmt, x: Db, y: Db, name: string)
    requires Readable(s) && Runs(s, x, y) && !Rewrites(s, name)
    ensures !BodyDiffers(x, y, name)
  {
    if name in x.routines && name in y.routines {
      RoutineBodyKept(s, x.routines, y.routines, name);
    }
    forall table | table in x.tables && table in y.tables
                   && name in x.tables[table].triggers && name in y.tables[table].triggers
      ensures y.tables[table].triggers[name] == x.tables[table].triggers[name]
    {
      if !s.DropTable? {
        FrameOfTable(s, x.tables, y.tables, table);
        if y.tables[table] != x.tables[table] {
          TriggerBodyKept(s, table, x.tables[table].triggers, y.tables[table].triggers, name);
        }
      }
    }
  }

  lemma RedefinesIff(s: Stmt, name: string)
    requires Readable(s)
    ensures Redefines(s, name) <==> Rewrites(s, name)
  {
    if x, y :| Runs(s, x, y) && BodyDiffers(x, y, name) {
      if !Rewrites(s, name) {
        BodyKept(s, x, y, name);
      }
    }
    if Rewrites(s, name) {
      BodyRewritten(s, name);
    }
  }

  lemma BodyRewritten(s: Stmt, name: string)
    requires Rewrites(s, name)
    ensures Redefines(s, name)
  {
    var was, now := map[name := "was"], map[name := "now"];
    if s.ReplaceTrigger? {
      var t, u := EMPTY_TABLE.(triggers := was), EMPTY_TABLE.(triggers := now);
      RunsOnOne(s, s.table, t, u);
      assert BodyDiffers(One(s.table, t), One(s.table, u), name) by {
        assert s.table in One(s.table, t).tables && s.table in One(s.table, u).tables;
      }
    } else {
      var x, y := EMPTY.(routines := was), EMPTY.(routines := now);
      assert TablesFollow(s, x.tables, y.tables) && RoutinesRun(s, x.routines, y.routines);
      assert Runs(s, x, y) && BodyDiffers(x, y, name);
    }
  }
}
