// A small database, and what each statement of a migration can do to it when it runs. Nothing here
// knows how a statement is judged.
module Database {
  import opened Text
  import opened Classify

  /** Named things and what each of them is. */
  type Entries = map<string, string>

  datatype Table = Table(columns: Entries, rows: Entries, constraints: Entries, indexes: Entries, triggers: Entries,
                         grants: Entries, owned: Entries)

  /** A view's query, and the rows a materialized one stores. */
  datatype View = View(query: string, stored: string)

  /** `schemaGrants` are those on the schema, `otherGrants` those on anything that is not a table. */
  datatype Db = Db(tables: map<string, Table>, views: map<string, View>, types: Entries, sequences: Entries,
                   routines: Entries, roles: Entries, schemaGrants: Entries, otherGrants: Entries)

  const EMPTY_TABLE := Table(map[], map[], map[], map[], map[], map[], map[])
  const EMPTY := Db(map[], map[], map[], map[], map[], map[], map[], map[])

  // ---------------------------------------------------------------------- frames

  /** The statement was read. */
  predicate Readable(s: Stmt) {
    !s.DoBlock? && !s.OpaqueDo? && !s.Unrecognised?
  }

  /** The two differ in nothing but what they have under `name`. */
  ghost predicate SameBut<V(!new)>(x: map<string, V>, y: map<string, V>, name: string) {
    forall other :: other != name ==> (other in x <==> other in y) && (other in x ==> y[other] == x[other])
  }

  ghost predicate Grows(x: Entries, y: Entries) {
    forall name :: name in x ==> name in y && y[name] == x[name]
  }

  /** What was there under `name` no longer is, even if something else is. */
  predicate Taken(x: Entries, y: Entries, name: string)
    requires name in x
  {
    name in y ==> y[name] != x[name]
  }

  // ----------------------------------------------- what a statement does to one table

  /** An ALTER TABLE takes a column away only when it drops one. */
  predicate DropsColumn(s: Stmt) {
    s.AlterTable? && (s.dropsColumn || s.bareDrop)
  }

  ghost predicate ColumnsFollow(s: Stmt, table: string, x: Entries, y: Entries) {
    y == x || (s.AlterTable? && s.table == table && (DropsColumn(s) || x.Keys <= y.Keys))
  }

  ghost predicate RowsFollow(s: Stmt, table: string, x: Entries, y: Entries) {
    match s
    case AlterTable(on, _, _, _, _, _) => y == x || (on == table && y.Keys == x.Keys)
    case Truncate(on) => y == if on == table then map[] else x
    case Delete(on, filtered) => if on == table then Grows(y, x) && (!filtered ==> y == map[]) else y == x
    case Update(on) => y == x || (on == table && y.Keys == x.Keys)
    case Insert(on) => y == x || (on == table && x.Keys <= y.Keys)
    case _ => y == x
  }

  /** A constraint goes only when the ALTER TABLE names it, names none, or drops a column under it. */
  ghost predicate ConstraintsFollow(s: Stmt, table: string, x: Entries, y: Entries) {
    if s.AlterTable? && s.table == table then
      && (forall name :: name in s.added ==> name in y)
      && (!DropsColumn(s) ==> forall name :: name in x && Taken(x, y, name) ==>
        s.dropsConstraint && (name in s.dropped || s.dropped == []))
    else y == x
  }

  function Names(first: string, rest: seq<string>): set<string> {
    {first} + set name | name in rest
  }

  ghost predicate IndexCreated(index: Option<string>, x: Entries, y: Entries) {
    Grows(x, y) && (index.Some? ==> SameBut(x, y, index.value) && index.value in y)
  }

  /** A constraint's own index counts as the constraint. */
  ghost predicate IndexesFollow(s: Stmt, table: string, x: Entries, y: Entries) {
    match s
    case AlterTable(on, _, _, _, _, _) => y == x || (on == table && DropsColumn(s) && y.Keys <= x.Keys)
    case CreateIndex(index, on) => if on == table then IndexCreated(index, x, y) else y == x
    case DropOther(pool, first, rest) => y == if pool == Indexes then x - Names(first, rest) else x
    case _ => y == x
  }

  ghost predicate TriggersFollow(s: Stmt, table: string, x: Entries, y: Entries) {
    match s
    case DropTrigger(name, on) => y == if on == table then x - {name} else x
    case ReplaceTrigger(name, on) => if on == table then SameBut(x, y, name) && name in y else y == x
    case CreateTrigger(name, on) => if on == table then SameBut(x, y, name) && Grows(x, y) && name in y else y == x
    case _ => y == x
  }

  predicate Covers(target: Target, table: string) {
    target.SchemaWide? || (target.OnObject? && table in target.tables)
  }

  ghost predicate GrantsFollow(s: Stmt, table: string, x: Entries, y: Entries) {
    y == x || (s.GrantOrRevoke? && Covers(s.target, table))
  }

  ghost predicate OwnedFollow(s: Stmt, table: string, x: Entries, y: Entries) {
    y == x || (s.CreateSequence? && s.ownedBy == Some(table) && SameBut(x, y, s.name))
  }

  ghost predicate TableFollows(s: Stmt, table: string, t: Table, u: Table) {
    && ColumnsFollow(s, table, t.columns, u.columns) && RowsFollow(s, table, t.rows, u.rows)
    && ConstraintsFollow(s, table, t.constraints, u.constraints) && IndexesFollow(s, table, t.indexes, u.indexes)
    && TriggersFollow(s, table, t.triggers, u.triggers) && GrantsFollow(s, table, t.grants, u.grants)
    && OwnedFollow(s, table, t.owned, u.owned)
  }

  /** A new table has no trigger, and no index but its constraints' own. One that is there stays as it is. */
  ghost predicate TableCreated(x: map<string, Table>, y: map<string, Table>, name: string) {
    if name in x then y == x
    else SameBut(x, y, name) && name in y && y[name].indexes == map[] && y[name].triggers == map[]
  }

  ghost predicate TablesFollow(s: Stmt, x: map<string, Table>, y: map<string, Table>) {
    && (forall table :: table in x <==> table in y)
    && forall table :: table in x ==> TableFollows(s, table, x[table], y[table])
  }

  ghost predicate TablesRun(s: Stmt, x: map<string, Table>, y: map<string, Table>) {
    match s
    case DropTable(names) => y == x - set name | name in names
    case CreateTable(name) => TableCreated(x, y, name)
    case _ => TablesFollow(s, x, y)
  }

  // ----------------------------------------------------------- and to the database

  ghost predicate RoutinesRun(s: Stmt, x: Entries, y: Entries) {
    match s
    case DropRoutine(first, rest) => y == x - Names(first, rest)
    case ReplaceRoutine(name) => SameBut(x, y, name) && name in y
    case AlterRoutine(name) => SameBut(x, y, name) && (name in y <==> name in x)
    case CreateRoutine(name) => SameBut(x, y, name) && Grows(x, y) && name in y
    case _ => y == x
  }

  /** A query that is set leaves stored rows; a refresh reads them again. */
  ghost predicate ViewsRun(s: Stmt, x: map<string, View>, y: map<string, View>) {
    match s
    case DropOther(pool, first, rest) => y == if pool == Views then x - Names(first, rest) else x
    case CreateView(name) => SameBut(x, y, name) && name in y && (name in x ==> y[name].stored == x[name].stored)
    case AlterView(name) =>
      SameBut(x, y, name) && (name in y <==> name in x) && (name in x ==> y[name].stored == x[name].stored)
    case RefreshView(name) =>
      SameBut(x, y, name) && (name in y <==> name in x) && (name in x ==> y[name].query == x[name].query)
    case _ => y == x
  }

  ghost predicate TypesRun(s: Stmt, x: Entries, y: Entries) {
    match s
    case DropOther(pool, first, rest) => y == if pool == Types then x - Names(first, rest) else x
    case CreateType(name) => SameBut(x, y, name) && Grows(x, y) && name in y
    case _ => y == x
  }

  ghost predicate SequencesRun(s: Stmt, x: Entries, y: Entries) {
    match s
    case DropOther(pool, first, rest) => y == if pool == Sequences then x - Names(first, rest) else x
    case AlterSequence(name) => SameBut(x, y, name) && (name in y <==> name in x)
    case CreateSequence(name, _) => SameBut(x, y, name) && Grows(x, y) && name in y
    case _ => y == x
  }

  ghost predicate RightsRun(s: Stmt, x: Db, y: Db) {
    && (s.RoleStatement? || (s.GrantOrRevoke? && s.target.RoleMembership?) || y.roles == x.roles)
    && ((s.GrantOrRevoke? && s.target.SchemaWide?) || y.schemaGrants == x.schemaGrants)
    && ((s.GrantOrRevoke? && s.target.OnObject? && s.target.tables == []) || y.otherGrants == x.otherGrants)
  }

  /**
   * Running the statement can take the database from `x` to `y`. A harmless statement changes nothing;
   * of one that was not read anything can come.
   */
  ghost predicate Runs(s: Stmt, x: Db, y: Db)
    requires !s.DoBlock?
  {
    Readable(s) ==>
      && TablesRun(s, x.tables, y.tables) && RoutinesRun(s, x.routines, y.routines)
      && ViewsRun(s, x.views, y.views) && TypesRun(s, x.types, y.types)
      && SequencesRun(s, x.sequences, y.sequences) && RightsRun(s, x, y)
  }

  /** One statement after the other. */
  ghost predicate Reaches(statements: seq<Stmt>, x: Db, y: Db)
    requires forall s :: s in statements ==> !s.DoBlock?
    decreases |statements|
  {
    if statements == [] then x == y
    else exists m :: Runs(statements[0], x, m) && Reaches(statements[1..], m, y)
  }

  // ------------------------------------------------------------------ what is where

  datatype Part = Columns | Rows | Constraints | IndexesOn | TriggersOn | Grants | Owned

  /** A place of the database: a part of a table, or a thing of its own. */
  datatype Cell = OfTable(table: string, part: Part) | ViewCell(name: string) | TypeCell(name: string)
                | SequenceCell(name: string)

  datatype Content = Gone | Has(entries: Entries) | Is(text: string) | Shows(view: View)

  function PartOf(t: Table, part: Part): Entries {
    match part
    case Columns => t.columns
    case Rows => t.rows
    case Constraints => t.constraints
    case IndexesOn => t.indexes
    case TriggersOn => t.triggers
    case Grants => t.grants
    case Owned => t.owned
  }

  function At(x: Db, cell: Cell): Content {
    match cell
    case OfTable(table, part) => if table in x.tables then Has(PartOf(x.tables[table], part)) else Gone
    case ViewCell(name) => if name in x.views then Shows(x.views[name]) else Gone
    case TypeCell(name) => if name in x.types then Is(x.types[name]) else Gone
    case SequenceCell(name) => if name in x.sequences then Is(x.sequences[name]) else Gone
  }

  /** The cell belongs to something the picture lists. */
  predicate Listed(o: Objects, cell: Cell) {
    match cell
    case OfTable(table, _) => table in o.tables
    case ViewCell(name) => name in o.views
    case TypeCell(name) => name in o.types
    case SequenceCell(name) => name in o.sequences
  }

  /** Some run of the statement changes what is there. */
  ghost predicate MayChange(s: Stmt, cell: Cell)
    requires !s.DoBlock?
  {
    exists x, y :: Runs(s, x, y) && At(x, cell) != Gone && At(y, cell) != At(x, cell)
  }

  /** Some table has this. */
  ghost predicate OnSome(x: map<string, Table>, part: Part, name: string) {
    exists table :: table in x && name in PartOf(x[table], part)
  }

  /** The database has an object of this name. A trigger counts as a routine. */
  ghost predicate Holds(x: Db, pool: Pool, name: string) {
    match pool
    case Tables => name in x.tables
    case Routines => name in x.routines || OnSome(x.tables, TriggersOn, name)
    case Indexes => OnSome(x.tables, IndexesOn, name)
    case Views => name in x.views
    case Types => name in x.types
    case Sequences => name in x.sequences
  }
}
