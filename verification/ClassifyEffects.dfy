// What the classes mean for the database: which class a statement gets, by what it can do when it runs,
// and which class a file gets, by what its statements can do.
module ClassifyEffects {
  import opened Text
  import opened Classify
  import opened ClassifyMeaning
  import opened Database
  import opened DatabaseRuns

  /** The picture lists an object of that name. */
  predicate Knows(o: Objects, pool: Pool, name: string) {
    match pool
    case Tables => name in o.tables
    case Routines => name in o.routines
    case Indexes => name in o.indexes
    case Views => name in o.views
    case Types => name in o.types
    case Sequences => name in o.sequences
  }

  // ---------------------------------------------------------- what a class promises

  ghost predicate LosesConstraint(s: Stmt, readded: set<(string, string)>)
    requires !s.DoBlock?
  {
    exists table, name :: TakesConstraint(s, table, name) && (table, name) !in readded
  }

  ghost predicate LosesObject(s: Stmt, o: Objects)
    requires !s.DoBlock?
  {
    exists pool, name :: Knows(o, pool, name) && LosesNamed(s, pool, name)
  }

  /**
   * It takes away a table, a column, every row of a table, a constraint the file does not add back, or
   * an object that was there before the file.
   */
  ghost predicate Loses(s: Stmt, c: Context)
    requires !s.DoBlock?
  {
    || LosesTable(s) || LosesColumn(s) || (exists table :: Empties(s, table)) || LosesConstraint(s, c.readded)
    || LosesObject(s, c.objects)
  }

  /** It takes rows or constraints, reads a view's rows again, or changes, grants apart, what was there. */
  ghost predicate Touches(s: Stmt, o: Objects)
    requires !s.DoBlock?
  {
    || TakesRow(s) || (exists table, name :: TakesConstraint(s, table, name)) || Refills(s)
    || exists cell :: Listed(o, cell) && !(cell.OfTable? && cell.part == Grants) && MayChange(s, cell)
  }

  /** It changes a role, a grant on the schema, or one on a table that was there. */
  ghost predicate Permits(s: Stmt, o: Objects)
    requires !s.DoBlock?
  {
    ChangesRolesOrSchema(s) || exists table :: table in o.tables && ChangesGrants(s, table)
  }

  // ------------------------------------------------------- what the source overlooks

  /** A DROP is judged by its first name, which is not there, and drops a later one that is. */
  predicate BehindUnknown(s: Stmt, o: Objects) {
    && FirstDropped(s).Some?
    && var (pool, first) := FirstDropped(s).value;
    && !Knows(o, pool, first) && exists name :: name in LaterDropped(s) && Knows(o, pool, name)
  }

  /** A column is dropped without the word COLUMN, and nothing else of the statement is destructive. */
  predicate BareDrop(s: Stmt, readded: set<(string, string)>) {
    s.AlterTable? && s.bareDrop && !s.dropsColumn && (s.dropsConstraint ==> Excused(s, readded))
  }

  /** It is judged by a name that says nothing about the tables it is on, or by a table that is new. */
  predicate JudgedElsewhere(s: Stmt, o: Objects) {
    || s.ReplaceTrigger? || s.DropTrigger? || s.DropRoutine? || s.DropOther?
    || (s.AlterTable? && s.bareDrop && !s.dropsConstraint && s.table !in o.tables)
  }

  /** The word a GRANT is judged by is a known table exactly when one of its tables is. */
  predicate ReadRight(s: Stmt, o: Objects) {
    s.GrantOrRevoke? && s.target.OnObject? ==>
      (s.target.word in o.tables <==> exists table :: table in s.target.tables && table in o.tables)
  }

  // --------------------------------------------------------------- class by class

  /** It takes something away, and not only where the source does not look. */
  ghost predicate Ruins(s: Stmt, c: Context)
    requires !s.DoBlock?
  {
    !Unknown(s) && ((Loses(s, c) && !BehindUnknown(s, c.objects) && !BareDrop(s, c.readded)) || s == DropTable([]))
  }

  ghost predicate TouchesKnown(s: Stmt, c: Context)
    requires !s.DoBlock?
  {
    !Unknown(s) && Touches(s, c.objects) && !JudgedElsewhere(s, c.objects) && (Loses(s, c) ==> BareDrop(s, c.readded))
  }

  /** Where the wrong word is read, the class says the opposite of what the statement does. */
  ghost predicate PermitsKnown(s: Stmt, c: Context)
    requires !s.DoBlock?
  {
    !Unknown(s) && if ReadRight(s, c.objects) then Permits(s, c.objects) else !Permits(s, c.objects)
  }

  ghost predicate ReplacesKnown(s: Stmt, c: Context)
    requires !s.DoBlock?
  {
    !Unknown(s) && exists name :: name in c.objects.routines && Redefines(s, name)
  }

  /** What the class says of a statement that is not a DO block. */
  ghost predicate Means(s: Stmt, c: Context, kind: Class)
    requires !s.DoBlock?
  {
    match kind
    case Destructive => Ruins(s, c)
    case Unclassified => Unknown(s)
    case TouchesExisting => TouchesKnown(s, c)
    case Privilege => PermitsKnown(s, c)
    case ReplacesRoutine => ReplacesKnown(s, c)
    case Additive =>
      !Ruins(s, c) && !Unknown(s) && !TouchesKnown(s, c) && !PermitsKnown(s, c) && !ReplacesKnown(s, c)
  }

  // -------------------------------------------------------------- class by class

  lemma {:induction false} Bounded(pairs: set<(string, string)>) returns (n: nat)
    ensures forall pair :: pair in pairs ==> |pair.1| < n
    decreases |pairs|
  {
    n := 0;
    if pairs != {} {
      var pair :| pair in pairs;
      var m := Bounded(pairs - {pair});
      n := if |pair.1| < m then m else |pair.1| + 1;
    }
  }

  /** There is always a name that is not in the list. */
  lemma Unlisted(pairs: set<(string, string)>, table: string) returns (name: string)
    ensures (table, name) !in pairs
  {
    var n := Bounded(pairs);
    name := seq(n, i => 'x');
  }

  /** The ALTER TABLE drops constraints that nothing adds back, or does not say which. */
  predicate DropsConstraints(s: Stmt, readded: set<(string, string)>) {
    && s.AlterTable? && s.dropsConstraint
    && (s.dropped == [] || exists name :: name in s.dropped && (s.table, name) !in readded)
  }

  lemma LosesConstraintIff(s: Stmt, readded: set<(string, string)>)
    requires Readable(s)
    ensures LosesConstraint(s, readded) <==> DropsColumn(s) || DropsConstraints(s, readded)
  {
    if table, name :| TakesConstraint(s, table, name) && (table, name) !in readded {
      TakesConstraintIff(s, table, name);
    }
    if DropsColumn(s) || DropsConstraints(s, readded) {
      var name;
      if DropsColumn(s) || s.dropped == [] {
        name := Unlisted(readded, s.table);
      } else {
        name :| name in s.dropped && (s.table, name) !in readded;
      }
      TakesConstraintIff(s, s.table, name);
    }
  }

  /** Some name the statement drops is listed. */
  predicate DropsListed(s: Stmt, o: Objects) {
    && FirstDropped(s).Some?
    && var (pool, first) := FirstDropped(s).value;
    && (Knows(o, pool, first) || exists name :: name in LaterDropped(s) && Knows(o, pool, name))
  }

  lemma NamesOfDrop(s: Stmt, pool: Pool, name: string)
    ensures FirstDropped(s).Some? ==>
      (NamesToDrop(s, pool, name)
       <==> pool == FirstDropped(s).value.0 && (name == FirstDropped(s).value.1 || name in LaterDropped(s)))
    ensures FirstDropped(s).None? && NamesToDrop(s, pool, name) ==> s.DropTable?
  {
  }

  lemma LosesObjectIff(s: Stmt, o: Objects)
    requires Readable(s) && !s.DropTable? && !DropsColumn(s)
    ensures LosesObject(s, o) <==> DropsListed(s, o)
  {
    if pool, name :| Knows(o, pool, name) && LosesNamed(s, pool, name) {
      DropsExactly(s, pool, name);
      NamesOfDrop(s, pool, name);
    }
    if DropsListed(s, o) {
      var (pool, first) := FirstDropped(s).value;
      var name :| (name == first || name in LaterDropped(s)) && Knows(o, pool, name);
      NamesOfDrop(s, pool, name);
      DropsExactly(s, pool, name);
    }
  }

  lemma LosesIff(s: Stmt, c: Context)
    requires Readable(s)
    ensures Loses(s, c)
       <==> || (s.DropTable? && (s.names != [] || LosesObject(s, c.objects))) || DropsColumn(s)
            || s.Truncate? || (s.Delete? && !s.filtered)
            || DropsConstraints(s, c.readded) || DropsListed(s, c.objects)
  {
    LosesTableIff(s);
    LosesColumnIff(s);
    forall table
      ensures Empties(s, table) <==> s == Truncate(table) || s == Delete(table, false)
    {
      EmptiesIff(s, table);
    }
    LosesConstraintIff(s, c.readded);
    if s.Truncate? || s.Delete? {
      EmptiesIff(s, s.table);
    }
    if !s.DropTable? && !DropsColumn(s) {
      LosesObjectIff(s, c.objects);
    }
  }

  /** What makes a statement destructive, read off its text. */
  predicate SaysDestructive(s: Stmt, c: Context) {
    match s
    case DropTable(_) => true
    case AlterTable(_, dropsColumn, _, dropsConstraint, _, _) =>
      dropsColumn || (dropsConstraint && !Excused(s, c.readded))
    case Truncate(_) => true
    case Delete(_, filtered) => !filtered
    case DropRoutine(first, _) => Knows(c.objects, Routines, first)
    case DropTrigger(name, _) => Knows(c.objects, Routines, name)
    case DropOther(pool, first, _) => Knows(c.objects, pool, first)
    case _ => false
  }

  lemma JudgedDestructive(s: Stmt, c: Context)
    requires !s.DoBlock?
    ensures Judge(s, c).kind == Destructive <==> SaysDestructive(s, c)
  {
  }

  lemma JudgedUnclassified(s: Stmt, c: Context)
    requires !s.DoBlock?
    ensures Judge(s, c).kind == Unclassified <==> !Readable(s)
  {
  }

  lemma RuinsIff(s: Stmt, c: Context)
    requires Readable(s)
    ensures (Loses(s, c) && !BehindUnknown(s, c.objects) && !BareDrop(s, c.readded)) || s == DropTable([])
       <==> SaysDestructive(s, c)
  {
    LosesIff(s, c);
  }

  /** A statement is destructive exactly when it takes something away, what the source overlooks apart. */
  lemma DestructiveExactly(s: Stmt, c: Context)
    requires !s.DoBlock?
    ensures Judge(s, c).kind == Destructive <==> Ruins(s, c)
  {
    UnknownIff(s);
    JudgedDestructive(s, c);
    if Readable(s) {
      RuinsIff(s, c);
    }
  }

  /** One is unclassified exactly when anything can come of it. */
  lemma UnclassifiedExactly(s: Stmt, c: Context)
    requires !s.DoBlock?
    ensures Judge(s, c).kind == Unclassified <==> Unknown(s)
  {
    UnknownIff(s);
    JudgedUnclassified(s, c);
  }

  /** What makes a statement touch what exists, read off its text. */
  predicate SaysTouches(s: Stmt, o: Objects) {
    match s
    case AlterTable(table, _, _, dropsConstraint, _, _) => dropsConstraint || table in o.tables
    case Delete(_, filtered) => filtered
    case CreateIndex(_, table) => table in o.tables
    case CreateTrigger(_, table) => table in o.tables
    case CreateView(name) => name in o.views
    case AlterView(name) => name in o.views
    case RefreshView(_) => true
    case AlterSequence(name) => name in o.sequences
    case CreateSequence(_, ownedBy) => ownedBy.Some? && ownedBy.value in o.tables
    case Update(table) => table in o.tables
    case Insert(table) => table in o.tables
    case _ => false
  }

  lemma JudgedTouches(s: Stmt, c: Context)
    requires !s.DoBlock?
    ensures Judge(s, c).kind == TouchesExisting <==> SaysTouches(s, c.objects) && !SaysDestructive(s, c)
  {
  }

  /** Some listed place, grants apart, is written. */
  ghost predicate WritesListed(s: Stmt, o: Objects) {
    exists cell :: Listed(o, cell) && !(cell.OfTable? && cell.part == Grants) && Writes(s, cell)
  }

  lemma TouchesIff(s: Stmt, o: Objects)
    requires Readable(s)
    ensures Touches(s, o)
       <==> s.Truncate? || s.Delete? || DropsColumn(s) || (s.AlterTable? && s.dropsConstraint) || s.RefreshView?
            || WritesListed(s, o)
  {
    TakesRowIff(s);
    RefillsIff(s);
    if table, name :| TakesConstraint(s, table, name) {
      TakesConstraintIff(s, table, name);
    }
    if DropsColumn(s) || (s.AlterTable? && s.dropsConstraint) {
      TakesConstraintIff(s, s.table, if s.dropped == [] then "" else s.dropped[0]);
    }
    forall cell
      ensures MayChange(s, cell) <==> Writes(s, cell)
    {
      ChangesExactly(s, cell);
    }
  }

  /** The place that shows that a statement writes what is listed. */
  function Place(s: Stmt): Cell {
    match s
    case AlterTable(table, _, _, _, _, _) => OfTable(table, Columns)
    case CreateIndex(_, table) => OfTable(table, IndexesOn)
    case CreateTrigger(_, table) => OfTable(table, TriggersOn)
    case CreateSequence(_, Some(table)) => OfTable(table, Owned)
    case Update(table) => OfTable(table, Rows)
    case Insert(table) => OfTable(table, Rows)
    case CreateView(name) => ViewCell(name)
    case AlterView(name) => ViewCell(name)
    case AlterSequence(name) => SequenceCell(name)
    case _ => TypeCell("")
  }

  lemma WritesListedIff(s: Stmt, o: Objects)
    requires Readable(s) && !JudgedElsewhere(s, o) && !s.Truncate? && !s.Delete? && !s.RefreshView? && !s.DropTable?
    requires s.AlterTable? ==> !s.dropsConstraint
    ensures WritesListed(s, o) <==> SaysTouches(s, o)
  {
    if SaysTouches(s, o) {
      assert Listed(o, Place(s)) && Writes(s, Place(s));
    }
    if cell :| Listed(o, cell) && !(cell.OfTable? && cell.part == Grants) && Writes(s, cell) {
      NoDropHere(s, cell);
    }
  }

  lemma NoDropHere(s: Stmt, cell: Cell)
    requires Writes(s, cell) && !s.DropRoutine? && !s.DropOther? && !s.DropTable? && !s.DropTrigger?
    ensures cell.TypeCell? ==> false
    ensures cell.ViewCell? ==> (s.CreateView? || s.AlterView? || s.RefreshView?) && s.name == cell.name
    ensures cell.SequenceCell? ==> s == AlterSequence(cell.name)
  {
  }

  lemma TouchesKnownIff(s: Stmt, c: Context)
    requires Readable(s)
    ensures Touches(s, c.objects) && !JudgedElsewhere(s, c.objects) && (Loses(s, c) ==> BareDrop(s, c.readded))
       <==> SaysTouches(s, c.objects) && !SaysDestructive(s, c)
  {
    TouchesIff(s, c.objects);
    LosesIff(s, c);
    if !JudgedElsewhere(s, c.objects) && !s.Truncate? && !s.Delete? && !s.RefreshView? && !s.DropTable?
       && (s.AlterTable? ==> !s.dropsConstraint) {
      WritesListedIff(s, c.objects);
    }
  }

  /** One touches what exists exactly when it can change it and takes nothing the source sees. */
  lemma TouchesExactly(s: Stmt, c: Context)
    requires !s.DoBlock?
    ensures Judge(s, c).kind == TouchesExisting <==> TouchesKnown(s, c)
  {
    UnknownIff(s);
    JudgedTouches(s, c);
    if Readable(s) {
      TouchesKnownIff(s, c);
    }
  }

  predicate SaysPrivilege(s: Stmt, o: Objects) {
    s.RoleStatement? || (s.GrantOrRevoke? && (s.target.OnObject? ==> s.target.word in o.tables))
  }

  lemma JudgedPrivilege(s: Stmt, c: Context)
    requires !s.DoBlock?
    ensures Judge(s, c).kind == Privilege <==> SaysPrivilege(s, c.objects)
  {
  }

  lemma PermitsIff(s: Stmt, o: Objects)
    requires Readable(s)
    ensures Permits(s, o)
       <==> s.RoleStatement? || (s.GrantOrRevoke? && !s.target.OnObject?)
            || (s.GrantOrRevoke? && exists table :: table in s.target.tables && table in o.tables)
  {
    ChangesRolesOrSchemaIff(s);
    forall table
      ensures ChangesGrants(s, table) <==> s.GrantOrRevoke? && Covers(s.target, table)
    {
      ChangesGrantsIff(s, table);
    }
  }

  /** One is a privilege exactly when it changes a right that was there, if its target is read right. */
  lemma PrivilegeExactly(s: Stmt, c: Context)
    requires !s.DoBlock?
    ensures Judge(s, c).kind == Privilege <==> PermitsKnown(s, c)
  {
    UnknownIff(s);
    JudgedPrivilege(s, c);
    if Readable(s) {
      PermitsIff(s, c.objects);
    }
  }

  predicate SaysReplaces(s: Stmt, o: Objects) {
    (s.ReplaceRoutine? || s.AlterRoutine? || s.ReplaceTrigger?) && s.name in o.routines
  }

  lemma JudgedReplaces(s: Stmt, c: Context)
    requires !s.DoBlock?
    ensures Judge(s, c).kind == ReplacesRoutine <==> SaysReplaces(s, c.objects)
    ensures Judge(s, c).routine == if SaysReplaces(s, c.objects) then Some(s.name) else None
  {
  }

  /** One replaces a routine exactly when it redefines one that was there, which the decision names. */
  lemma ReplacesExactly(s: Stmt, c: Context)
    requires !s.DoBlock?
    ensures Judge(s, c).kind == ReplacesRoutine <==> ReplacesKnown(s, c)
    ensures Judge(s, c).kind == ReplacesRoutine ==>
      forall name :: Redefines(s, name) <==> Judge(s, c).routine == Some(name)
  {
    UnknownIff(s);
    JudgedReplaces(s, c);
    if Readable(s) {
      forall name
        ensures Redefines(s, name) <==> Rewrites(s, name)
      {
        RedefinesIff(s, name);
      }
    }
  }

  /** The class of a statement is exactly what it can do to the database. */
  lemma ClassExactly(s: Stmt, c: Context, kind: Class)
    requires !s.DoBlock?
    ensures Judge(s, c).kind == kind <==> Means(s, c, kind)
  {
    DestructiveExactly(s, c);
    UnclassifiedExactly(s, c);
    TouchesExactly(s, c);
    PrivilegeExactly(s, c);
    ReplacesExactly(s, c);
  }

  // ------------------------------------------------------------------ one file

  /** Every DO block of the statement could be opened and every leaf read. */
  ghost predicate Opened(s: Stmt) {
    Openable(s, 0) && forall leaf :: leaf in Leaves(s) ==> Readable(leaf)
  }

  ghost predicate AllOpened(statements: seq<Stmt>) {
    forall s :: s in statements ==> Opened(s)
  }

  /** What is said of statements that are not DO blocks, class by class. */
  type Words = (Stmt, Class) -> bool

  /** Of some leaf of a statement that could be read through it says so. */
  ghost predicate SomeLeaf(statements: seq<Stmt>, says: Words, kind: Class) {
    exists s, leaf :: s in statements && Opened(s) && leaf in Leaves(s) && says(leaf, kind)
  }

  /** The strongest of what is said of the leaves, something unread counting as unclassified. */
  ghost predicate Strongest(statements: seq<Stmt>, says: Words, kind: Class) {
    match kind
    case Destructive => SomeLeaf(statements, says, Destructive)
    case Unclassified => !AllOpened(statements) && !SomeLeaf(statements, says, Destructive)
    case TouchesExisting =>
      AllOpened(statements) && !SomeLeaf(statements, says, Destructive) && SomeLeaf(statements, says, TouchesExisting)
    case Privilege =>
      AllOpened(statements) && !SomeLeaf(statements, says, Destructive)
      && !SomeLeaf(statements, says, TouchesExisting) && SomeLeaf(statements, says, Privilege)
    case ReplacesRoutine =>
      AllOpened(statements) && !SomeLeaf(statements, says, Destructive)
      && !SomeLeaf(statements, says, TouchesExisting) && !SomeLeaf(statements, says, Privilege)
      && SomeLeaf(statements, says, ReplacesRoutine)
    case Additive =>
      AllOpened(statements) && !SomeLeaf(statements, says, Destructive)
      && !SomeLeaf(statements, says, TouchesExisting) && !SomeLeaf(statements, says, Privilege)
      && !SomeLeaf(statements, says, ReplacesRoutine)
  }

  lemma OpenedIff(s: Stmt, c: Context)
    ensures Opened(s) <==> Decide(s, c, 0).kind != Unclassified
  {
    ClassOfNested(s, c, 0);
    forall leaf | leaf in Leaves(s)
      ensures Readable(leaf) <==> Judge(leaf, c).kind != Unclassified
    {
      JudgedUnclassified(leaf, c);
    }
  }

  /** It says of a statement what the source judges. */
  ghost predicate AsJudged(says: Words, c: Context) {
    forall s: Stmt, kind :: !s.DoBlock? ==> (says(s, kind) <==> Judge(s, c).kind == kind)
  }

  /** A decision of a class other than unclassified is due to a leaf of an opened statement. */
  lemma DecidedByLeaf(statements: seq<Stmt>, c: Context, says: Words, d: Decision)
    requires AsJudged(says, c) && d in DecideAll(statements, c, 0) && d.kind != Unclassified
    ensures SomeLeaf(statements, says, d.kind)
  {
    DecideAllHas(statements, c, 0, d);
    var s :| s in statements && Decide(s, c, 0) == d;
    OpenedIff(s, c);
    ClassOfNested(s, c, 0);
    var leaf :| leaf in Leaves(s) && Judge(leaf, c).kind == d.kind;
    assert says(leaf, d.kind);
  }

  /** A leaf of an opened statement makes the decision on the statement at least as severe. */
  lemma LeafDecides(statements: seq<Stmt>, c: Context, says: Words, kind: Class) returns (d: Decision)
    requires AsJudged(says, c) && SomeLeaf(statements, says, kind)
    ensures d in DecideAll(statements, c, 0) && d.kind != Unclassified && Rank(d.kind) <= Rank(kind)
  {
    var s, leaf :| s in statements && Opened(s) && leaf in Leaves(s) && says(leaf, kind);
    OpenedIff(s, c);
    ClassOfNested(s, c, 0);
    d := Decide(s, c, 0);
    DecideAllHas(statements, c, 0, d);
  }

  lemma UnopenedDecided(statements: seq<Stmt>, c: Context)
    ensures AllOpened(statements) <==> forall d :: d in DecideAll(statements, c, 0) ==> d.kind != Unclassified
  {
    forall s | s in statements
      ensures Opened(s) <==> Decide(s, c, 0).kind != Unclassified
    {
      OpenedIff(s, c);
    }
    forall d
      ensures d in DecideAll(statements, c, 0) <==> exists s :: s in statements && Decide(s, c, 0) == d
    {
      DecideAllHas(statements, c, 0, d);
    }
  }

  lemma KindIsStrongest(statements: seq<Stmt>, c: Context, says: Words, kind: Class)
    requires AsJudged(says, c) && kind == KindOf(DecideAll(statements, c, 0))
    ensures Strongest(statements, says, kind)
  {
    KindIsMostSevere(DecideAll(statements, c, 0));
    UnopenedDecided(statements, c);
    if kind != Unclassified && kind != Additive {
      KindIsSaid(statements, c, says, kind);
    }
    NothingStronger(statements, c, says, kind);
  }

  lemma KindIsSaid(statements: seq<Stmt>, c: Context, says: Words, kind: Class)
    requires AsJudged(says, c) && MostSevere(kind, DecideAll(statements, c, 0))
    requires kind != Unclassified && kind != Additive
    ensures SomeLeaf(statements, says, kind)
  {
    var d :| d in DecideAll(statements, c, 0) && d.kind == kind;
    DecidedByLeaf(statements, c, says, d);
  }

  lemma NothingStronger(statements: seq<Stmt>, c: Context, says: Words, kind: Class)
    requires AsJudged(says, c) && MostSevere(kind, DecideAll(statements, c, 0))
    ensures forall other :: SomeLeaf(statements, says, other) ==> Rank(kind) <= Rank(other)
  {
    forall other | SomeLeaf(statements, says, other)
      ensures Rank(kind) <= Rank(other)
    {
      var d := LeafDecides(statements, c, says, other);
    }
  }

  lemma OneIsStrongest(statements: seq<Stmt>, says: Words, x: Class, y: Class)
    requires Strongest(statements, says, x) && Strongest(statements, says, y)
    ensures x == y
  {
  }

  /** What the classes mean. */
  ghost function Meaning(c: Context): Words {
    (s: Stmt, kind: Class) => !s.DoBlock? && Means(s, c, kind)
  }

  lemma MeaningIsJudged(c: Context)
    ensures AsJudged(Meaning(c), c)
  {
    forall s: Stmt, kind | !s.DoBlock?
      ensures Meaning(c)(s, kind) <==> Judge(s, c).kind == kind
    {
      ClassExactly(s, c, kind);
    }
  }

  /**
   * The class of a file is exactly the strongest thing its statements, however deep in DO blocks, can do
   * to the database.
   */
  lemma FileClassExactly(directory: seq<MigrationFile>, file: MigrationFile, appliedOn: int, kind: Class)
    ensures KindOf(FileDecisions(directory, file, appliedOn)) == kind
       <==> Strongest(file.statements, Meaning(ContextOfFile(directory, file, appliedOn)), kind)
  {
    var c := ContextOfFile(directory, file, appliedOn);
    var found := KindOf(DecideAll(file.statements, c, 0));
    MeaningIsJudged(c);
    KindIsStrongest(file.statements, c, Meaning(c), found);
    if Strongest(file.statements, Meaning(c), kind) {
      OneIsStrongest(file.statements, Meaning(c), found, kind);
    }
  }
}
