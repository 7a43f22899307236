// What an automatic release can change of what was there before it: nothing, but for the few things
// its statements do where the classifier does not look.
module ReleaseEffects {
  import opened Text
  import opened Classify
  import opened ClassifyMeaning
  import opened Database
  import opened DatabaseRuns
  import opened ClassifyEffects
  import opened ReleasePlan
  import opened ReleaseHiddenDrop

  // ------------------------------------------------------------------ one statement

  /**
   * The statement replaces or drops a trigger of the table, grants on it behind the word that was
   * judged, drops indexes, which can be of any table, or drops the object behind another.
   */
  predicate Overlooked(s: Stmt, cell: Cell) {
    match cell
    case OfTable(table, TriggersOn) => (s.ReplaceTrigger? || s.DropTrigger?) && s.table == table
    case OfTable(table, Grants) => s.GrantOrRevoke? && s.target.OnObject? && table in s.target.tables
    case OfTable(_, IndexesOn) => DropsFrom(s, Indexes)
    case OfTable(_, _) => false
    case ViewCell(name) => DropsFrom(s, Views) && name in s.rest
    case TypeCell(name) => DropsFrom(s, Types) && name in s.rest
    case SequenceCell(name) => DropsFrom(s, Sequences) && name in s.rest
  }

  predicate DropsFrom(s: Stmt, pool: Pool) {
    s.DropOther? && s.pool == pool
  }

  lemma QuietWrites(s: Stmt, c: Context, cell: Cell)
    requires Readable(s) && Automatic(Judge(s, c).kind) && Listed(c.objects, cell)
    ensures Writes(s, cell) <==> Overlooked(s, cell)
  {
  }

  /**
   * What an additive statement, or one that replaces a routine, can change of what was there: exactly
   * what it does where the classifier does not look.
   */
  lemma QuietChangesExactly(s: Stmt, c: Context, cell: Cell)
    requires !s.DoBlock? && Automatic(Judge(s, c).kind) && Listed(c.objects, cell)
    ensures MayChange(s, cell) <==> Overlooked(s, cell)
  {
    JudgedUnclassified(s, c);
    QuietWrites(s, c, cell);
    ChangesExactly(s, cell);
  }

  // ----------------------------------------------------------------------- a file

  /** Running these can change what is there. */
  ghost predicate CanChange(leaves: seq<Stmt>, cell: Cell)
    requires forall leaf :: leaf in leaves ==> !leaf.DoBlock?
  {
    exists x, y :: Reaches(leaves, x, y) && At(x, cell) != Gone && At(y, cell) != At(x, cell)
  }

  lemma {:induction false} KeptThroughout(leaves: seq<Stmt>, cell: Cell, x: Db, y: Db)
    requires forall leaf :: leaf in leaves ==> !leaf.DoBlock? && !MayChange(leaf, cell)
    requires Reaches(leaves, x, y) && At(x, cell) != Gone
    ensures At(y, cell) == At(x, cell)
    decreases |leaves|
  {
    if leaves != [] {
      var m :| Runs(leaves[0], x, m) && Reaches(leaves[1..], m, y);
      assert leaves[0] in leaves;
      assert At(m, cell) == At(x, cell);
      KeptThroughout(leaves[1..], cell, m, y);
    }
  }

  /** The place is there, and holds what was put there under the name before the file ran. */
  predicate Lasting(x: Db, cell: Cell, name: string) {
    match cell
    case OfTable(table, part) => table in x.tables && Kept(PartOf(x.tables[table], part), name)
    case ViewCell(view) => view in x.views && x.views[view] == View("was", "")
    case TypeCell(other) => Kept(x.types, other)
    case SequenceCell(other) => Kept(x.sequences, other)
  }

  predicate Kept(x: Entries, name: string) {
    name in x && x[name] == "was"
  }

  lemma PartNotRestored(s: Stmt, table: string, t: Table, part: Part, name: string)
    requires !Kept(PartOf(t, part), name)
    ensures !Kept(PartOf(TableStep(s, table, t), part), name)
  {
  }

  /** The run that changes as little as it may never brings back what is gone. */
  lemma NotRestored(s: Stmt, x: Db, cell: Cell, name: string)
    requires !Lasting(x, cell, name)
    ensures !Lasting(Step(s, x), cell, name)
  {
    match cell {
      case OfTable(table, part) => TableNotRestored(s, x.tables, table, part, name);
      case ViewCell(view) =>
      case TypeCell(other) => assert Kept(StepTypes(s, x.types), other) ==> Kept(x.types, other);
      case SequenceCell(other) => assert Kept(StepSequences(s, x.sequences), other) ==> Kept(x.sequences, other);
    }
  }

  lemma TableNotRestored(s: Stmt, x: map<string, Table>, table: string, part: Part, name: string)
    requires table in x ==> !Kept(PartOf(x[table], part), name)
    ensures table in StepTables(s, x) ==> !Kept(PartOf(StepTables(s, x)[table], part), name)
  {
    if table in x {
      PartNotRestored(s, table, x[table], part, name);
    }
  }

  /** The entry of the place that the statement is bound to hit. */
  function Hit(s: Stmt): string {
    match s
    case ReplaceTrigger(name, _) => name
    case DropTrigger(name, _) => name
    case DropOther(_, first, _) => first
    case _ => ""
  }

  lemma OverlookedHits(s: Stmt, x: Db, cell: Cell)
    requires Overlooked(s, cell)
    ensures !Lasting(Step(s, x), cell, Hit(s))
  {
  }

  /** A database with this place and an entry in it. */
  function Filled(cell: Cell, name: string): Db {
    var some := map[name := "was"];
    match cell
    case OfTable(table, part) => One(table, Table(some, some, some, some, some, some, some))
    case ViewCell(view) => EMPTY.(views := map[view := View("was", "")])
    case TypeCell(other) => EMPTY.(types := map[other := "was"])
    case SequenceCell(other) => EMPTY.(sequences := map[other := "was"])
  }

  function StepAll(leaves: seq<Stmt>, x: Db): Db
    decreases |leaves|
  {
    if leaves == [] then x else StepAll(leaves[1..], Step(leaves[0], x))
  }

  lemma {:induction false} StepsReach(leaves: seq<Stmt>, x: Db)
    requires forall leaf :: leaf in leaves ==> !leaf.DoBlock?
    ensures Reaches(leaves, x, StepAll(leaves, x))
    decreases |leaves|
  {
    if leaves != [] {
      assert leaves[0] in leaves;
      Steps(leaves[0], x);
      StepsReach(leaves[1..], Step(leaves[0], x));
    }
  }

  /** Once some statement has hit the entry, it is not there at the end. */
  lemma {:induction false} NotLasting(leaves: seq<Stmt>, x: Db, cell: Cell, name: string)
    requires !Lasting(x, cell, name) || exists leaf :: leaf in leaves && Overlooked(leaf, cell) && Hit(leaf) == name
    ensures !Lasting(StepAll(leaves, x), cell, name)
    decreases |leaves|
  {
    if leaves != [] {
      var m := Step(leaves[0], x);
      if !Lasting(x, cell, name) {
        NotRestored(leaves[0], x, cell, name);
      } else if Overlooked(leaves[0], cell) && Hit(leaves[0]) == name {
        OverlookedHits(leaves[0], x, cell);
      }
      NotLasting(leaves[1..], m, cell, name);
    }
  }

  lemma OverlookedCanChange(leaves: seq<Stmt>, cell: Cell, leaf: Stmt)
    requires forall other :: other in leaves ==> !other.DoBlock?
    requires leaf in leaves && Overlooked(leaf, cell)
    ensures CanChange(leaves, cell)
  {
    var name := Hit(leaf);
    var x := Filled(cell, name);
    StepsReach(leaves, x);
    NotLasting(leaves, x, cell, name);
    var y := StepAll(leaves, x);
    assert Lasting(x, cell, name) && At(x, cell) != Gone;
    assert At(y, cell) != At(x, cell);
  }

  /**
   * What a file whose statements are all additive or replace a routine can change of what was there
   * before it: exactly the places some leaf of it, however deep, reaches where the classifier does not
   * look.
   */
  lemma QuietFileChangesExactly(leaves: seq<Stmt>, c: Context, cell: Cell)
    requires forall leaf :: leaf in leaves ==> !leaf.DoBlock? && Automatic(Judge(leaf, c).kind)
    requires Listed(c.objects, cell)
    ensures CanChange(leaves, cell) <==> exists leaf :: leaf in leaves && Overlooked(leaf, cell)
  {
    forall leaf | leaf in leaves
      ensures MayChange(leaf, cell) <==> Overlooked(leaf, cell)
    {
      QuietChangesExactly(leaf, c, cell);
    }
    if x, y :| Reaches(leaves, x, y) && At(x, cell) != Gone && At(y, cell) != At(x, cell) {
      if forall leaf :: leaf in leaves ==> !Overlooked(leaf, cell) {
        KeptThroughout(leaves, cell, x, y);
      }
    }
    if leaf :| leaf in leaves && Overlooked(leaf, cell) {
      OverlookedCanChange(leaves, cell, leaf);
    }
  }

  /**
   * A file classed additive or replacing a routine was read through to its leaves, and changes of what was
   * there exactly what they reach where the classifier does not look.
   */
  lemma AutomaticFileChangesExactly(directory: seq<MigrationFile>, file: MigrationFile, appliedOn: int, cell: Cell)
    requires Automatic(KindOf(FileDecisions(directory, file, appliedOn)))
    requires Listed(ObjectsAt(directory, appliedOn), cell)
    ensures AllOpened(file.statements)
    ensures CanChange(LeavesOf(file.statements), cell)
       <==> exists leaf :: leaf in LeavesOf(file.statements) && Overlooked(leaf, cell)
  {
    var c := ContextOfFile(directory, file, appliedOn);
    GuardsAreOne(FileDecisions(directory, file, appliedOn));
    UnopenedDecided(file.statements, c);
    forall leaf | leaf in LeavesOf(file.statements)
      ensures Automatic(Judge(leaf, c).kind)
    {
      LeavesOfHas(file.statements, leaf);
      var k :| 0 <= k < |file.statements| && leaf in Leaves(file.statements[k]);
      StatementIsHarmless(file.statements, c, file.statements[k]);
    }
    QuietFileChangesExactly(LeavesOf(file.statements), c, cell);
  }

  // -------------------------------------------------------------------- a release

  ghost predicate NewFile(i: Input, e: TreeEntry) {
    e in i.after && e.kind.Numbered? && i.fromSchema < e.kind.version <= i.toSchema
  }

  lemma NewLeavesAreQuiet(i: Input, e: TreeEntry, leaf: Stmt)
    requires NeedsNobody(i) && NewFile(i, e) && leaf in LeavesOf(e.kind.statements)
    ensures Automatic(Judge(leaf, ContextOf(i, e)).kind)
  {
    LeavesOfHas(e.kind.statements, leaf);
    var k :| 0 <= k < |e.kind.statements| && leaf in Leaves(e.kind.statements[k]);
    AutomaticReleaseIsSafe(i, e, e.kind.statements[k]);
  }

  /** What a new file of an automatic release can change of what was there before it. */
  lemma AutomaticReleaseChangesExactly(i: Input, e: TreeEntry, cell: Cell)
    requires NeedsNobody(i) && NewFile(i, e) && Listed(ContextOf(i, e).objects, cell)
    ensures var leaves := LeavesOf(e.kind.statements);
      CanChange(leaves, cell) <==> exists leaf :: leaf in leaves && Overlooked(leaf, cell)
  {
    forall leaf | leaf in LeavesOf(e.kind.statements)
      ensures Automatic(Judge(leaf, ContextOf(i, e)).kind)
    {
      NewLeavesAreQuiet(i, e, leaf);
    }
    QuietFileChangesExactly(LeavesOf(e.kind.statements), ContextOf(i, e), cell);
  }

  /** The two have the same columns, rows, constraints and owned sequences. */
  predicate SameBody(t: Table, u: Table) {
    u.columns == t.columns && u.rows == t.rows && u.constraints == t.constraints && u.owned == t.owned
  }

  /**
   * A table the classifier lists is still there after a new file of an automatic release, with the
   * columns, rows, constraints and owned sequences it had, and the release holds no statement that
   * could not be read.
   */
  lemma AutomaticReleaseKeepsTableBodies(i: Input, e: TreeEntry, table: string, x: Db, y: Db)
    requires NeedsNobody(i) && NewFile(i, e) && table in ContextOf(i, e).objects.tables
    requires Reaches(LeavesOf(e.kind.statements), x, y) && table in x.tables
    ensures table in y.tables && SameBody(x.tables[table], y.tables[table])
    ensures forall s :: s in e.kind.statements ==> Opened(s)
  {
    forall part | part == Columns || part == Rows || part == Constraints || part == Owned
      ensures At(y, OfTable(table, part)) == At(x, OfTable(table, part))
    {
      AutomaticReleaseChangesExactly(i, e, OfTable(table, part));
    }
    assert At(y, OfTable(table, Columns)) == Has(PartOf(x.tables[table], Columns));
    assert At(y, OfTable(table, Rows)) == Has(PartOf(x.tables[table], Rows));
    assert At(y, OfTable(table, Constraints)) == Has(PartOf(x.tables[table], Constraints));
    assert At(y, OfTable(table, Owned)) == Has(PartOf(x.tables[table], Owned));
    forall s | s in e.kind.statements
      ensures Opened(s)
    {
      AutomaticReleaseIsSafe(i, e, s);
      ClassOfNested(s, ContextOf(i, e), 0);
      OpenedIff(s, ContextOf(i, e));
    }
  }

  /** A deployed migration is in the new commit as it was in the old one. */
  lemma DeployedStays(i: Input, e: TreeEntry, version: nat)
    requires NeedsNobody(i) && OneEntryPerPath(i.before) && e in i.before
    requires NumberOf(e) == Some(version) && version <= i.fromSchema
    requires forall x :: x in i.after && x.path == e.path ==> NumberOf(x) == NumberOf(e)
    ensures i.fromSchema <= i.toSchema
    ensures exists now :: now in i.after && now.path == e.path && now.blob == e.blob
  {
    assert Deployed(e, i.fromSchema);
    var now :| now in i.after && now.path == e.path;
    assert Deployed(now, i.fromSchema);
    var was :| was in i.before && was.path == now.path && was.blob == now.blob;
  }

  // -------------------------------------------------------------------- witnesses

  /** The release needs nobody, table "old" was there before it, and its second migration can change the place. */
  ghost predicate ChangesOld(s: Stmt, part: Part)
    requires !s.DoBlock?
  {
    var i := Releasing(CreateTable("old"), s);
    && NeedsNobody(i) && !Stops(i) && "old" in ContextOf(i, SecondEntry(s)).objects.tables
    && CanChange(LeavesOf([s]), OfTable("old", part))
  }

  function OldContext(s: Stmt): Context {
    ContextOf(Releasing(CreateTable("old"), s), SecondEntry(s))
  }

  lemma OldIsListed(s: Stmt)
    ensures OldContext(s).objects == NOTHING.(tables := ["old"])
  {
    ObjectsOfTwo(CreateTable("old"), s);
    OldIsMade(CreateTable("old"));
  }

  lemma OldIsMade(make: Stmt)
    requires make == CreateTable("old")
    ensures AfterStatement(NOTHING, make) == NOTHING.(tables := ["old"])
  {
    assert Creates(make) == Some((Tables, "old"));
    assert Added([], "old") == ["old"];
  }

  lemma OneLeafCanChange(s: Stmt, cell: Cell)
    requires !s.DoBlock? && Overlooked(s, cell)
    ensures CanChange(LeavesOf([s]), cell)
  {
    assert LeavesOf([s]) == [s] + LeavesOf([s][1..]);
    OverlookedCanChange(LeavesOf([s]), cell, s);
  }

  lemma QuietChange(s: Stmt, part: Part)
    requires !s.DoBlock? && Overlooked(s, OfTable("old", part)) && Automatic(Judge(s, OldContext(s)).kind)
    ensures ChangesOld(s, part)
  {
    OldIsListed(s);
    QuietRelease(CreateTable("old"), s);
    OneLeafCanChange(s, OfTable("old", part));
  }

  lemma NewTriggerIsQuiet()
    ensures var s := ReplaceTrigger("fresh", "old"); Judge(s, OldContext(s)).kind == Additive
  {
    OldIsListed(ReplaceTrigger("fresh", "old"));
  }

  lemma HiddenGrantIsQuiet(s: Stmt)
    requires s == GrantOrRevoke(OnObject("fresh", ["fresh", "old"]))
    ensures Judge(s, OldContext(s)).kind == Additive
  {
    OldIsListed(s);
    assert "fresh" !in ["old"] by {
      assert |"fresh"| != |"old"|;
    }
    UnknownWordIsQuiet(s, OldContext(s));
  }

  lemma UnknownWordIsQuiet(s: Stmt, c: Context)
    requires s.GrantOrRevoke? && s.target.OnObject? && s.target.word !in c.objects.tables
    ensures Judge(s, c).kind == Additive
  {
  }

  lemma HiddenGrantIsOverlooked(s: Stmt)
    requires s == GrantOrRevoke(OnObject("fresh", ["fresh", "old"]))
    ensures Overlooked(s, OfTable("old", Grants))
  {
    assert s.target.tables[1] == "old";
  }

  /** A trigger put on a table that was there, and a grant on it behind a new table, go out by themselves. */
  lemma AutomaticReleaseCanChange()
    ensures ChangesOld(ReplaceTrigger("fresh", "old"), TriggersOn)
    ensures ChangesOld(GrantOrRevoke(OnObject("fresh", ["fresh", "old"])), Grants)
  {
    NewTriggerIsQuiet();
    QuietChange(ReplaceTrigger("fresh", "old"), TriggersOn);
    var grant := GrantOrRevoke(OnObject("fresh", ["fresh", "old"]));
    HiddenGrantIsQuiet(grant);
    HiddenGrantIsOverlooked(grant);
    QuietChange(grant, Grants);
  }
}
