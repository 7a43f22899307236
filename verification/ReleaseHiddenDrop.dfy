// Automatic releases that drop what is there: behind a first name nobody knows, inside a DO block,
// and in a list of routines. In the last two the classifier goes on listing what is gone.
module ReleaseHiddenDrop {
  import opened Lists
  import opened Classify
  import opened ClassifyMeaning
  import opened ReleasePlan
  import opened Text
  import LastEvent

  const FIRST_FILE := "0001_a.sql"
  const SECOND_FILE := "0002_b.sql"

  function FirstEntry(make: Stmt): (e: TreeEntry)
    ensures e.kind.Numbered?
  {
    TreeEntry(MIGRATIONS + FIRST_FILE, FIRST_FILE, "1", Numbered(1, [make]))
  }

  function SecondEntry(drop: Stmt): (e: TreeEntry)
    ensures e.kind.Numbered?
  {
    TreeEntry(MIGRATIONS + SECOND_FILE, SECOND_FILE, "2", Numbered(2, [drop]))
  }

  /** A release that adds a second migration to a deployed first one, and changes nothing else. */
  function Releasing(make: Stmt, drop: Stmt): Input {
    Input(false, [], 1, 2, [FirstEntry(make)], [FirstEntry(make), SecondEntry(drop)])
  }

  function AsFile(e: TreeEntry): MigrationFile
    requires e.kind.Numbered?
  {
    MigrationFile(e.file, e.kind.version, e.kind.statements)
  }

  lemma WrittenTwo(x: TreeEntry, y: TreeEntry)
    requires x.kind.Numbered? && y.kind.Numbered? && x.file != y.file && !Before(y.file, x.file)
    ensures Written([], [x, y]) == [AsFile(x), AsFile(y)]
  {
    assert [x, y][1..] == [y] && [y][1..] == [];
    var first := [AsFile(x)];
    assert Put([], AsFile(x)) == first;
    assert first[1..] == [];
    assert Put(first, AsFile(y)) == [first[0]] + Put([], AsFile(y)) == [AsFile(x), AsFile(y)];
    assert Written([], [x, y]) == Written(first, [y]) == Written([AsFile(x), AsFile(y)], []);
  }

  lemma ThroughTwo(x: MigrationFile, y: MigrationFile, through: int)
    ensures Through([x, y], through)
         == (if x.version <= through then x.statements else []) + (if y.version <= through then y.statements else [])
  {
    assert [x, y][1..] == [y] && [y][1..] == [];
    assert Through([y], through) == (if y.version <= through then y.statements else []) + [];
  }

  lemma NamedLater()
    ensures FIRST_FILE != SECOND_FILE && !Before(SECOND_FILE, FIRST_FILE)
  {
    var x, y := SECOND_FILE, FIRST_FILE;
    assert x[3] == '2' && y[3] == '1';
    SameHead(x, y);
    SameHead(x[1..], y[1..]);
    SameHead(x[2..], y[2..]);
    assert x[1..][1..] == x[2..] && y[1..][1..] == y[2..] && x[2..][1..] == x[3..] && y[2..][1..] == y[3..];
    assert !Before(x[3..], y[3..]);
  }

  lemma SameHead(x: string, y: string)
    requires x != "" && y != "" && x[0] == y[0]
    ensures Before(x, y) <==> Before(x[1..], y[1..])
  {
  }

  lemma PathsDiffer(make: Stmt, drop: Stmt)
    ensures FirstEntry(make).path != SecondEntry(drop).path
  {
    NamedLater();
    assert FirstEntry(make).path[|MIGRATIONS|..] == FIRST_FILE;
    assert SecondEntry(drop).path[|MIGRATIONS|..] == SECOND_FILE;
  }

  lemma ObjectsOfTwo(make: Stmt, drop: Stmt)
    ensures ObjectsAt(Written([], Releasing(make, drop).after), 1) == AfterStatement(NOTHING, make)
    ensures ObjectsAt(Written([], Releasing(make, drop).after), 2)
         == AfterStatement(AfterStatement(NOTHING, make), drop)
  {
    var x, y := FirstEntry(make), SecondEntry(drop);
    NamedLater();
    WrittenTwo(x, y);
    ThroughTwo(AsFile(x), AsFile(y), 1);
    ThroughTwo(AsFile(x), AsFile(y), 2);
    assert [make] + [] == [make] && [make] + [drop] == [make, drop];
    assert [make][1..] == [] && [make, drop][1..] == [drop] && [drop][1..] == [];
    var o := AfterStatement(NOTHING, make);
    assert AfterAll(NOTHING, [make]) == AfterAll(o, []);
    assert AfterAll(NOTHING, [make, drop]) == AfterAll(o, [drop]) == AfterAll(AfterStatement(o, drop), []);
  }

  lemma SafeFile(i: Input, e: TreeEntry, version: nat)
    requires e.kind.Numbered? && Matching(i.after, version) == [e]
    requires forall s :: s in e.kind.statements ==> Automatic(Decide(s, ContextOf(i, e), 0).kind)
    ensures VersionSafe(i, version) && !Misread(i, version)
  {
    forall d | d in DecisionsOn(i, e)
      ensures Automatic(d.kind)
    {
      DecideAllHas(e.kind.statements, ContextOf(i, e), 0, d);
    }
  }

  lemma MatchingSecond(x: TreeEntry, y: TreeEntry, version: nat)
    requires NumberOf(x) != Some(version) && NumberOf(y) == Some(version)
    ensures Matching([x, y], version) == [y]
  {
    assert [x, y][1..] == [y] && [y][1..] == [];
    assert Matching([y], version) == [y] + [];
  }

  /** A second migration on top of an unchanged first one leaves nothing to ask but about itself. */
  lemma OneMoreMigration(i: Input, x: TreeEntry, y: TreeEntry)
    requires i == Input(false, [], 1, 2, [x], [x, y]) && x.path != y.path
    requires x.kind.Numbered? && x.kind.version == 1 && y.kind.Numbered? && y.kind.version == 2
    requires VersionSafe(i, 2) && !Misread(i, 2)
    ensures NeedsNobody(i) && !Stops(i) && OneEntryPerPath(i.before) && OneEntryPerPath(i.after)
  {
    assert x in i.before && x in i.after;
    assert forall e :: e in i.after <==> e == x || e == y;
    assert Present(i.after, x.path) && Present(i.before, x.path) && Unchanged(i.before, x);
    forall version | 1 < version <= 2
      ensures VersionSafe(i, version) && !Misread(i, version)
    {
      assert version == 2;
    }
  }

  /** The release needs nobody, "old" was there before it, and its second migration drops it. */
  ghost predicate DropsOld(make: Stmt, drop: Stmt, pool: Pool) {
    var i := Releasing(make, drop);
    && NeedsNobody(i) && !Stops(i) && OneEntryPerPath(i.before) && OneEntryPerPath(i.after)
    && "old" in PoolOf(ObjectsAt(Written([], i.after), 1), pool)
    && !Survives([drop], pool, "old")
  }

  /** `drop` is a two-name drop with "old" as the second, alone or in a DO block. */
  predicate HidesOld(drop: Stmt, leaf: Stmt, pool: Pool) {
    && (drop == leaf || drop == DoBlock([leaf]))
    && ((leaf == DropRoutine("fresh", ["old"]) && pool == Routines)
        || (leaf == DropOther(Indexes, "fresh", ["old"]) && pool == Indexes))
  }

  /** A second migration whose one statement is additive or replaces a routine goes out by itself. */
  lemma QuietRelease(make: Stmt, s: Stmt)
    requires Automatic(Decide(s, ContextOf(Releasing(make, s), SecondEntry(s)), 0).kind)
    ensures var i := Releasing(make, s);
      NeedsNobody(i) && !Stops(i) && OneEntryPerPath(i.before) && OneEntryPerPath(i.after)
  {
    var i, e := Releasing(make, s), SecondEntry(s);
    MatchingSecond(FirstEntry(make), e, 2);
    SafeFile(i, e, 2);
    PathsDiffer(make, s);
    OneMoreMigration(i, FirstEntry(make), e);
  }

  lemma QuietReleaseDrops(make: Stmt, drop: Stmt, leaf: Stmt, pool: Pool)
    requires Creates(make) == Some((pool, "old"))
    requires HidesOld(drop, leaf, pool)
    ensures DropsOld(make, drop, pool)
  {
    var i := Releasing(make, drop);
    ObjectsOfTwo(make, drop);
    assert |"fresh"| != |"old"|;
    LeafIsQuiet(drop, leaf, ContextOf(i, SecondEntry(drop)), pool);
    QuietRelease(make, drop);
    LeafDropsOld(drop, leaf, pool);
  }

  lemma LeafIsQuiet(drop: Stmt, leaf: Stmt, c: Context, pool: Pool)
    requires HidesOld(drop, leaf, pool)
    requires "fresh" !in PoolOf(c.objects, pool)
    ensures Decide(drop, c, 0).kind == Additive
  {
    assert Judge(leaf, c).kind == Additive;
    if drop.DoBlock? {
      assert [leaf][1..] == [];
      var decisions := DecideAll([leaf], c, 1);
      assert decisions == [Decide(leaf, c, 1)];
      assert Worst(decisions) == decisions[0];
    }
  }

  lemma LeafDropsOld(drop: Stmt, leaf: Stmt, pool: Pool)
    requires HidesOld(drop, leaf, pool)
    ensures !Survives([drop], pool, "old")
  {
    assert [drop][1..] == [] && [leaf][1..] == [];
    assert LeavesOf([leaf]) == [leaf] + [];
    assert LeavesOf([drop]) == Leaves(drop) + LeavesOf([]) == [leaf];
    SecondNameGoes(leaf, pool);
    var actions := Actions([leaf], pool, "old");
    assert actions == [LastEvent.Clears] && actions[1..] == [];
    assert LastEvent.Outcome(actions, true) == LastEvent.Outcome([], false);
  }

  lemma SecondNameGoes(leaf: Stmt, pool: Pool)
    requires HidesOld(leaf, leaf, pool)
    ensures Action(leaf, pool, "old").Clears?
  {
    var names := ["fresh"] + ["old"];
    assert names[1] == "old";
  }

  lemma GoneFromPicture(o: Objects)
    requires o.indexes == ["old"]
    ensures AfterStatement(o, DropOther(Indexes, "fresh", ["old"])).indexes == []
  {
    var names := ["fresh"] + ["old"];
    assert |"fresh"| != |"old"|;
    assert names[1..] == ["old"] && ["old"][1..] == [];
    assert Without(["old"], "fresh") == ["old"] + Without([], "fresh") == ["old"];
    assert WithoutAll(["old"], names) == WithoutAll(["old"], ["old"]) == WithoutAll([], []);
  }

  /** An index dropped behind a first name nobody knows: the classifier's picture loses it too. */
  lemma AutomaticReleaseCanDrop()
    ensures var make, drop := CreateIndex(Some("old"), "t"), DropOther(Indexes, "fresh", ["old"]);
      && DropsOld(make, drop, Indexes)
      && "old" !in ObjectsAt(Written([], Releasing(make, drop).after), 2).indexes
  {
    var make, drop := CreateIndex(Some("old"), "t"), DropOther(Indexes, "fresh", ["old"]);
    QuietReleaseDrops(make, drop, drop, Indexes);
    ObjectsOfTwo(make, drop);
    GoneFromPicture(AfterStatement(NOTHING, make));
  }

  /** The same drop inside a DO block: the picture goes on listing the index. */
  lemma DropInBlockStaysListed()
    ensures var make, drop := CreateIndex(Some("old"), "t"), DoBlock([DropOther(Indexes, "fresh", ["old"])]);
      && DropsOld(make, drop, Indexes)
      && "old" in ObjectsAt(Written([], Releasing(make, drop).after), 2).indexes
  {
    var make, drop := CreateIndex(Some("old"), "t"), DoBlock([DropOther(Indexes, "fresh", ["old"])]);
    QuietReleaseDrops(make, drop, DropOther(Indexes, "fresh", ["old"]), Indexes);
    ObjectsOfTwo(make, drop);
  }

  /** The second name of a list of routines: the picture goes on listing the routine. */
  lemma LaterRoutineStaysListed()
    ensures var make, drop := CreateRoutine("old"), DropRoutine("fresh", ["old"]);
      && DropsOld(make, drop, Routines)
      && "old" in ObjectsAt(Written([], Releasing(make, drop).after), 2).routines
  {
    var make, drop := CreateRoutine("old"), DropRoutine("fresh", ["old"]);
    QuietReleaseDrops(make, drop, drop, Routines);
    ObjectsOfTwo(make, drop);
    ListedStill(make);
  }

  lemma ListedStill(make: Stmt)
    requires make == CreateRoutine("old")
    ensures "old" in AfterStatement(AfterStatement(NOTHING, make), DropRoutine("fresh", ["old"])).routines
  {
    assert |"fresh"| != |"old"|;
    assert ["fresh"][1..] == [];
    assert Without(["old"], "fresh") == ["old"] + Without([], "fresh");
    assert WithoutAll(["old"], ["fresh"]) == WithoutAll(Without(["old"], "fresh"), []);
  }
}
